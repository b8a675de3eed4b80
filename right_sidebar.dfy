/**
 * The layout of the stacked bank cards in the right sidebar: each card is
 * shifted down and left of the one before it and drawn beneath it.
 */
module RightSidebar {
  import opened Wrappers

  /** One card's position in pixels and its stacking order. */
  datatype CardLayout = CardLayout(key: string, top: int, right: int, zIndex: int)

  /** The stack: the height reserved for it, and its cards in bank order. */
  datatype CardStack = CardStack(minHeight: int, cards: seq<CardLayout>)

  const CardStep := 40
  const HeightPerCard := 60
  const ExtraHeight := 120

  /** Card `index` of `count`: offset 40 per card down, half of that to the left, and drawn over every later card. */
  function Card(key: string, index: nat, count: nat): CardLayout {
    var offset := index * CardStep;
    CardLayout(key, offset, offset / 2, count - index)
  }

  /** The card stack for banks with the given keys; no stack at all when there are no banks. */
  function Stack(bankKeys: seq<string>): (r: Option<CardStack>)
    ensures r.None? <==> bankKeys == []
    ensures r.Some? ==> r.value.minHeight == HeightPerCard * |bankKeys| + ExtraHeight
    ensures r.Some? ==> |r.value.cards| == |bankKeys|
    ensures r.Some? ==> forall i :: 0 <= i < |bankKeys| ==>
      && r.value.cards[i].key == bankKeys[i]
      && r.value.cards[i].top == 40 * i
      && r.value.cards[i].right == 20 * i
      && r.value.cards[i].zIndex == |bankKeys| - i
  {
    if |bankKeys| == 0 then None
    else
      var n := |bankKeys|;
      Some(CardStack(n * HeightPerCard + ExtraHeight,
                     seq(n, i requires 0 <= i < n => Card(bankKeys[i], i, n))))
  }

  /**
   * The stacking orders are 1 to n, each used once: each card is drawn over
   * every later card, the first on top and the last at 1.
   */
  lemma StackingOrder(bankKeys: seq<string>)
    requires bankKeys != []
    ensures var cards := Stack(bankKeys).value.cards;
      && (forall i :: 0 <= i < |cards| ==> 1 <= cards[i].zIndex <= |cards|)
      && (forall i, j :: 0 <= i < j < |cards| ==> cards[i].zIndex > cards[j].zIndex)
      && cards[0].zIndex == |cards| && cards[|cards| - 1].zIndex == 1
  {
  }

  /** Every card's top edge lies inside the reserved height, with the fixed extra space still below it. */
  lemma CardsStartInsideReservedHeight(bankKeys: seq<string>)
    requires bankKeys != []
    ensures var stack := Stack(bankKeys).value;
      forall i :: 0 <= i < |stack.cards| ==> stack.cards[i].top + ExtraHeight <= stack.minHeight
  {
  }

  /** Later cards sit strictly lower and further left. */
  lemma CardsCascade(bankKeys: seq<string>)
    requires bankKeys != []
    ensures var cards := Stack(bankKeys).value.cards;
      forall i, j :: 0 <= i < j < |cards| ==> cards[i].top < cards[j].top && cards[i].right < cards[j].right
  {
  }
}
