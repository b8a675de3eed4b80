/**
 * The accessibility logic of the side sheet dialog: the search of its
 * children for a title, the accessible-title fallback, the Escape and
 * Tab focus-trap key handler, and the side-to-classes table.
 */
module Sheet {
  import opened Wrappers
  import opened Text

  /**
   * A React child after `Children.toArray`: a string, a number, or an element
   * with its component's display name (if it has one) and its own children.
   */
  datatype Node =
    | Str(s: string)
    | Num(n: int)
    | Element(displayName: Option<string>, children: seq<Node>)

  const TitleName := "SheetTitle"
  const DefaultTitle := "Sheet dialog"

  /** The string children of a title, joined: numbers and elements among them add nothing. */
  function DirectText(children: seq<Node>): string {
    if children == [] then ""
    else (if children[0].Str? then children[0].s else "") + DirectText(children[1..])
  }

  /** The trimmed text of an element's direct string children. */
  function TitleText(e: Node): (r: string)
    requires e.Element?
    ensures IsTrimmed(r)
  {
    TrimProperties(DirectText(e.children));
    Trim(DirectText(e.children))
  }

  predicate AllWhitespace(s: string) {
    forall i :: 0 <= i < |s| ==> IsJsWhitespace(s[i])
  }

  /** An element that is a sheet title with something besides whitespace in its text. */
  predicate IsTitle(e: Node) {
    e.Element? && e.displayName == Some(TitleName) && !AllWhitespace(DirectText(e.children))
  }

  /** A title element is a title exactly when its trimmed text is non-empty. */
  lemma IsTitleIffText(e: Node)
    requires e.Element? && e.displayName == Some(TitleName)
    ensures IsTitle(e) <==> TitleText(e) != ""
  {
    TrimProperties(DirectText(e.children));
  }

  /** The elements of a forest in pre-order: each element, then the elements below it, then its later siblings. */
  function PreOrder(nodes: seq<Node>): (r: seq<Node>)
    ensures forall i :: 0 <= i < |r| ==> r[i].Element?
    decreases nodes
  {
    if nodes == [] then []
    else
      (if nodes[0].Element? then [nodes[0]] + PreOrder(nodes[0].children) else [])
      + PreOrder(nodes[1..])
  }

  /** The text of the first title of a list of elements. */
  function FirstTitle(elements: seq<Node>): (r: Option<string>)
    ensures r.None? <==> forall i :: 0 <= i < |elements| ==> !IsTitle(elements[i])
    ensures r.Some? ==> r.value != "" && IsTrimmed(r.value)
  {
    if elements == [] then None
    else if IsTitle(elements[0]) then
      IsTitleIffText(elements[0]);
      Some(TitleText(elements[0]))
    else
      assert forall i :: 1 <= i < |elements| ==> elements[i] == elements[1..][i - 1];
      FirstTitle(elements[1..])
  }

  /** The found text is that of the title at the smallest index. */
  lemma {:induction false} FirstTitleIsFirst(elements: seq<Node>, k: nat)
    requires k < |elements| && IsTitle(elements[k])
    requires forall j :: 0 <= j < k ==> !IsTitle(elements[j])
    ensures FirstTitle(elements) == Some(TitleText(elements[k]))
  {
    if k > 0 {
      assert forall j :: 0 <= j < k - 1 ==> elements[1..][j] == elements[j + 1];
      FirstTitleIsFirst(elements[1..], k - 1);
    }
  }

  /** What the title search finds: the text of the first titled element in pre-order. */
  function TitleOf(nodes: seq<Node>): (r: Option<string>)
    ensures r.None? <==> forall i :: 0 <= i < |PreOrder(nodes)| ==> !IsTitle(PreOrder(nodes)[i])
    ensures r.Some? ==> r.value != "" && IsTrimmed(r.value)
  {
    var elements := PreOrder(nodes);
    var r := FirstTitle(elements);
    if r.None? then r
    else
      var k :| 0 <= k < |elements| && IsTitle(elements[k]);
      assert IsTitle(PreOrder(nodes)[k]);
      r
  }

  lemma {:induction false} PreOrderAppend(a: seq<Node>, b: seq<Node>)
    ensures PreOrder(a + b) == PreOrder(a) + PreOrder(b)
    decreases a
  {
    if a == [] {
      assert a + b == b;
    } else {
      assert (a + b)[0] == a[0] && (a + b)[1..] == a[1..] + b;
      PreOrderAppend(a[1..], b);
    }
  }

  lemma {:induction false} FirstTitleAppend(a: seq<Node>, b: seq<Node>)
    ensures FirstTitle(a + b) == if FirstTitle(a).Some? then FirstTitle(a) else FirstTitle(b)
    decreases a
  {
    if a == [] {
      assert a + b == b;
    } else {
      assert (a + b)[0] == a[0] && (a + b)[1..] == a[1..] + b;
      FirstTitleAppend(a[1..], b);
    }
  }

  /** The elements of one node in pre-order. */
  lemma PreOrderOne(n: Node)
    ensures PreOrder([n]) == if n.Element? then [n] + PreOrder(n.children) else []
  {
    assert [n][1..] == [];
  }

  /** The search of one element: the element itself if it is a title, else the elements below it. */
  lemma TitleOfElement(e: Node)
    requires e.Element?
    ensures TitleOf([e]) == if IsTitle(e) then Some(TitleText(e)) else TitleOf(e.children)
  {
    PreOrderOne(e);
    FirstTitleAppend([e], PreOrder(e.children));
  }

  /**
   * Nothing was found among the first `i` children: what the `i`-th child
   * holds is the answer for the whole list, and if it holds nothing the
   * first `i + 1` children hold nothing.
   */
  lemma TitleOfNext(nodes: seq<Node>, i: nat)
    requires i < |nodes| && TitleOf(nodes[..i]).None?
    ensures TitleOf([nodes[i]]).Some? ==> TitleOf(nodes) == TitleOf([nodes[i]])
    ensures TitleOf([nodes[i]]).None? ==> TitleOf(nodes[..i + 1]).None?
  {
    assert nodes[..i + 1] == nodes[..i] + [nodes[i]];
    assert nodes == nodes[..i] + ([nodes[i]] + nodes[i + 1..]);
    PreOrderAppend(nodes[..i], [nodes[i]]);
    PreOrderAppend(nodes[..i], [nodes[i]] + nodes[i + 1..]);
    PreOrderAppend([nodes[i]], nodes[i + 1..]);
    FirstTitleAppend(PreOrder(nodes[..i]), PreOrder([nodes[i]]));
    FirstTitleAppend(PreOrder(nodes[..i]), PreOrder([nodes[i]] + nodes[i + 1..]));
    FirstTitleAppend(PreOrder([nodes[i]]), PreOrder(nodes[i + 1..]));
  }

  /**
   * `findSheetTitleText`: walks the children in order; a title element with
   * non-empty text answers at once, and otherwise the search goes into the
   * element's own children before moving on to its next sibling.
   */
  method FindSheetTitleText(nodes: seq<Node>) returns (r: Option<string>)
    ensures r == TitleOf(nodes)
    decreases nodes
  {
    var i := 0;
    while i < |nodes|
      invariant 0 <= i <= |nodes|
      invariant TitleOf(nodes[..i]) == None
    {
      var child := nodes[i];
      TitleOfNext(nodes, i);
      PreOrderOne(child);
      if child.Element? {
        TitleOfElement(child);
        if child.displayName == Some(TitleName) {
          var text := TitleText(child);
          IsTitleIffText(child);
          if text != "" {
            return Some(text);
          }
        }
        if child.children != [] {
          var nested := FindSheetTitleText(child.children);
          if nested.Some? {
            return nested;
          }
        }
      }
      i := i + 1;
    }
    assert nodes[..i] == nodes;
    return None;
  }

  /** A found title is non-empty and already trimmed. */
  lemma TitleOfIsTrimmed(nodes: seq<Node>)
    ensures TitleOf(nodes).Some? ==> TitleOf(nodes).value != "" && IsTrimmed(TitleOf(nodes).value)
  {
  }

  /** Strings and numbers among the children are skipped. */
  lemma SkipsNonElements(n: Node, rest: seq<Node>)
    requires !n.Element?
    ensures TitleOf([n] + rest) == TitleOf(rest)
  {
    PreOrderAppend([n], rest);
    PreOrderOne(n);
    assert PreOrder([n] + rest) == [] + PreOrder(rest) == PreOrder(rest);
  }

  /** An element followed by its siblings: the element, its descendants, then the siblings. */
  lemma PreOrderElementThenRest(e: Node, rest: seq<Node>)
    requires e.Element?
    ensures PreOrder([e] + rest) == [e] + PreOrder(e.children + rest)
  {
    PreOrderAppend([e], rest);
    PreOrderOne(e);
    PreOrderAppend(e.children, rest);
  }

  /** A title with only whitespace in its text does not stop the search: its own children come next, then its siblings. */
  lemma EmptyTitleSearchesOn(children: seq<Node>, rest: seq<Node>)
    requires AllWhitespace(DirectText(children))
    ensures TitleOf([Element(Some(TitleName), children)] + rest) == TitleOf(children + rest)
  {
    var e := Element(Some(TitleName), children);
    PreOrderElementThenRest(e, rest);
    FirstTitleAppend([e], PreOrder(children + rest));
  }

  /** An element that comes earlier in pre-order wins over the title inside a later sibling. */
  lemma FirstInPreOrderWins(e: Node, rest: seq<Node>)
    requires IsTitle(e)
    ensures TitleOf([e] + rest) == Some(TitleText(e))
  {
    PreOrderAppend([e], rest);
    PreOrderOne(e);
    assert PreOrder([e] + rest)[0] == e;
  }

  /**
   * `title ?? findSheetTitleText(children) ?? "Sheet dialog"`: a given title
   * wins even when it is empty; without one the accessible title is never empty.
   */
  function AccessibleTitle(title: Option<string>, children: seq<Node>): (r: string)
    ensures title.Some? ==> r == title.value
    ensures title.None? && TitleOf(children).Some? ==> r == TitleOf(children).value
    ensures title.None? && TitleOf(children).None? ==> r == DefaultTitle
    ensures title.None? ==> r != ""
  {
    if title.Some? then title.value
    else if TitleOf(children).Some? then TitleOf(children).value
    else DefaultTitle
  }

  // ---------------------------------------------------------------------------
  // Escape and the focus trap
  // ---------------------------------------------------------------------------

  /** An element of the page, by identity. */
  type ElementId = nat

  /** What a key press does: the element to focus, whether the default is prevented, the element clicked. */
  datatype KeyEffect = KeyEffect(focus: Option<ElementId>, preventDefault: bool, click: Option<ElementId>)

  const NoEffect := KeyEffect(None, false, None)

  predicate IsEscape(key: string) {
    key == "Escape" || key == "Esc"
  }

  /**
   * The document key handler. `focusables` are the visible focusable elements
   * of the sheet in document order, `active` the focused element, and
   * `closeButton` the sheet's close button if one is found.
   */
  function KeyDownEffect(key: string, shift: bool, focusables: seq<ElementId>,
                         active: Option<ElementId>, closeButton: Option<ElementId>): (r: KeyEffect)
    ensures r.focus.Some? ==> r.focus.value in focusables && r.preventDefault && r.click.None?
    ensures r.click.Some? ==> IsEscape(key)
  {
    if IsEscape(key) then KeyEffect(None, true, closeButton)
    else if key != "Tab" || focusables == [] then NoEffect
    else
      var first, last := focusables[0], focusables[|focusables| - 1];
      if shift && active == Some(first) then KeyEffect(Some(last), true, None)
      else if !shift && active == Some(last) then KeyEffect(Some(first), true, None)
      else NoEffect
  }

  /** Escape, spelled either way, prevents the default and clicks the close button, with no focus change. */
  lemma EscapeCloses(key: string, shift: bool, focusables: seq<ElementId>, active: Option<ElementId>, closeButton: Option<ElementId>)
    requires IsEscape(key)
    ensures KeyDownEffect(key, shift, focusables, active, closeButton) == KeyEffect(None, true, closeButton)
  {
  }

  /** Other keys, and Tab with nothing focusable, do nothing. */
  lemma OtherKeysIgnored(key: string, shift: bool, focusables: seq<ElementId>, active: Option<ElementId>, closeButton: Option<ElementId>)
    requires !IsEscape(key) && (key != "Tab" || focusables == [])
    ensures KeyDownEffect(key, shift, focusables, active, closeButton) == NoEffect
  {
  }

  /**
   * Tab wraps focus around the sheet: Shift+Tab on the first element focuses
   * the last and Tab on the last focuses the first; in every other Tab case
   * the browser's default is left alone.
   */
  lemma TabWraps(shift: bool, focusables: seq<ElementId>, active: Option<ElementId>, closeButton: Option<ElementId>)
    requires focusables != []
    ensures var r := KeyDownEffect("Tab", shift, focusables, active, closeButton);
      && (shift && active == Some(focusables[0]) ==> r == KeyEffect(Some(focusables[|focusables| - 1]), true, None))
      && (!shift && active == Some(focusables[|focusables| - 1]) ==> r == KeyEffect(Some(focusables[0]), true, None))
      && (r.preventDefault <==>
            (shift && active == Some(focusables[0])) || (!shift && active == Some(focusables[|focusables| - 1])))
  {
  }

  /** The page state the handler changes: the focused element, the default-prevented flag and the clicks made. */
  class Page {
    var activeElement: Option<ElementId>
    var defaultPrevented: bool
    var clicked: seq<ElementId>

    constructor (active: Option<ElementId>)
      ensures activeElement == active && !defaultPrevented && clicked == []
    {
      activeElement, defaultPrevented, clicked := active, false, [];
    }

    /** Applies the handler's effect for one key event. */
    method HandleKeyDown(key: string, shift: bool, focusables: seq<ElementId>, closeButton: Option<ElementId>)
      modifies this
      ensures var e := KeyDownEffect(key, shift, focusables, old(activeElement), closeButton);
        && activeElement == (if e.focus.Some? then e.focus else old(activeElement))
        && defaultPrevented == (old(defaultPrevented) || e.preventDefault)
        && clicked == old(clicked) + (if e.click.Some? then [e.click.value] else [])
    {
      if IsEscape(key) {
        defaultPrevented := true;
        if closeButton.Some? {
          clicked := clicked + [closeButton.value];
        }
        return;
      }
      if key != "Tab" {
        return;
      }
      if |focusables| == 0 {
        return;
      }
      var first, last := focusables[0], focusables[|focusables| - 1];
      if shift && activeElement == Some(first) {
        activeElement := Some(last);
        defaultPrevented := true;
      } else if !shift && activeElement == Some(last) {
        activeElement := Some(first);
        defaultPrevented := true;
      }
    }
  }

  // ---------------------------------------------------------------------------
  // Sides
  // ---------------------------------------------------------------------------

  datatype Side = Top | Right | Bottom | Left

  /** The side used when none is given. */
  const DefaultSide := Right

  /** The side of a sheet's content: the one given, else the right-hand side. */
  function ContentSide(given: Option<Side>): (side: Side)
    ensures given.Some? ==> side == given.value
    ensures given.None? ==> side == Right && SideName(side) == "right"
  {
    given.GetOr(DefaultSide)
  }

  function SideName(side: Side): string {
    match side
    case Top => "top"
    case Right => "right"
    case Bottom => "bottom"
    case Left => "left"
  }

  /** Where the panel sits for each side, and which border it draws. */
  function Placement(side: Side): string {
    match side
    case Right => "inset-y-0 right-0 h-full w-3/4 border-l sm:max-w-sm"
    case Left => "inset-y-0 left-0 h-full w-3/4 border-r sm:max-w-sm"
    case Top => "inset-x-0 top-0 h-auto border-b"
    case Bottom => "inset-x-0 bottom-0 h-auto border-t"
  }

  const SlideOutPrefix := "data-[state=closed]:slide-out-to-"

  /** The slide-animation and placement classes of each side. */
  function SideClasses(side: Side): (classes: string)
    ensures |SlideOutPrefix| < |classes|
    ensures classes[..|SlideOutPrefix|] == SlideOutPrefix && classes[|SlideOutPrefix|] == SideName(side)[0]
  {
    SlideOutPrefix + SideName(side) + " data-[state=open]:slide-in-from-" + SideName(side) + " " + Placement(side)
  }

  /** Each side has its own class string, so the four sides are told apart. */
  lemma SideClassesDistinct(a: Side, b: Side)
    requires a != b
    ensures SideClasses(a) != SideClasses(b)
  {
    // the side's name follows the shared prefix, and the four names start with different letters
    var n := |SlideOutPrefix|;
    assert SideClasses(a)[n] == SideName(a)[0];
    assert SideClasses(b)[n] == SideName(b)[0];
  }
}
