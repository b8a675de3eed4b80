/**
 * The transactions table: one row per transaction, coloured as outgoing or
 * incoming, with its signed amount, and category badges styled from a table
 * with a default entry.
 */
module TransactionsTable {
  /** A transaction as the table reads it; `amount` in cents, `txType` the aggregator's type string. */
  datatype Transaction = Transaction(
    id: string,
    accountId: string,
    name: string,
    amount: int,
    txType: string,
    date: string,
    paymentChannel: string,
    category: string)

  /** The colours of a category badge. */
  datatype BadgeStyle = BadgeStyle(borderColor: string, backgroundColor: string, textColor: string, chipBackgroundColor: string)

  /** The style table: an entry per known category, and the default entry. */
  datatype CategoryStyles = CategoryStyles(entries: map<string, BadgeStyle>, default: BadgeStyle)

  /** The style of a category's badge: its own entry if it has one, else the default. */
  function BadgeStyleOf(styles: CategoryStyles, category: string): (r: BadgeStyle)
    ensures category in styles.entries ==> r == styles.entries[category]
    ensures category !in styles.entries ==> r == styles.default
  {
    if category in styles.entries then styles.entries[category] else styles.default
  }

  /** The amount formatter and the name cleaner of the shared helpers, taken as given. */
  datatype Formatters = Formatters(formatAmount: int -> string, removeSpecialCharacters: string -> string, status: string -> string)

  predicate StartsWithMinus(s: string) {
    |s| > 0 && s[0] == '-'
  }

  /** A row is outgoing when the transaction is a debit or its formatted amount is negative. */
  predicate IsOutgoing(t: Transaction, formatted: string) {
    t.txType == "debit" || StartsWithMinus(formatted)
  }

  const OutgoingRow := "bg-[#FFFBFA]"
  const IncomingRow := "bg-[#F6FEF9]"
  const OutgoingAmount := "text-[#F04438]"
  const IncomingAmount := "text-[#039855]"

  /** The amount shown: a debit gets a minus in front of its formatted amount; credits and other types show it unchanged. */
  function DisplayedAmount(t: Transaction, formatted: string): (r: string)
    ensures t.txType == "debit" ==> r == "-" + formatted
    ensures t.txType != "debit" ==> r == formatted
  {
    if t.txType == "debit" then "-" + formatted
    else if t.txType == "credit" then formatted
    else formatted
  }

  datatype Row = Row(
    key: string,
    background: string,
    name: string,
    amountText: string,
    amountColour: string,
    status: string,
    statusBadge: BadgeStyle,
    channel: string,
    category: string,
    categoryBadge: BadgeStyle)

  /** One table row: the outgoing test colours both the row and the amount. */
  function RowOf(t: Transaction, f: Formatters, styles: CategoryStyles): (row: Row)
    ensures row.key == t.id && row.name == f.removeSpecialCharacters(t.name)
    ensures row.amountText == DisplayedAmount(t, f.formatAmount(t.amount))
    ensures row.background == (if IsOutgoing(t, f.formatAmount(t.amount)) then OutgoingRow else IncomingRow)
    ensures row.amountColour == (if IsOutgoing(t, f.formatAmount(t.amount)) then OutgoingAmount else IncomingAmount)
    ensures row.status == f.status(t.date) && row.statusBadge == BadgeStyleOf(styles, row.status)
    ensures row.channel == t.paymentChannel
    ensures row.category == t.category && row.categoryBadge == BadgeStyleOf(styles, t.category)
  {
    var formatted := f.formatAmount(t.amount);
    var outgoing := IsOutgoing(t, formatted);
    Row(t.id,
        if outgoing then OutgoingRow else IncomingRow,
        f.removeSpecialCharacters(t.name),
        DisplayedAmount(t, formatted),
        if outgoing then OutgoingAmount else IncomingAmount,
        f.status(t.date),
        BadgeStyleOf(styles, f.status(t.date)),
        t.paymentChannel,
        t.category,
        BadgeStyleOf(styles, t.category))
  }

  /** The table body: one row per transaction, in the given order. */
  function Rows(transactions: seq<Transaction>, f: Formatters, styles: CategoryStyles): (rows: seq<Row>)
    ensures |rows| == |transactions|
    ensures forall i :: 0 <= i < |rows| ==> rows[i] == RowOf(transactions[i], f, styles)
  {
    seq(|transactions|, i requires 0 <= i < |transactions| => RowOf(transactions[i], f, styles))
  }

  /**
   * The row background and the amount colour always agree, and a row is
   * coloured as outgoing exactly when its displayed amount starts with a minus.
   */
  lemma OutgoingColouring(t: Transaction, f: Formatters, styles: CategoryStyles)
    ensures var row := RowOf(t, f, styles);
      && (row.background == OutgoingRow <==> row.amountColour == OutgoingAmount)
      && (row.background == OutgoingRow <==> StartsWithMinus(row.amountText))
  {
    var formatted := f.formatAmount(t.amount);
    if t.txType == "debit" {
      assert ("-" + formatted)[0] == '-';
    }
  }

  /** A debit whose formatted amount is already negative is shown with two minus signs. */
  lemma DebitOfNegativeShowsTwoMinuses(t: Transaction, formatted: string)
    requires t.txType == "debit" && StartsWithMinus(formatted)
    ensures DisplayedAmount(t, formatted)[..2] == "--"
  {
  }

  /** Rows of a concatenation are the rows of the parts. */
  lemma RowsAppend(a: seq<Transaction>, b: seq<Transaction>, f: Formatters, styles: CategoryStyles)
    ensures Rows(a + b, f, styles) == Rows(a, f, styles) + Rows(b, f, styles)
  {
  }
}
