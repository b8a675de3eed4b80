/**
 * The bank-statement export route: the display helpers, the customer name,
 * the report assembled from the user's accounts and their transactions, the
 * HTML it is rendered to, and the response of the GET handler.
 */
module TransactionsPdf {
  import opened Wrappers
  import opened Seqs
  import opened Text

  // ---------------------------------------------------------------------------
  // Transaction names
  // ---------------------------------------------------------------------------

  /** The characters a transaction name keeps: ASCII letters, digits and the space. */
  predicate IsNameChar(c: char) {
    IsAsciiUpper(c) || IsAsciiLower(c) || IsAsciiDigit(c) || c == ' '
  }

  /** Strips every character outside `[A-Za-z0-9 ]`, keeping the rest in order. */
  function FormatTransactionName(name: string): (r: string)
    ensures forall i :: 0 <= i < |r| ==> IsNameChar(r[i])
    ensures |r| <= |name|
  {
    Filter(IsNameChar, name)
  }

  /** Formatting an already formatted name changes nothing. */
  lemma FormatTransactionNameIdempotent(name: string)
    ensures FormatTransactionName(FormatTransactionName(name)) == FormatTransactionName(name)
  {
    FilterIdempotent(IsNameChar, name);
  }

  /** A name made only of allowed characters is kept whole. */
  lemma FormatTransactionNameKeepsClean(name: string)
    requires forall i :: 0 <= i < |name| ==> IsNameChar(name[i])
    ensures FormatTransactionName(name) == name
  {
    FilterKeepsAll(IsNameChar, name);
  }

  /** Every occurrence of an allowed character is kept, every other character is dropped. */
  lemma FormatTransactionNameCount(name: string, c: char)
    ensures multiset(FormatTransactionName(name))[c] == if IsNameChar(c) then multiset(name)[c] else 0
  {
    FilterCount(IsNameChar, name, c);
  }

  /** The name is formatted piecewise, so the kept characters stay in their original order. */
  lemma FormatTransactionNameAppend(a: string, b: string)
    ensures FormatTransactionName(a + b) == FormatTransactionName(a) + FormatTransactionName(b)
  {
    FilterAppend(IsNameChar, a, b);
  }

  // ---------------------------------------------------------------------------
  // Categories
  // ---------------------------------------------------------------------------

  /** `.replace(/_/g, " ")` */
  function ReplaceUnderscores(s: string): (r: string)
    ensures |r| == |s|
    ensures forall i :: 0 <= i < |s| ==> r[i] == if s[i] == '_' then ' ' else s[i]
  {
    seq(|s|, i requires 0 <= i < |s| => if s[i] == '_' then ' ' else s[i])
  }

  /** `w.charAt(0).toUpperCase() + w.slice(1)` */
  function Capitalize(w: string): string {
    if w == [] then [] else [UpperChar(w[0])] + w[1..]
  }

  /** `words.map(capitalize)`, optionally leaving the first word as it is. */
  function CapitalizeWords(words: seq<string>, first: bool): (r: seq<string>)
    ensures |r| == |words|
  {
    seq(|words|, k requires 0 <= k < |words| => if k == 0 && !first then words[k] else Capitalize(words[k]))
  }

  /**
   * Category formatting: "N/A" for a missing or empty category, otherwise
   * underscores become spaces, everything is lower-cased, and each
   * space-separated word gets an upper-case first character.
   */
  function FormatCategory(category: Option<string>): (r: string)
    ensures !Truthy(category) ==> r == "N/A"
    ensures Truthy(category) ==> |r| == |category.value|
  {
    if !Truthy(category) then "N/A"
    else
      CapitalizeWordsPerChar(ToLower(ReplaceUnderscores(category.value)), true);
      JoinWithSpace(CapitalizeWords(SplitOnSpace(ToLower(ReplaceUnderscores(category.value))), true))
  }

  /** Position `i` of `t` begins a word: it is the first position (when `atStart`) or follows a space. */
  predicate StartsWord(t: string, i: int, atStart: bool)
    requires 0 <= i < |t|
  {
    (i == 0 && atStart) || (i > 0 && t[i - 1] == ' ')
  }

  /** Character by character: upper-cased where a word begins, unchanged elsewhere. */
  function CapitalizeAfterSpaces(t: string, atStart: bool): (r: string)
    ensures |r| == |t|
    ensures forall i :: 0 <= i < |t| ==> r[i] == if StartsWord(t, i, atStart) then UpperChar(t[i]) else t[i]
  {
    if t == [] then []
    else [if atStart then UpperChar(t[0]) else t[0]] + CapitalizeAfterSpaces(t[1..], t[0] == ' ')
  }

  /** A leading empty word stays empty, and every later word is capitalised. */
  lemma CapitalizeWordsEmptyFirst(rest: seq<string>, first: bool)
    ensures CapitalizeWords([[]] + rest, first) == [[]] + CapitalizeWords(rest, true)
  {
  }

  /** Capitalising a word that gained a first character `c`. */
  lemma CapitalizeWordsConsFirst(c: char, rest: seq<string>, first: bool)
    requires |rest| >= 1
    ensures var w := CapitalizeWords(rest, false);
      CapitalizeWords([[c] + rest[0]] + rest[1..], first)
        == [[if first then UpperChar(c) else c] + w[0]] + w[1..]
  {
  }

  /** A leading empty word joins as a leading space. */
  lemma JoinEmptyFirst(words: seq<string>)
    requires |words| >= 1
    ensures JoinWithSpace([[]] + words) == " " + JoinWithSpace(words)
  {
    assert ([[]] + words)[1..] == words;
  }

  /** Splitting, capitalising every word and joining is capitalising after every space. */
  lemma {:induction false} CapitalizeWordsPerChar(t: string, atStart: bool)
    ensures JoinWithSpace(CapitalizeWords(SplitOnSpace(t), atStart)) == CapitalizeAfterSpaces(t, atStart)
  {
    if t != [] {
      var rest := SplitOnSpace(t[1..]);
      if t[0] == ' ' {
        CapitalizeWordsPerChar(t[1..], true);
        CapitalizeWordsEmptyFirst(rest, atStart);
        JoinEmptyFirst(CapitalizeWords(rest, true));
      } else {
        CapitalizeWordsPerChar(t[1..], false);
        CapitalizeWordsConsFirst(t[0], rest, atStart);
        JoinConsFirst(if atStart then UpperChar(t[0]) else t[0], CapitalizeWords(rest, false));
      }
    }
  }

  /** The reference reading of a non-empty category: cased word by word over the lower-cased, underscore-free text. */
  function CategoryText(category: string): string {
    CapitalizeAfterSpaces(ToLower(ReplaceUnderscores(category)), true)
  }

  lemma FormatCategoryIsCategoryText(category: string)
    requires category != ""
    ensures FormatCategory(Some(category)) == CategoryText(category)
  {
    CapitalizeWordsPerChar(ToLower(ReplaceUnderscores(category)), true);
  }

  /** "N/A" is returned exactly when the category is missing or empty. */
  lemma FormatCategoryNotAvailable(category: Option<string>)
    ensures FormatCategory(category) == "N/A" <==> !Truthy(category)
  {
    if Truthy(category) {
      var c := category.value;
      FormatCategoryIsCategoryText(c);
      var t := ToLower(ReplaceUnderscores(c));
      var r := CategoryText(c);
      if |c| == 3 {
        if t[1] == ' ' {
          assert r[1] == ' ';
        } else {
          assert !IsAsciiUpper(r[2]);
        }
      }
    }
  }

  /**
   * For a present category: the same length as the input, spaces exactly where
   * the input had a space or an underscore, no underscore, an upper-case
   * character or a non-letter at each word start and no upper-case letter elsewhere.
   */
  lemma FormatCategoryShape(category: string)
    requires category != ""
    ensures var r := FormatCategory(Some(category));
      && |r| == |category|
      && '_' !in r
      && (forall i :: 0 <= i < |r| ==> (r[i] == ' ' <==> category[i] == ' ' || category[i] == '_'))
      && (forall i :: 0 <= i < |r| && (i == 0 || r[i - 1] == ' ') ==> !IsAsciiLower(r[i]))
      && (forall i :: 0 < i < |r| && r[i - 1] != ' ' ==> !IsAsciiUpper(r[i]))
  {
    FormatCategoryIsCategoryText(category);
    var t := ToLower(ReplaceUnderscores(category));
    var r := CategoryText(category);
    forall i | 0 <= i < |r| ensures r[i] != '_' {
    }
    assert '_' !in r;
  }

  /** Formatting a formatted present category changes nothing. */
  lemma FormatCategoryIdempotent(category: string)
    requires category != ""
    ensures FormatCategory(Some(FormatCategory(Some(category)))) == FormatCategory(Some(category))
  {
    FormatCategoryIsCategoryText(category);
    var t := ToLower(ReplaceUnderscores(category));
    var r := CategoryText(category);
    FormatCategoryIsCategoryText(r);
    var t2 := ToLower(ReplaceUnderscores(r));
    forall i | 0 <= i < |t| ensures t2[i] == t[i] {
      if StartsWord(t, i, true) {
        LowerUpper(t[i]);
      }
    }
    assert t2 == t;
  }

  /** The missing-category marker is not a fixed point: formatting it again gives "N/a". */
  lemma FormatCategoryOfNotAvailable()
    ensures FormatCategory(Some(FormatCategory(None))) == "N/a"
  {
    FormatCategoryIsCategoryText("N/A");
    var t := ToLower(ReplaceUnderscores("N/A"));
    assert t == "n/a";
  }

  // ---------------------------------------------------------------------------
  // Amounts, in integer cents
  // ---------------------------------------------------------------------------

  function DigitChar(d: nat): (c: char)
    requires d < 10
    ensures IsAsciiDigit(c)
  {
    ('0' as int + d) as char
  }

  predicate AllDigits(s: string) {
    forall i :: 0 <= i < |s| ==> IsAsciiDigit(s[i])
  }

  /** The number a string of decimal digits denotes. */
  function DecimalValue(s: string): nat
    requires AllDigits(s)
  {
    if s == [] then 0 else 10 * DecimalValue(s[..|s| - 1]) + (s[|s| - 1] as int - '0' as int)
  }

  /** The decimal numeral of `n`, without leading zeros. */
  function NatToDecimal(n: nat): (r: string)
    ensures |r| >= 1 && AllDigits(r)
    ensures DecimalValue(r) == n
    ensures r[0] == '0' ==> n == 0
  {
    if n < 10 then [DigitChar(n)]
    else
      var r := NatToDecimal(n / 10) + [DigitChar(n % 10)];
      assert r[..|r| - 1] == NatToDecimal(n / 10);
      r
  }

  /**
   * `"$" + (amount).toFixed(2)` for an amount of `cents` hundredths: a dollar
   * sign, a minus sign for negative amounts, the whole part and two decimals.
   */
  function FormatAmount(cents: int): (r: string)
    ensures |r| >= 5 && r[0] == '$'
  {
    var magnitude: nat := if cents < 0 then -cents else cents;
    "$" + (if cents < 0 then "-" else "") + NatToDecimal(magnitude / 100) + "."
      + [DigitChar(magnitude % 100 / 10), DigitChar(magnitude % 10)]
  }

  /** Reads back an amount in the format above, to the cent. */
  function ParseAmount(s: string): Option<int> {
    if |s| < 5 || s[0] != '$' then None
    else
      var negative := s[1] == '-';
      var body := if negative then s[2..] else s[1..];
      if |body| < 4 || body[|body| - 3] != '.' then None
      else
        var whole := body[..|body| - 3];
        var fraction := body[|body| - 2..];
        if !AllDigits(whole) || !AllDigits(fraction) then None
        else
          var v := DecimalValue(whole) * 100 + DecimalValue(fraction);
          Some(if negative then -v else v)
  }

  /** The two decimals of an amount of `m` cents denote `m % 100`. */
  lemma CentsDigits(m: nat)
    ensures var fraction := [DigitChar(m % 100 / 10), DigitChar(m % 10)];
      AllDigits(fraction) && DecimalValue(fraction) == m % 100
  {
    var fraction := [DigitChar(m % 100 / 10), DigitChar(m % 10)];
    assert fraction[..1] == [DigitChar(m % 100 / 10)];
    assert DecimalValue(fraction[..1]) == m % 100 / 10;
  }

  /** A whole part, a point and two decimals split back into their parts. */
  lemma SplitBody(whole: string, fraction: string)
    requires |whole| >= 1 && |fraction| == 2
    ensures var body := whole + "." + fraction;
      && |body| >= 4 && body[|body| - 3] == '.'
      && body[..|body| - 3] == whole && body[|body| - 2..] == fraction
  {
  }

  /** Every formatted amount reads back as the amount it was made from. */
  lemma FormatAmountRoundTrip(cents: int)
    ensures ParseAmount(FormatAmount(cents)) == Some(cents)
  {
    var magnitude: nat := if cents < 0 then -cents else cents;
    var whole := NatToDecimal(magnitude / 100);
    var fraction := [DigitChar(magnitude % 100 / 10), DigitChar(magnitude % 10)];
    var body := whole + "." + fraction;
    var r := FormatAmount(cents);
    CentsDigits(magnitude);
    SplitBody(whole, fraction);
    if cents < 0 {
      assert r == "$-" + body;
      assert r[2..] == body;
    } else {
      assert r == "$" + body;
      assert r[1..] == body && r[1] == whole[0];
    }
  }

  /** The sign shows exactly for negative amounts, and there are always two decimals. */
  lemma FormatAmountSign(cents: int)
    ensures var r := FormatAmount(cents);
      && (r[1] == '-' <==> cents < 0)
      && r[|r| - 3] == '.' && IsAsciiDigit(r[|r| - 2]) && IsAsciiDigit(r[|r| - 1])
  {
    var magnitude: nat := if cents < 0 then -cents else cents;
    var whole := NatToDecimal(magnitude / 100);
    assert IsAsciiDigit(whole[0]);
  }

  // ---------------------------------------------------------------------------
  // The report
  // ---------------------------------------------------------------------------

  datatype User = User(id: string, firstName: Option<string>, lastName: Option<string>)

  /** An entry of the user's account list; only the key used to fetch its details matters here. */
  datatype AccountRef = AccountRef(appwriteItemId: string)

  datatype Transaction = Transaction(
    name: string,
    amount: int,
    pending: bool,
    date: string,
    paymentChannel: Option<string>,
    channel: Option<string>,
    category: Option<string>)

  datatype AccountData = AccountData(name: string, officialName: string, mask: string, currentBalance: int)

  datatype AccountDetails = AccountDetails(data: AccountData, transactions: seq<Transaction>)

  datatype ReportRow = ReportRow(name: string, amount: string, status: string, date: string, channel: string, category: string)

  datatype AccountSection = AccountSection(name: string, officialName: string, mask: string, balance: string, rows: seq<ReportRow>)

  datatype Report = Report(customerName: string, downloadDate: string, sections: seq<AccountSection>)

  /**
   * First and last name (a missing part counts as "") joined by a space and
   * trimmed; "N/A" when nothing is left.
   */
  function CustomerName(user: User): (r: string)
    ensures r != "" && IsTrimmed(r)
    ensures r == "N/A" || r == Trim(OrElse(user.firstName, "") + " " + OrElse(user.lastName, ""))
  {
    var joined := Trim(OrElse(user.firstName, "") + " " + OrElse(user.lastName, ""));
    TrimProperties(OrElse(user.firstName, "") + " " + OrElse(user.lastName, ""));
    if joined == "" then "N/A" else joined
  }

  /** The name is "N/A" when both parts are missing or blank, and otherwise trimmed and non-empty. */
  lemma CustomerNameFallback(user: User)
    ensures var first := OrElse(user.firstName, ""); var last := OrElse(user.lastName, "");
      && (CustomerName(user) == "N/A" <==>
            ((forall i :: 0 <= i < |first| ==> IsJsWhitespace(first[i])) && (forall i :: 0 <= i < |last| ==> IsJsWhitespace(last[i])))
            || Trim(first + " " + last) == "N/A")
      && IsTrimmed(CustomerName(user)) && CustomerName(user) != ""
  {
    var first := OrElse(user.firstName, "");
    var last := OrElse(user.lastName, "");
    var s := first + " " + last;
    TrimProperties(s);
    assert forall i :: 0 <= i < |first| ==> s[i] == first[i];
    assert s[|first| + 1..] == last;
    if forall i :: 0 <= i < |s| ==> IsJsWhitespace(s[i]) {
      assert forall i :: 0 <= i < |first| ==> IsJsWhitespace(s[i]);
      assert forall i :: |first| < i < |s| ==> IsJsWhitespace(s[i]);
    }
    if (forall i :: 0 <= i < |first| ==> IsJsWhitespace(first[i])) && (forall i :: 0 <= i < |last| ==> IsJsWhitespace(last[i])) {
      forall i | 0 <= i < |s| ensures IsJsWhitespace(s[i]) {
        if i < |first| {
          assert s[i] == first[i];
        } else if i > |first| {
          assert s[i] == last[i - |first| - 1];
        }
      }
    }
  }

  /** With both names present and trimmed, the customer name is "first last". */
  lemma CustomerNameFull(user: User)
    requires Truthy(user.firstName) && Truthy(user.lastName)
    requires IsTrimmed(user.firstName.value) && IsTrimmed(user.lastName.value)
    ensures CustomerName(user) == user.firstName.value + " " + user.lastName.value
  {
    var s := user.firstName.value + " " + user.lastName.value;
    assert s[0] == user.firstName.value[0];
    assert s[|s| - 1] == user.lastName.value[|user.lastName.value| - 1];
    TrimTrimmed(s);
  }

  /** With only a trimmed first name, the customer name is that name. */
  lemma CustomerNameFirstOnly(user: User)
    requires Truthy(user.firstName) && !Truthy(user.lastName)
    requires IsTrimmed(user.firstName.value)
    ensures CustomerName(user) == user.firstName.value
  {
    var f := user.firstName.value;
    var s := f + " " + "";
    assert TrimStart(s) == s;
    assert s[..|s| - 1] == f;
    assert TrimEnd(s) == TrimEnd(f);
    assert TrimEnd(f) == f;
  }

  function StatusLabel(pending: bool): string {
    if pending then "Pending" else "Completed"
  }

  /** `tx.paymentChannel || tx.channel || "N/A"` */
  function ChannelLabel(tx: Transaction): string {
    OrElse(tx.paymentChannel, OrElse(tx.channel, "N/A"))
  }

  /** The cells of one table row. */
  function Row(tx: Transaction, formatDate: string -> string): (row: ReportRow)
    ensures row.name == FormatTransactionName(tx.name)
    ensures ParseAmount(row.amount) == Some(tx.amount)
    ensures row.status == "Pending" <==> tx.pending
    ensures row.status == "Completed" <==> !tx.pending
    ensures row.date == formatDate(tx.date)
    ensures row.channel == if Truthy(tx.paymentChannel) then tx.paymentChannel.value
                           else if Truthy(tx.channel) then tx.channel.value else "N/A"
    ensures row.category == FormatCategory(tx.category)
  {
    FormatAmountRoundTrip(tx.amount);
    ReportRow(FormatTransactionName(tx.name), FormatAmount(tx.amount), StatusLabel(tx.pending),
              formatDate(tx.date), ChannelLabel(tx), FormatCategory(tx.category))
  }

  /** The summary and table of one account. */
  function Section(acc: AccountDetails, formatDate: string -> string): (section: AccountSection)
    ensures section.name == acc.data.name && section.officialName == acc.data.officialName && section.mask == acc.data.mask
    ensures ParseAmount(section.balance) == Some(acc.data.currentBalance)
    ensures |section.rows| == |acc.transactions|
    ensures forall j :: 0 <= j < |acc.transactions| ==> section.rows[j] == Row(acc.transactions[j], formatDate)
  {
    FormatAmountRoundTrip(acc.data.currentBalance);
    AccountSection(acc.data.name, acc.data.officialName, acc.data.mask, FormatAmount(acc.data.currentBalance),
                   seq(|acc.transactions|, j requires 0 <= j < |acc.transactions| => Row(acc.transactions[j], formatDate)))
  }

  /** The report of a user's accounts, one section per account in the order they were fetched. */
  function BuildReport(user: User, accounts: seq<AccountDetails>, downloadDate: string, formatDate: string -> string): (report: Report)
    ensures report.customerName == CustomerName(user) && report.downloadDate == downloadDate
    ensures |report.sections| == |accounts|
    ensures forall i :: 0 <= i < |accounts| ==> report.sections[i] == Section(accounts[i], formatDate)
  {
    Report(CustomerName(user), downloadDate,
           seq(|accounts|, i requires 0 <= i < |accounts| => Section(accounts[i], formatDate)))
  }

  /**
   * One section per account and one row per transaction, both in order; each row
   * is "Pending" exactly for pending transactions, falls back from payment
   * channel to channel to "N/A", and shows a dollar amount.
   */
  lemma ReportStructure(user: User, accounts: seq<AccountDetails>, downloadDate: string, formatDate: string -> string)
    ensures var r := BuildReport(user, accounts, downloadDate, formatDate);
      && r.customerName == CustomerName(user) && r.downloadDate == downloadDate
      && |r.sections| == |accounts|
      && forall i :: 0 <= i < |accounts| ==>
           var s := r.sections[i];
           var txs := accounts[i].transactions;
           && s.name == accounts[i].data.name
           && s.officialName == accounts[i].data.officialName
           && s.mask == accounts[i].data.mask
           && ParseAmount(s.balance) == Some(accounts[i].data.currentBalance)
           && |s.rows| == |txs|
           && forall j :: 0 <= j < |txs| ==>
                && s.rows[j].name == FormatTransactionName(txs[j].name)
                && ParseAmount(s.rows[j].amount) == Some(txs[j].amount)
                && (s.rows[j].status == "Pending" <==> txs[j].pending)
                && (s.rows[j].status == "Completed" <==> !txs[j].pending)
                && s.rows[j].date == formatDate(txs[j].date)
                && s.rows[j].channel == (if Truthy(txs[j].paymentChannel) then txs[j].paymentChannel.value
                                         else if Truthy(txs[j].channel) then txs[j].channel.value else "N/A")
                && s.rows[j].category == FormatCategory(txs[j].category)
  {
  }

  // ---------------------------------------------------------------------------
  // HTML
  // ---------------------------------------------------------------------------

  /** The fixed head and style sheet of the document, and its closing tags. */
  const DocumentHead := "<html><head><style>...</style></head><body>"
  const DocumentTail := "</body></html>"

  function RenderRow(row: ReportRow): string {
    "<tr><td>" + row.name + "</td><td>" + row.amount + "</td><td>" + row.status + "</td><td>" + row.date
      + "</td><td>" + row.channel + "</td><td>" + row.category + "</td></tr>"
  }

  function RenderRows(rows: seq<ReportRow>): string {
    Concat(seq(|rows|, j requires 0 <= j < |rows| => RenderRow(rows[j])))
  }

  function RenderSection(s: AccountSection): string {
    "<div class=\"account-section\"><div class=\"account-summary\"><h2>" + s.name
      + "</h2><p><strong>Official Name:</strong> " + s.officialName
      + "</p><p><strong>Mask:</strong> " + s.mask
      + "</p><p><strong>Balance:</strong> " + s.balance
      + "</p></div><table><thead><tr><th>Transaction</th><th>Amount</th><th>Status</th><th>Date</th><th>Channel</th><th>Category</th></tr></thead><tbody>"
      + RenderRows(s.rows) + "</tbody></table></div>"
  }

  function RenderSections(sections: seq<AccountSection>): string {
    Concat(seq(|sections|, i requires 0 <= i < |sections| => RenderSection(sections[i])))
  }

  function RenderHeader(r: Report): string {
    "<div class=\"report-header\"><h1>Bank Statement</h1><p><strong>Customer Name:</strong> " + r.customerName
      + "</p><p><strong>Downloaded on:</strong> " + r.downloadDate + "</p></div>"
  }

  /** The document handed to the PDF renderer. */
  function RenderReport(r: Report): (html: string)
    ensures |html| >= |DocumentHead| + |DocumentTail|
    ensures html[..|DocumentHead|] == DocumentHead
    ensures html[|html| - |DocumentTail|..] == DocumentTail
  {
    DocumentHead + RenderHeader(r) + RenderSections(r.sections) + DocumentTail
  }

  /** The sections' markup is their own markup one after another, so the HTML keeps the section order. */
  lemma RenderSectionsAppend(a: seq<AccountSection>, b: seq<AccountSection>)
    ensures RenderSections(a + b) == RenderSections(a) + RenderSections(b)
  {
    var pa := seq(|a|, i requires 0 <= i < |a| => RenderSection(a[i]));
    var pb := seq(|b|, i requires 0 <= i < |b| => RenderSection(b[i]));
    assert seq(|a + b|, i requires 0 <= i < |a + b| => RenderSection((a + b)[i])) == pa + pb;
    ConcatAppend(pa, pb);
  }

  /** The rows' markup is their own markup one after another, so the table keeps the row order. */
  lemma RenderRowsAppend(a: seq<ReportRow>, b: seq<ReportRow>)
    ensures RenderRows(a + b) == RenderRows(a) + RenderRows(b)
  {
    var pa := seq(|a|, j requires 0 <= j < |a| => RenderRow(a[j]));
    var pb := seq(|b|, j requires 0 <= j < |b| => RenderRow(b[j]));
    assert seq(|a + b|, j requires 0 <= j < |a + b| => RenderRow((a + b)[j])) == pa + pb;
    ConcatAppend(pa, pb);
  }

  /** Two rows render as the first row's markup followed by the second's. */
  lemma RenderTwoRows(first: ReportRow, second: ReportRow)
    ensures RenderRows([first, second]) == RenderRow(first) + RenderRow(second)
  {
    assert [first, second] == [first] + [second];
    RenderRowsAppend([first], [second]);
    assert RenderRows([first]) == RenderRow(first) by {
      assert seq(1, j requires 0 <= j < 1 => RenderRow([first][j])) == [RenderRow(first)];
      assert Concat([RenderRow(first)]) == RenderRow(first) + Concat([RenderRow(first)][1..]);
    }
    assert RenderRows([second]) == RenderRow(second) by {
      assert seq(1, j requires 0 <= j < 1 => RenderRow([second][j])) == [RenderRow(second)];
      assert Concat([RenderRow(second)]) == RenderRow(second) + Concat([RenderRow(second)][1..]);
    }
  }

  /** A report without sections renders as the header alone between the fixed head and tail. */
  lemma RenderWithoutSections(r: Report)
    requires r.sections == []
    ensures RenderReport(r) == DocumentHead + RenderHeader(r) + DocumentTail
  {
    assert RenderSections(r.sections) == [];
  }

  /** A user with no accounts gets a header-only document, not an error. */
  lemma NoAccountsNoSections(user: User, downloadDate: string, formatDate: string -> string)
    ensures var r := BuildReport(user, [], downloadDate, formatDate);
      r.sections == [] && RenderReport(r) == DocumentHead + RenderHeader(r) + DocumentTail
  {
    RenderWithoutSections(BuildReport(user, [], downloadDate, formatDate));
  }

  /** One account with a pending and a completed transaction gives two rows, "Pending" then "Completed". */
  lemma PendingThenCompleted(user: User, data: AccountData, t1: Transaction, t2: Transaction, downloadDate: string, formatDate: string -> string)
    requires t1.pending && !t2.pending
    ensures var s := BuildReport(user, [AccountDetails(data, [t1, t2])], downloadDate, formatDate).sections;
      && |s| == 1 && |s[0].rows| == 2
      && s[0].rows[0].status == "Pending" && s[0].rows[1].status == "Completed"
  {
  }

  // ---------------------------------------------------------------------------
  // The GET handler
  // ---------------------------------------------------------------------------

  datatype Response =
    | PdfAttachment(contentType: string, disposition: string, body: seq<bv8>)
    | JsonError(status: int, error: string)

  const PdfContentType := "application/pdf"
  const PdfDisposition := "attachment; filename=Bank-Statement.pdf"

  /** The message the runtime gives when `user.$id` is read from a null user. */
  const NullUserMessage := "Cannot read properties of null (reading '$id')"

  /**
   * The export handler. `user` is what the session lookup returned, `getAccounts`,
   * `getAccount` and `renderPdf` stand for the account service and the headless
   * browser, `now` for the clock and `formatDate` for the locale date format.
   * Every failure, including a missing user, becomes a 500 with the error's message.
   */
  function Get(user: Option<User>,
               getAccounts: string -> Result<seq<AccountRef>, string>,
               getAccount: AccountRef -> Result<AccountDetails, string>,
               now: string, formatDate: string -> string,
               renderPdf: string -> Result<seq<bv8>, string>): (r: Response)
    ensures user.None? ==> r == JsonError(500, NullUserMessage)
    ensures r.JsonError? ==> r.status == 500
    ensures r.PdfAttachment? ==> r.contentType == PdfContentType && r.disposition == PdfDisposition
  {
    if user.None? then JsonError(500, NullUserMessage)
    else match getAccounts(user.value.id)
      case Failure(e) => JsonError(500, e)
      case Success(refs) =>
        match AllSucceed(getAccount, refs)
        case Failure(e) => JsonError(500, e)
        case Success(details) =>
          var html := RenderReport(BuildReport(user.value, details, formatDate(now), formatDate));
          match renderPdf(html)
          case Failure(e) => JsonError(500, e)
          case Success(pdf) => PdfAttachment(PdfContentType, PdfDisposition, pdf)
  }

  /**
   * Without a signed-in user the handler answers 500, not an unauthenticated
   * result. Every failing step answers 500 with that step's own message (for the
   * account fetches, the first failing one in list order); when every step
   * succeeds the answer is the attachment holding the PDF rendered from the
   * report of the fetched accounts, in the order the account list gave them.
   */
  lemma GetOutcome(user: Option<User>,
                   getAccounts: string -> Result<seq<AccountRef>, string>,
                   getAccount: AccountRef -> Result<AccountDetails, string>,
                   now: string, formatDate: string -> string,
                   renderPdf: string -> Result<seq<bv8>, string>)
    ensures var r := Get(user, getAccounts, getAccount, now, formatDate, renderPdf);
      && (user.None? ==> r == JsonError(500, NullUserMessage))
      && (user.Some? && getAccounts(user.value.id).Failure? ==> r == JsonError(500, getAccounts(user.value.id).error))
    ensures user.Some? && getAccounts(user.value.id).Success? ==>
      var r := Get(user, getAccounts, getAccount, now, formatDate, renderPdf);
      var refs := getAccounts(user.value.id).value;
      (exists i :: 0 <= i < |refs| && getAccount(refs[i]).Failure?) ==>
        exists k :: 0 <= k < |refs| && getAccount(refs[k]).Failure? && r == JsonError(500, getAccount(refs[k]).error)
                    && forall j :: 0 <= j < k ==> getAccount(refs[j]).Success?
    ensures user.Some? && getAccounts(user.value.id).Success? ==>
      var r := Get(user, getAccounts, getAccount, now, formatDate, renderPdf);
      var refs := getAccounts(user.value.id).value;
      (forall i :: 0 <= i < |refs| ==> getAccount(refs[i]).Success?) ==>
        var html := RenderReport(BuildReport(user.value, AllSucceed(getAccount, refs).value, formatDate(now), formatDate));
        && (renderPdf(html).Failure? ==> r == JsonError(500, renderPdf(html).error))
        && (renderPdf(html).Success? ==> r == PdfAttachment(PdfContentType, PdfDisposition, renderPdf(html).value))
  {
    if user.Some? && getAccounts(user.value.id).Success? {
      var refs := getAccounts(user.value.id).value;
      var details := AllSucceed(getAccount, refs);
      var r := Get(user, getAccounts, getAccount, now, formatDate, renderPdf);
      if details.Failure? {
        assert r == JsonError(500, details.error);
      } else {
        var html := RenderReport(BuildReport(user.value, details.value, formatDate(now), formatDate));
        assert renderPdf(html).Failure? ==> r == JsonError(500, renderPdf(html).error);
      }
    }
  }

}
