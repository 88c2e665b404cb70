/** The user's wallet page: the totals and balance derived from the
    transactions, the top-up guard and the CSV export with quoted fields. */
module UserWallet {
  import opened Wrappers
  import opened Text
  import opened Seqs
  import opened Entities

  /** Every transaction of the list carries an amount. */
  predicate AllPresent(txs: seq<Transaction>)
    decreases |txs|
  {
    txs == [] || (txs[0].amount.Some? && AllPresent(txs[1..]))
  }

  /** `reduce((s, t) => s + t.amount, 0)`: a missing amount makes the total
      NaN, which is None here. */
  function SumAmounts(txs: seq<Transaction>): (r: Option<int>)
    ensures r.Some? <==> AllPresent(txs)
    ensures r.Some? ==> r.value == Sum(TxAmount, txs)
    decreases |txs|
  {
    if txs == [] then Some(0)
    else
      var rest := SumAmounts(txs[1..]);
      if txs[0].amount.Some? && rest.Some? then Some(txs[0].amount.value + rest.value) else None
  }

  /** `AllPresent` says what it means: no amount is missing. */
  lemma {:induction false} AllPresentMeans(txs: seq<Transaction>)
    ensures AllPresent(txs) <==> forall i :: 0 <= i < |txs| ==> txs[i].amount.Some?
    decreases |txs|
  {
    if txs != [] {
      AllPresentMeans(txs[1..]);
      assert forall i :: 1 <= i < |txs| ==> txs[i] == txs[1..][i - 1];
    }
  }

  /** `totalAdded`: the sum of the 'topup' amounts. */
  function TotalAdded(txs: seq<Transaction>): (r: Option<int>)
    ensures AllPresent(txs) ==> r.Some?
    ensures (forall i :: 0 <= i < |txs| ==> !IsTopup(txs[i])) ==> r == Some(0)
  {
    FilterExtremes(IsTopup, txs);
    FilterPresent(IsTopup, txs);
    SumAmounts(Filter(IsTopup, txs))
  }

  /** `totalSpent`: the sum of the 'bid' amounts. */
  function TotalSpent(txs: seq<Transaction>): (r: Option<int>)
    ensures AllPresent(txs) ==> r.Some?
    ensures (forall i :: 0 <= i < |txs| ==> !IsBidDebit(txs[i])) ==> r == Some(0)
  {
    FilterExtremes(IsBidDebit, txs);
    FilterPresent(IsBidDebit, txs);
    SumAmounts(Filter(IsBidDebit, txs))
  }

  /** `derivedBalance = totalAdded - totalSpent` (NaN when either is). With
      every amount present it is the running sum of the signed amounts:
      top-ups in, bids out, nothing else. */
  function DerivedBalance(txs: seq<Transaction>): (r: Option<int>)
    ensures AllPresent(txs) ==> r == Some(Sum(SignedAmount, txs))
  {
    var added := TotalAdded(txs);
    var spent := TotalSpent(txs);
    SplitWhenPresent(txs);
    if added.Some? && spent.Some? then Some(added.value - spent.value) else None
  }

  /** What one transaction does to the balance: a top-up adds, a bid takes
      away, any other kind counts in neither total. */
  function SignedAmount(t: Transaction): int
  {
    if IsTopup(t) then TxAmount(t) else if IsBidDebit(t) then -TxAmount(t) else 0
  }

  lemma {:induction false} SignedSplit(txs: seq<Transaction>)
    ensures Sum(TxAmount, Filter(IsTopup, txs)) - Sum(TxAmount, Filter(IsBidDebit, txs)) == Sum(SignedAmount, txs)
    decreases |txs|
  {
    if txs != [] {
      SignedSplit(txs[1..]);
    }
  }

  /** Filtering keeps every amount present. */
  lemma {:induction false} FilterPresent(p: Transaction -> bool, txs: seq<Transaction>)
    ensures AllPresent(txs) ==> AllPresent(Filter(p, txs))
    decreases |txs|
  {
    if txs != [] {
      FilterPresent(p, txs[1..]);
    }
  }

  /** With every amount present, the two totals differ by the signed sum. */
  lemma SplitWhenPresent(txs: seq<Transaction>)
    ensures AllPresent(txs) ==> TotalAdded(txs).Some? && TotalSpent(txs).Some?
    ensures AllPresent(txs) ==> TotalAdded(txs).value - TotalSpent(txs).value == Sum(SignedAmount, txs)
  {
    SignedSplit(txs);
  }

  /** `balanceFromAPI ?? derivedBalance`. */
  function CurrentBalance(balanceFromApi: Option<int>, txs: seq<Transaction>): (r: Option<int>)
    ensures balanceFromApi.Some? ==> r == balanceFromApi
    ensures balanceFromApi.None? ==> r == DerivedBalance(txs)
  {
    if balanceFromApi.Some? then balanceFromApi else DerivedBalance(txs)
  }

  /** `doTopup`'s guard on the parsed amount (None for NaN). */
  predicate TopupAccepted(parsed: Option<int>)
  {
    !(parsed.None? || parsed.value < 10 || parsed.value > 100000)
  }

  /** The accepted amounts are exactly 10 through 100000, both bounds included. */
  lemma TopupRange(parsed: Option<int>)
    ensures TopupAccepted(parsed) <==> parsed.Some? && 10 <= parsed.value <= 100000
    ensures TopupAccepted(Some(10)) && TopupAccepted(Some(100000))
    ensures !TopupAccepted(Some(9)) && !TopupAccepted(Some(100001))
  {
  }

  /** `String(v).replace(/"/g, '""')`: every quote doubled. */
  function Escape(v: string): (r: string)
    ensures |r| >= |v|
    decreases |v|
  {
    if v == [] then []
    else (if v[0] == '"' then "\"\"" else [v[0]]) + Escape(v[1..])
  }

  /** Escaping neither adds nor drops any character other than the quote. */
  lemma {:induction false} EscapeKeepsChars(v: string, c: char)
    requires c != '"'
    ensures c in Escape(v) <==> c in v
    decreases |v|
  {
    if v != [] {
      EscapeKeepsChars(v[1..], c);
      var head := if v[0] == '"' then "\"\"" else [v[0]];
      assert Escape(v) == head + Escape(v[1..]);
      assert v == [v[0]] + v[1..];
      assert c in head <==> c == v[0];
    }
  }

  /** A field as exported: the escaped value between quotes. */
  function Quote(v: string): (r: string)
    ensures |r| >= |v| + 2 && r[0] == '"' && r[|r| - 1] == '"'
  {
    "\"" + Escape(v) + "\""
  }

  /** One exported line: the quoted values joined by commas. */
  function CsvRow(values: seq<string>): string
  {
    Join(Map(Quote, values), ',')
  }

  /** One object as `Object.entries` gives it, its values already `String(v)`. */
  type Record = seq<(string, string)>

  function Keys(r: Record): seq<string>
  {
    Map((kv: (string, string)) => kv.0, r)
  }

  function Values(r: Record): seq<string>
  {
    Map((kv: (string, string)) => kv.1, r)
  }

  /** `downloadCSV`'s text: None when there is nothing to export ("No
      transactions to export"); otherwise the first record's keys as the
      header line, then one line per record. */
  function Csv(records: seq<Record>): (r: Option<string>)
    ensures r.None? <==> records == []
  {
    if records == [] then None
    else Some(Join([Join(Keys(records[0]), ',')] + Map((rec: Record) => CsvRow(Values(rec)), records), '\n'))
  }

  /** Reads the inside of a quoted field up to its closing quote, turning each
      doubled quote back into one; gives the value and what follows. */
  function ReadBody(s: string): (r: Option<(string, string)>)
    ensures r.Some? ==> |r.value.1| < |s|
    decreases |s|
  {
    if s == [] then None
    else if s[0] == '"' then
      if |s| >= 2 && s[1] == '"' then
        match ReadBody(s[2..])
        case None => None
        case Some((v, rest)) => Some(("\"" + v, rest))
      else Some(("", s[1..]))
    else
      match ReadBody(s[1..])
      case None => None
      case Some((v, rest)) => Some(([s[0]] + v, rest))
  }

  /** Reads one quoted field. */
  function ReadField(s: string): (r: Option<(string, string)>)
    ensures r.Some? ==> |r.value.1| < |s|
  {
    if s != [] && s[0] == '"' then ReadBody(s[1..]) else None
  }

  /** Reads comma-separated quoted fields up to the end of the line. */
  function ParseFields(s: string): Option<seq<string>>
    decreases |s|
  {
    match ReadField(s)
    case None => None
    case Some((v, rest)) =>
      if rest == [] then Some([v])
      else if rest[0] == ',' then
        match ParseFields(rest[1..])
        case None => None
        case Some(vs) => Some([v] + vs)
      else None
  }

  /** Reads an exported line back into its values. */
  function ParseRow(line: string): Option<seq<string>>
  {
    if line == [] then Some([]) else ParseFields(line)
  }

  /** `ReadBody` on a doubled quote: one quote of the value, then the rest. */
  lemma ReadBodyDoubled(t: string)
    ensures ReadBody("\"\"" + t) == match ReadBody(t) case None => None case Some((v, rest)) => Some(("\"" + v, rest))
  {
    var s := "\"\"" + t;
    assert s[0] == '"' && s[1] == '"' && s[2..] == t;
  }

  /** `ReadBody` on any other character: that character of the value, then the rest. */
  lemma ReadBodyPlain(c: char, t: string)
    requires c != '"'
    ensures ReadBody([c] + t) == match ReadBody(t) case None => None case Some((v, rest)) => Some(([c] + v, rest))
  {
    var s := [c] + t;
    assert s[0] == c && s[1..] == t;
  }

  /** One more character of the value: if the tail reads back, so does the whole. */
  lemma ReadEscapedStep(v: string, rest: string)
    requires v != []
    requires ReadBody(Escape(v[1..]) + "\"" + rest) == Some((v[1..], rest))
    ensures ReadBody(Escape(v) + "\"" + rest) == Some((v, rest))
  {
    var t := Escape(v[1..]) + "\"" + rest;
    assert [v[0]] + v[1..] == v;
    if v[0] == '"' {
      assert Escape(v) + "\"" + rest == "\"\"" + t by {
        assert Escape(v) == "\"\"" + Escape(v[1..]);
      }
      ReadBodyDoubled(t);
    } else {
      assert Escape(v) + "\"" + rest == [v[0]] + t by {
        assert Escape(v) == [v[0]] + Escape(v[1..]);
      }
      ReadBodyPlain(v[0], t);
    }
  }

  /** Reading an escaped value followed by its closing quote gives the value back. */
  lemma {:induction false} ReadEscaped(v: string, rest: string)
    requires rest == [] || rest[0] != '"'
    ensures ReadBody(Escape(v) + "\"" + rest) == Some((v, rest))
    decreases |v|
  {
    if v == [] {
      var s := Escape(v) + "\"" + rest;
      assert s[0] == '"' && s[1..] == rest by {
        assert s == "\"" + rest;
      }
    } else {
      ReadEscaped(v[1..], rest);
      ReadEscapedStep(v, rest);
    }
  }

  /** A quoted field is read back as its value, whatever quotes or commas it holds. */
  lemma QuoteRoundTrip(v: string, rest: string)
    requires rest == [] || rest[0] != '"'
    ensures ReadField(Quote(v) + rest) == Some((v, rest))
  {
    ReadEscaped(v, rest);
    assert (Quote(v) + rest)[1..] == Escape(v) + "\"" + rest;
  }

  lemma {:induction false} ParseFieldsJoin(values: seq<string>)
    requires |values| >= 1
    ensures ParseFields(Join(Map(Quote, values), ',')) == Some(values)
    decreases |values|
  {
    var quoted := Map(Quote, values);
    if |values| == 1 {
      QuoteRoundTrip(values[0], "");
      assert Quote(values[0]) + "" == Quote(values[0]);
      assert Join(quoted, ',') == Quote(values[0]);
      assert values == [values[0]];
    } else {
      var tail := Join(Map(Quote, values[1..]), ',');
      assert quoted[1..] == Map(Quote, values[1..]);
      assert Join(quoted, ',') == Quote(values[0]) + ("," + tail);
      QuoteRoundTrip(values[0], "," + tail);
      assert ("," + tail)[1..] == tail;
      ParseFieldsJoin(values[1..]);
      assert [values[0]] + values[1..] == values;
    }
  }

  /** Every exported line reads back as the record's values: quoting keeps
      commas and quotes inside a value from breaking the line apart. */
  lemma RowRoundTrip(values: seq<string>)
    ensures ParseRow(CsvRow(values)) == Some(values)
  {
    if |values| >= 1 {
      ParseFieldsJoin(values);
      assert CsvRow(values)[0] == '"';
    }
  }

  lemma RowHasNoNewline(values: seq<string>)
    requires forall i :: 0 <= i < |values| ==> '\n' !in values[i]
    ensures '\n' !in CsvRow(values)
  {
    var quoted := Map(Quote, values);
    forall i | 0 <= i < |quoted|
      ensures '\n' !in quoted[i]
    {
      EscapeKeepsChars(values[i], '\n');
      assert quoted[i] == "\"" + Escape(values[i]) + "\"";
    }
    JoinExcludes(quoted, ',', '\n');
  }

  /** When no key or value holds a line break, the export has one line more
      than there are records: the header, then each record's line in order,
      each of which reads back as that record's values. */
  lemma CsvLines(records: seq<Record>)
    requires records != []
    requires forall i :: 0 <= i < |records[0]| ==> '\n' !in records[0][i].0
    requires forall j, i :: 0 <= j < |records| && 0 <= i < |records[j]| ==> '\n' !in records[j][i].1
    ensures var lines := Split(Csv(records).value, '\n');
      && |lines| == |records| + 1
      && lines[0] == Join(Keys(records[0]), ',')
      && forall j :: 0 <= j < |records| ==> ParseRow(lines[j + 1]) == Some(Values(records[j]))
  {
    var header := Join(Keys(records[0]), ',');
    var rows := Map((rec: Record) => CsvRow(Values(rec)), records);
    var lines := [header] + rows;
    JoinExcludes(Keys(records[0]), ',', '\n');
    forall j | 0 <= j < |records|
      ensures '\n' !in rows[j] && ParseRow(rows[j]) == Some(Values(records[j]))
    {
      RowHasNoNewline(Values(records[j]));
      RowRoundTrip(Values(records[j]));
    }
    forall k | 0 <= k < |lines|
      ensures '\n' !in lines[k]
    {
      if k > 0 {
        assert lines[k] == rows[k - 1];
      }
    }
    SplitJoin(lines, '\n');
    assert forall j :: 0 <= j < |records| ==> lines[j + 1] == rows[j];
  }

  /** The wallet page's state. */
  class WalletPage {
    var balanceFromApi: Option<int>
    var transactions: seq<Transaction>
    var topupModal: bool
    var topupAmount: string
    var showSuccessAnimation: bool
    var recentlyAdded: bool

    constructor ()
      ensures balanceFromApi.None? && transactions == []
      ensures !topupModal && topupAmount == "" && !showSuccessAnimation && !recentlyAdded
    {
      balanceFromApi, transactions := None, [];
      topupModal, topupAmount, showSuccessAnimation, recentlyAdded := false, "", false, false;
    }

    /** `loadData`. Without a user nothing happens. `balance` is the balance
        call (None when it fails; its `wallet_balance` may be missing) and
        `txs` the transactions call (None when it fails, which empties the list). */
    method LoadData(signedIn: bool, balance: Option<Option<int>>, txs: Option<seq<Transaction>>)
      modifies this
      ensures signedIn ==> balanceFromApi == (if balance.Some? then balance.value else None)
      ensures signedIn ==> transactions == txs.GetOr([])
      ensures !signedIn ==> balanceFromApi == old(balanceFromApi) && transactions == old(transactions)
      ensures topupModal == old(topupModal) && topupAmount == old(topupAmount)
      ensures showSuccessAnimation == old(showSuccessAnimation) && recentlyAdded == old(recentlyAdded)
    {
      if !signedIn {
        return;
      }
      balanceFromApi := if balance.Some? then balance.value else None;
      transactions := if txs.Some? then txs.value else [];
    }

    /** `doTopup`: a rejected amount changes nothing. An accepted one that
        the service takes (`ok`) closes and clears the modal, starts the
        success animation and then reloads as `LoadData` does, with the
        reload's answers `balance` and `txs`. A refused top-up keeps the
        balance and the transactions. */
    method DoTopup(parsed: Option<int>, ok: bool, signedIn: bool, balance: Option<Option<int>>, txs: Option<seq<Transaction>>)
      returns (sent: bool)
      modifies this
      ensures sent <==> TopupAccepted(parsed)
      ensures sent && ok ==> !topupModal && topupAmount == "" && showSuccessAnimation && recentlyAdded
      ensures !(sent && ok) ==>
        (topupModal == old(topupModal) && topupAmount == old(topupAmount)
         && showSuccessAnimation == old(showSuccessAnimation) && recentlyAdded == old(recentlyAdded))
      ensures sent && ok && signedIn ==>
        balanceFromApi == (if balance.Some? then balance.value else None) && transactions == txs.GetOr([])
      ensures !(sent && ok && signedIn) ==> balanceFromApi == old(balanceFromApi) && transactions == old(transactions)
    {
      if parsed.None? || parsed.value < 10 || parsed.value > 100000 {
        return false;
      }
      sent := true;
      if ok {
        topupModal := false;
        topupAmount := "";
        showSuccessAnimation := true;
        recentlyAdded := true;
        LoadData(signedIn, balance, txs);
      }
    }
  }
}
