/** The daily refresh of the bar files, up to the last completed session. */
module DailyBars {
  import opened Bars
  import opened KeyedRows
  import opened Text
  import opened Wrappers

  /** A bar as the broker sends it, its date as eight digits and its numbers as text. */
  datatype Quote = Quote(date: string, open: string, high: string, low: string, close: string, volume: string,
                         barCount: string, average: string)

  datatype Contract = Contract(conId: string, localSymbol: string)

  datatype Error = ContractNotQualified | BrokerError(text: string) | LatestDate(found: string)
    | FileError(text: string)

  /** What goes wrong with a symbol's file, if anything: it cannot be read, it cannot be replaced,
      or it has been replaced when setting its mode fails. */
  datatype Fault = NoFault | ReadFails(text: string) | WriteFails(text: string) | ModeFails(text: string)

  datatype Reply = Quotes(contract: Contract, quotes: seq<Quote>) | Refused(error: Error)

  datatype Failure = Failure(symbol: string, error: Error)

  datatype Outcome = Updated(added: nat) | AlreadyCurrent | Failed(error: Error)

  datatype Status = Ok | DegradedAcceptable | FailedStatus

  datatype Report = Report(status: Status, updated: nat, alreadyCurrent: nat, rowsAdded: nat, failures: seq<Failure>,
                           mayProceed: bool)

  const ACCEPTABLE_FAILURES := 10

  // ---------------------------------------------------------------------
  // One file

  function DateKey(row: Row): Option<string> {
    if row.date != "" then Some(row.date) else None
  }

  /** The file's dated rows; the last row of a date stays. */
  function ByDate(rows: seq<Row>): map<string, Row> {
    Table(rows, DateKey)
  }

  /** Rows without a date are dropped, and of the rows of a date the last one stays. */
  lemma {:induction false} ByDateMeans(rows: seq<Row>, d: string)
    ensures d in ByDate(rows) <==> d != "" && exists i :: 0 <= i < |rows| && rows[i].date == d
    ensures d in ByDate(rows) ==> ByDate(rows)[d].date == d
    ensures rows != [] && rows[|rows| - 1].date == d != "" ==> ByDate(rows)[d] == rows[|rows| - 1]
  {
    if rows != [] {
      var n := |rows| - 1;
      ByDateMeans(rows[..n], d);
      assert forall i :: 0 <= i < n ==> rows[..n][i] == rows[i];
    }
  }

  /** The file holds a session on or after the expected one. */
  ghost predicate Reaches(dates: set<string>, expected: string) {
    expected == "" || exists d :: d in dates && !Less(d, expected)
  }

  ghost predicate Current(rows: seq<Row>, expected: string) {
    Reaches(ByDate(rows).Keys, expected)
  }

  /** `max(dates, default="")`. */
  ghost predicate IsLatest(dates: set<string>, latest: string) {
    if dates == {} then latest == "" else latest in dates && forall d :: d in dates ==> !Less(latest, d)
  }

  method FindLatest(dates: set<string>) returns (latest: string)
    ensures IsLatest(dates, latest)
  {
    LessIsStrictTotal();
    latest := "";
    var rest := dates;
    while rest != {}
      invariant rest <= dates
      invariant rest < dates ==> latest in dates
      invariant forall d :: d in dates - rest ==> !Less(latest, d)
      invariant rest == dates ==> latest == ""
      decreases |rest|
    {
      var d :| d in rest;
      if rest == dates || Less(latest, d) {
        latest := d;
      }
      rest := rest - {d};
    }
  }

  /** The latest date decides whether the file reaches the expected session. */
  lemma LatestDecides(dates: set<string>, latest: string, expected: string)
    requires IsLatest(dates, latest)
    ensures Reaches(dates, expected) <==> !Less(latest, expected)
  {
    if expected == "" {
    } else if dates == {} {
    } else if d :| d in dates && !Less(d, expected) {
      if Less(latest, expected) {
        LessConnected(d, expected);
        if d != expected { LessTransitive(latest, expected, d); }
      }
    }
  }

  function Meta(rows: seq<Row>): Row {
    if rows != [] then rows[0] else Row("", "", "", "", "", "", "", "", "", "", "", "")
  }

  function Either(a: string, b: string): string {
    if a != "" then a else b
  }

  function NewRow(symbol: string, meta: Row, contract: Contract, q: Quote): Row {
    Row(symbol, Either(meta.name, symbol), Either(contract.conId, meta.conId),
        Either(contract.localSymbol, Either(meta.localSymbol, symbol)), q.date,
        q.open, q.high, q.low, q.close, q.volume, q.barCount, q.average)
  }

  predicate Wanted(q: Quote, expected: string) {
    q.date != "" && !Less(expected, q.date)
  }

  /** The quotes that are dated, not after the expected session, and new; the first of a date is taken. */
  function Added(t: map<string, Row>, quotes: seq<Quote>, expected: string, row: Quote -> Row): map<string, Row> {
    if quotes == [] then t
    else
      var before := Added(t, quotes[..|quotes| - 1], expected, row);
      var q := quotes[|quotes| - 1];
      if Wanted(q, expected) && q.date !in before then before[q.date := row(q)] else before
  }

  /** Nothing of the file is lost or changed, and every new date is a wanted quote's. */
  lemma {:induction false} AddedKeeps(t: map<string, Row>, quotes: seq<Quote>, expected: string, row: Quote -> Row)
    ensures var after := Added(t, quotes, expected, row);
      && (forall d :: d in t ==> d in after && after[d] == t[d])
      && (forall d :: d in after ==> d in t || (d != "" && !Less(expected, d)))
      && |after| >= |t| && (|after| == |t| ==> after == t)
  {
    if quotes != [] {
      AddedKeeps(t, quotes[..|quotes| - 1], expected, row);
    }
  }

  /** Quote `i` is the first of its date. */
  ghost predicate FirstOf(quotes: seq<Quote>, i: int, d: string) {
    0 <= i < |quotes| && quotes[i].date == d && forall j :: 0 <= j < i ==> quotes[j].date != d
  }

  ghost predicate Quoted(quotes: seq<Quote>, d: string) {
    exists i :: 0 <= i < |quotes| && quotes[i].date == d
  }

  ghost predicate AddedFirst(added: Row, quotes: seq<Quote>, d: string, row: Quote -> Row) {
    exists i :: FirstOf(quotes, i, d) && added == row(quotes[i])
  }

  /** Every quoted date that is not on file yet and not after the expected session is added, with the
      first quote for it. */
  lemma {:induction false} AddedMeans(t: map<string, Row>, quotes: seq<Quote>, expected: string, row: Quote -> Row,
                                      d: string)
    requires d !in t
    ensures var after := Added(t, quotes, expected, row);
      && (d in after <==> d != "" && !Less(expected, d) && Quoted(quotes, d))
      && (d in after ==> AddedFirst(after[d], quotes, d, row))
  {
    if quotes != [] {
      var n := |quotes| - 1;
      AddedMeans(t, quotes[..n], expected, row, d);
      QuotedStep(quotes, d);
      if d in Added(t, quotes[..n], expected, row) {
        FirstStays(Added(t, quotes[..n], expected, row)[d], quotes, d, row);
      } else if d in Added(t, quotes, expected, row) {
        assert FirstOf(quotes, n, d);
      }
    }
  }

  lemma QuotedStep(quotes: seq<Quote>, d: string)
    requires quotes != []
    ensures var n := |quotes| - 1;
      && (Quoted(quotes, d) <==> Quoted(quotes[..n], d) || quotes[n].date == d)
      && (quotes[n].date == d && !Quoted(quotes[..n], d) ==> FirstOf(quotes, n, d))
  {
    var n := |quotes| - 1;
    assert forall j :: 0 <= j < n ==> quotes[..n][j] == quotes[j];
  }

  lemma FirstStays(added: Row, quotes: seq<Quote>, d: string, row: Quote -> Row)
    requires quotes != [] && AddedFirst(added, quotes[..|quotes| - 1], d, row)
    ensures AddedFirst(added, quotes, d, row)
  {
    var init := quotes[..|quotes| - 1];
    var i :| FirstOf(init, i, d) && added == row(init[i]);
    assert init[i] == quotes[i] && forall j :: 0 <= j < i ==> init[j] == quotes[j];
    assert FirstOf(quotes, i, d);
  }

  /** A new row carries its quote; its name and its contract come from the broker and the file, the ids
      from the broker first, and the symbol stands in for a name that neither has. */
  lemma NewRowMeans(symbol: string, existing: seq<Row>, contract: Contract, q: Quote)
    ensures var row := NewRow(symbol, Meta(existing), contract, q);
      && row.ticker == symbol && row.date == q.date && row.open == q.open && row.high == q.high && row.low == q.low
      && row.close == q.close && row.volume == q.volume && row.barCount == q.barCount && row.average == q.average
      && row.name == (if existing != [] && existing[0].name != "" then existing[0].name else symbol)
      && (contract.conId != "" ==> row.conId == contract.conId)
      && (contract.conId == "" && existing != [] ==> row.conId == existing[0].conId)
      && (contract.localSymbol != "" ==> row.localSymbol == contract.localSymbol)
      && (contract.localSymbol == "" && existing != [] && existing[0].localSymbol != "" ==>
            row.localSymbol == existing[0].localSymbol)
      && (contract.localSymbol == "" && existing == [] ==> row.localSymbol == symbol)
  {}

  lemma {:induction false} AddedIsKeyed(t: map<string, Row>, quotes: seq<Quote>, expected: string, row: Quote -> Row)
    requires WellKeyed(t, DateKey) && forall q :: row(q).date == q.date
    ensures WellKeyed(Added(t, quotes, expected, row), DateKey)
  {
    if quotes != [] {
      AddedIsKeyed(t, quotes[..|quotes| - 1], expected, row);
    }
  }

  // ---------------------------------------------------------------------
  // One symbol

  ghost function Listed(t: map<string, Row>): seq<Row> {
    LessIsStrictTotal();
    Listing(t, Less)
  }

  /** A rewritten file: dates strictly increase, every dated row of the old file is kept, every new
      date is not after the expected session, and that session is the latest. */
  ghost predicate Rewritten(before: seq<Row>, after: seq<Row>, expected: string) {
    && InKeyOrder(after, DateKey, Less)
    && (forall d :: d in ByDate(before) ==> d in ByDate(after) && ByDate(after)[d] == ByDate(before)[d])
    && (forall d :: d in ByDate(after) && d !in ByDate(before) ==> !Less(expected, d))
    && IsLatest(ByDate(after).Keys, expected)
  }

  lemma RewrittenFrom(before: seq<Row>, t: map<string, Row>, expected: string)
    requires WellKeyed(t, DateKey) && IsLatest(t.Keys, expected)
    requires forall d :: d in ByDate(before) ==> d in t && t[d] == ByDate(before)[d]
    requires forall d :: d in t ==> d in ByDate(before) || (d != "" && !Less(expected, d))
    ensures Rewritten(before, Listed(t), expected)
  {
    LessIsStrictTotal();
    ListingIsInKeyOrder(t, DateKey, Less);
    TableOfListing(t, DateKey, Less);
  }

  /** A file whose latest date is the expected session is current. */
  lemma LatestIsCurrent(rows: seq<Row>, expected: string)
    requires IsLatest(ByDate(rows).Keys, expected)
    ensures Current(rows, expected)
  {
    LatestDecides(ByDate(rows).Keys, expected, expected);
    LessIrreflexive(expected);
  }

  lemma OneLatest(dates: set<string>, a: string, b: string)
    requires IsLatest(dates, a) && a != b
    ensures !IsLatest(dates, b)
  {
    LessConnected(a, b);
  }

  /** Before the refresh the file did not reach the expected session; so if no row is added,
      the latest date is still not the expected one. */
  lemma NoAdditionsNeverSucceed(t: map<string, Row>, expected: string)
    requires !Reaches(t.Keys, expected)
    ensures !IsLatest(t.Keys, expected)
  {
    if IsLatest(t.Keys, expected) {
      LatestDecides(t.Keys, expected, expected);
      LessIrreflexive(expected);
    }
  }

  method AddQuotes(t: map<string, Row>, quotes: seq<Quote>, expected: string, row: Quote -> Row)
    returns (merged: map<string, Row>, additions: nat)
    ensures merged == Added(t, quotes, expected, row) && additions == |merged| - |t|
  {
    merged, additions := t, 0;
    for i := 0 to |quotes|
      invariant merged == Added(t, quotes[..i], expected, row) && additions == |merged| - |t|
    {
      assert quotes[..i + 1][..i] == quotes[..i];
      var q := quotes[i];
      if q.date == "" || Less(expected, q.date) || q.date in merged { continue; }
      merged := merged[q.date := row(q)];
      additions := additions + 1;
    }
    assert quotes[..|quotes|] == quotes;
  }

  function RowFrom(symbol: string, meta: Row, contract: Contract): Quote -> Row {
    (q: Quote) => NewRow(symbol, meta, contract, q)
  }

  /** The dated rows of a file, with the wanted quotes as rows. */
  function Merged(symbol: string, existing: seq<Row>, contract: Contract, quotes: seq<Quote>,
                  expected: string): map<string, Row> {
    Added(ByDate(existing), quotes, expected, RowFrom(symbol, Meta(existing), contract))
  }

  lemma MergedIsRewritten(symbol: string, existing: seq<Row>, contract: Contract, quotes: seq<Quote>, expected: string)
    requires IsLatest(Merged(symbol, existing, contract, quotes, expected).Keys, expected)
    ensures var after := Listed(Merged(symbol, existing, contract, quotes, expected));
      Rewritten(existing, after, expected) && Current(after, expected)
  {
    var (t, row) := (ByDate(existing), RowFrom(symbol, Meta(existing), contract));
    AddedKeeps(t, quotes, expected, row);
    TableIsWellKeyed(existing, DateKey);
    AddedIsKeyed(t, quotes, expected, row);
    RewrittenFrom(existing, Merged(symbol, existing, contract, quotes, expected), expected);
    LatestIsCurrent(Listed(Merged(symbol, existing, contract, quotes, expected)), expected);
  }

  class BarFiles {
    var files: map<string, seq<Row>>

    /** _write_rows_atomic. */
    method WriteRows(symbol: string, rows: seq<Row>, fault: Fault) returns (error: Option<Error>)
      modifies this
      ensures files == if fault.WriteFails? then old(files) else old(files)[symbol := rows]
      ensures error == if fault.WriteFails? || fault.ModeFails? then Some(FileError(fault.text)) else None
    {
      if fault.WriteFails? { return Some(FileError(fault.text)); }
      files := files[symbol := rows];
      error := if fault.ModeFails? then Some(FileError(fault.text)) else None;
    }

    /** The rows of a file that is not current together with the new ones, and the latest date among them. */
    static method MergeQuotes(symbol: string, existing: seq<Row>, contract: Contract, quotes: seq<Quote>,
                              expected: string)
      returns (merged: map<string, Row>, latest: string, additions: nat)
      requires !Current(existing, expected)
      ensures merged == Merged(symbol, existing, contract, quotes, expected) && IsLatest(merged.Keys, latest)
      ensures additions == |merged| - |ByDate(existing)|
      ensures latest == expected ==> additions > 0
    {
      merged, additions := AddQuotes(ByDate(existing), quotes, expected, RowFrom(symbol, Meta(existing), contract));
      latest := FindLatest(merged.Keys);
      AddedKeeps(ByDate(existing), quotes, expected, RowFrom(symbol, Meta(existing), contract));
      NoAdditionsNeverSucceed(ByDate(existing), expected);
    }

    /** The second half of the loop body: the quotes are merged and the file is rewritten.  The branch that
        would count the symbol as current although no row was added is never taken. */
    method UpdateFile(symbol: string, expected: string, contract: Contract, quotes: seq<Quote>,
                      fault: Fault) returns (outcome: Outcome)
      requires !fault.ReadFails? && !Current(RowsIn(files, symbol), expected)
      modifies this
      ensures SymbolDone(old(files), files, symbol, outcome, fault, expected)
      ensures ByReply(old(files), files, symbol, outcome, Quotes(contract, quotes), fault, expected)
      ensures outcome.Updated? ==> outcome.added > 0
    {
      var existing := RowsIn(files, symbol);
      var merged, latest, additions := MergeQuotes(symbol, existing, contract, quotes, expected);
      if latest != expected {
        OneLatest(merged.Keys, latest, expected);
        return Failed(LatestDate(latest));
      }
      if additions > 0 {
        LessIsStrictTotal();
        var finalRows := ListRows(merged, Less);
        ghost var before := files;
        var error := WriteRows(symbol, finalRows, fault);
        FileWritten(before, files, symbol, contract, quotes, fault, expected);
        outcome := if error.Some? then Failed(error.value) else Updated(additions);
      } else {
        outcome := AlreadyCurrent;
      }
    }

    /** The loop body of refresh for one symbol. */
    method RefreshSymbol(symbol: string, expected: string, reply: Reply, fault: Fault) returns (outcome: Outcome)
      modifies this
      ensures SymbolDone(old(files), files, symbol, outcome, fault, expected)
      ensures outcome.Updated? ==> outcome.added > 0
      ensures outcome.AlreadyCurrent? || fault.ReadFails?
        || ByReply(old(files), files, symbol, outcome, reply, fault, expected)
    {
      if fault.ReadFails? { return Failed(FileError(fault.text)); }
      var dates := ByDate(RowsIn(files, symbol)).Keys;
      var oldLatest := FindLatest(dates);
      LatestDecides(dates, oldLatest, expected);
      if !Less(oldLatest, expected) { return AlreadyCurrent; }
      if reply.Refused? { return Failed(reply.error); }
      outcome := UpdateFile(symbol, expected, reply.contract, reply.quotes, fault);
    }

    /** refresh: every targeted symbol has one outcome, which the report counts; files change only
        by being rewritten; and trading may go on only if every symbol but at most ten, whose
        contracts did not qualify, reaches the expected session. */
    method Refresh(symbols: seq<string>, expected: string, broker: string -> Reply, disk: string -> Fault,
                   unqualified: Error -> bool)
      returns (report: Report, ghost outcomes: seq<Outcome>)
      modifies this
      ensures Tallied(symbols, outcomes, report.updated, report.alreadyCurrent, report.rowsAdded, report.failures)
      ensures OutcomesFit(old(files), symbols, outcomes, disk, expected)
      ensures AllReach(files, symbols, report.failures, expected)
      ensures OnlyRewritten(old(files), files, symbols, expected)
      ensures report.mayProceed <==> report.status != FailedStatus
      ensures report.status == Ok <==> symbols != [] && report.failures == []
      ensures report.status == DegradedAcceptable <==>
        0 < |report.failures| <= 10 && forall f :: f in report.failures ==> unqualified(f.error)
    {
      var failures, updated, alreadyCurrent, rowsAdded := [], 0, 0, 0;
      outcomes := [];
      ghost var seen := [];
      for i := 0 to |symbols|
        invariant seen == symbols[..i]
        invariant Tallied(seen, outcomes, updated, alreadyCurrent, rowsAdded, failures)
        invariant Stage(old(files), files, seen, outcomes, failures, disk, expected)
      {
        ghost var before := files;
        var outcome := RefreshSymbol(symbols[i], expected, broker(symbols[i]), disk(symbols[i]));
        ghost var failures0 := failures;
        updated, alreadyCurrent, rowsAdded, failures :=
          Count(seen, symbols[i], outcomes, outcome, updated, alreadyCurrent, rowsAdded, failures);
        StageStep(old(files), before, files, seen, symbols[i], outcomes, outcome, failures0, failures, disk, expected);
        outcomes, seen := outcomes + [outcome], seen + [symbols[i]];
      }
      assert seen == symbols;
      var onlyUnqualified := AllUnqualified(failures, unqualified);
      var degraded := failures != [] && onlyUnqualified && |failures| <= ACCEPTABLE_FAILURES;
      var status :=
        if failures == [] && |symbols| > 0 then Ok else if degraded then DegradedAcceptable else FailedStatus;
      report := Report(status, updated, alreadyCurrent, rowsAdded, failures, status != FailedStatus);
    }
  }

  function RowsIn(files: map<string, seq<Row>>, symbol: string): seq<Row> {
    if symbol in files then files[symbol] else []
  }

  /** A symbol counts as already current exactly if its file can be read and was so when the refresh began. */
  ghost predicate OutcomesFit(before: map<string, seq<Row>>, symbols: seq<string>, outcomes: seq<Outcome>,
                              disk: string -> Fault, expected: string)
  {
    && |outcomes| == |symbols|
    && forall i :: 0 <= i < |symbols| && symbols[i] !in symbols[..i] ==>
        (outcomes[i].AlreadyCurrent? <==> Shows(before, symbols[i], disk(symbols[i]), expected))
  }

  ghost predicate Shows(files: map<string, seq<Row>>, symbol: string, fault: Fault, expected: string) {
    !fault.ReadFails? && Current(RowsIn(files, symbol), expected)
  }

  /** Every symbol reaches the expected session or is listed as failed. */
  ghost predicate AllReach(files: map<string, seq<Row>>, symbols: seq<string>, failures: seq<Failure>,
                           expected: string) {
    forall s :: s in symbols ==> Current(RowsIn(files, s), expected) || Fails(failures, s)
  }

  /** A file is as it was, or it is a targeted one that has been rewritten up to the expected session. */
  ghost predicate OnlyRewritten(before: map<string, seq<Row>>, after: map<string, seq<Row>>, symbols: seq<string>,
                                expected: string) {
    forall s :: Kept(before, after, s) || (s in symbols && Renewed(RowsIn(before, s), RowsIn(after, s), expected))
  }

  predicate Kept(before: map<string, seq<Row>>, after: map<string, seq<Row>>, symbol: string) {
    (symbol in after <==> symbol in before) && RowsIn(after, symbol) == RowsIn(before, symbol)
  }

  ghost predicate Renewed(before: seq<Row>, after: seq<Row>, expected: string) {
    !Current(before, expected) && Current(after, expected) && Rewritten(before, after, expected)
  }

  ghost predicate Stage(before: map<string, seq<Row>>, now: map<string, seq<Row>>, symbols: seq<string>,
                        outcomes: seq<Outcome>,
                        failures: seq<Failure>, disk: string -> Fault, expected: string)
  {
    && OutcomesFit(before, symbols, outcomes, disk, expected)
    && AllReach(now, symbols, failures, expected)
    && OnlyRewritten(before, now, symbols, expected)
  }

  /** The symbol's file, and no other, has been rewritten. */
  ghost predicate Replaced(before: map<string, seq<Row>>, after: map<string, seq<Row>>, symbol: string,
                           expected: string) {
    symbol in after && after == before[symbol := after[symbol]]
      && Renewed(RowsIn(before, symbol), after[symbol], expected)
  }

  /** What the refresh of one symbol does to the files; a file whose mode could not be set has been
      replaced although its symbol counts as failed. */
  ghost predicate SymbolDone(before: map<string, seq<Row>>, after: map<string, seq<Row>>, symbol: string,
                             outcome: Outcome,
                             fault: Fault, expected: string)
  {
    && (outcome.AlreadyCurrent? <==> Shows(before, symbol, fault, expected))
    && (fault.ReadFails? ==> outcome == Failed(FileError(fault.text)))
    && (outcome.Updated? ==> fault.NoFault? && Replaced(before, after, symbol, expected))
    && (!outcome.Updated? ==> after == before || HalfDone(before, after, symbol, outcome, fault, expected))
  }

  ghost predicate HalfDone(before: map<string, seq<Row>>, after: map<string, seq<Row>>, symbol: string,
                           outcome: Outcome,
                           fault: Fault, expected: string)
  {
    fault.ModeFails? && outcome == Failed(FileError(fault.text)) && Replaced(before, after, symbol, expected)
  }

  /** A readable file that is not current: the outcome, and the file, that the reply and the fault call for. */
  ghost predicate ByReply(before: map<string, seq<Row>>, after: map<string, seq<Row>>, symbol: string, outcome: Outcome,
                          reply: Reply, fault: Fault, expected: string)
  {
    if reply.Refused? then outcome == Failed(reply.error) && after == before
    else
      var existing := RowsIn(before, symbol);
      var merged := Merged(symbol, existing, reply.contract, reply.quotes, expected);
      if !IsLatest(merged.Keys, expected) then
        outcome.Failed? && outcome.error.LatestDate? && IsLatest(merged.Keys, outcome.error.found) && after == before
      else if fault.WriteFails? then outcome == Failed(FileError(fault.text)) && after == before
      else
        && after == before[symbol := Listed(merged)]
        && if fault.ModeFails? then outcome == Failed(FileError(fault.text))
           else outcome.Updated? && outcome.added == |merged| - |ByDate(existing)|
  }

  lemma FileWritten(before: map<string, seq<Row>>, after: map<string, seq<Row>>, symbol: string, contract: Contract,
                    quotes: seq<Quote>, fault: Fault, expected: string)
    requires var merged := Merged(symbol, RowsIn(before, symbol), contract, quotes, expected);
      IsLatest(merged.Keys, expected) && after == if fault.WriteFails? then before else before[symbol := Listed(merged)]
    requires !Current(RowsIn(before, symbol), expected)
    ensures if fault.WriteFails? then after == before else Replaced(before, after, symbol, expected)
  {
    MergedIsRewritten(symbol, RowsIn(before, symbol), contract, quotes, expected);
  }

  lemma OutcomesFitStep(start: map<string, seq<Row>>, before: map<string, seq<Row>>, symbols: seq<string>,
                        symbol: string,
                        outcomes: seq<Outcome>, outcome: Outcome, disk: string -> Fault, expected: string)
    requires OutcomesFit(start, symbols, outcomes, disk, expected) && OnlyRewritten(start, before, symbols, expected)
    requires outcome.AlreadyCurrent? <==> Shows(before, symbol, disk(symbol), expected)
    ensures OutcomesFit(start, symbols + [symbol], outcomes + [outcome], disk, expected)
  {
    var longer := symbols + [symbol];
    forall i | 0 <= i < |longer| && longer[i] !in longer[..i]
      ensures (outcomes + [outcome])[i].AlreadyCurrent? <==> Shows(start, longer[i], disk(longer[i]), expected)
    {
      assert longer[..i] == symbols[..i];
      if i == |symbols| {
        assert symbols[..i] == symbols;
        assert Kept(start, before, symbol);
      }
    }
  }

  lemma OnlyRewrittenStep(start: map<string, seq<Row>>, before: map<string, seq<Row>>, after: map<string, seq<Row>>,
                          symbols: seq<string>, symbol: string, expected: string)
    requires OnlyRewritten(start, before, symbols, expected)
    requires after == before || Replaced(before, after, symbol, expected)
    ensures OnlyRewritten(start, after, symbols + [symbol], expected)
  {
    forall s
      ensures Kept(start, after, s)
        || (s in symbols + [symbol] && Renewed(RowsIn(start, s), RowsIn(after, s), expected))
    {
      assert Kept(start, before, s) || (s in symbols && Renewed(RowsIn(start, s), RowsIn(before, s), expected));
      assert s != symbol ==> Kept(before, after, s);
    }
  }

  lemma StageStep(start: map<string, seq<Row>>, before: map<string, seq<Row>>, after: map<string, seq<Row>>,
                  symbols: seq<string>,
                  symbol: string, outcomes: seq<Outcome>, outcome: Outcome, failures0: seq<Failure>,
                  failures: seq<Failure>, disk: string -> Fault, expected: string)
    requires Stage(start, before, symbols, outcomes, failures0, disk, expected)
    requires SymbolDone(before, after, symbol, outcome, disk(symbol), expected)
    requires forall s :: Fails(failures, s) <==> Fails(failures0, s) || (outcome.Failed? && s == symbol)
    ensures Stage(start, after, symbols + [symbol], outcomes + [outcome], failures, disk, expected)
  {
    OutcomesFitStep(start, before, symbols, symbol, outcomes, outcome, disk, expected);
    OnlyRewrittenStep(start, before, after, symbols, symbol, expected);
    forall s | s in symbols + [symbol] ensures Current(RowsIn(after, s), expected) || Fails(failures, s) {
      assert s != symbol ==> Kept(before, after, s);
    }
  }

  /** The counters of the report after some of the symbols. */
  ghost predicate Tallied(symbols: seq<string>, outcomes: seq<Outcome>, updated: nat, alreadyCurrent: nat,
                          rowsAdded: nat,
                          failures: seq<Failure>)
  {
    && |outcomes| == |symbols| == updated + alreadyCurrent + |failures|
    && updated == UpdatedIn(outcomes) && alreadyCurrent == CurrentIn(outcomes) && rowsAdded == AddedIn(outcomes)
    && failures == FailuresIn(symbols, outcomes)
  }

  method Count(ghost symbols: seq<string>, symbol: string, ghost outcomes: seq<Outcome>, outcome: Outcome,
               updated0: nat, alreadyCurrent0: nat, rowsAdded0: nat, failures0: seq<Failure>)
    returns (updated: nat, alreadyCurrent: nat, rowsAdded: nat, failures: seq<Failure>)
    requires Tallied(symbols, outcomes, updated0, alreadyCurrent0, rowsAdded0, failures0)
    ensures Tallied(symbols + [symbol], outcomes + [outcome], updated, alreadyCurrent, rowsAdded, failures)
    ensures forall s :: Fails(failures, s) <==> Fails(failures0, s) || (outcome.Failed? && s == symbol)
  {
    updated, alreadyCurrent, rowsAdded, failures := updated0, alreadyCurrent0, rowsAdded0, failures0;
    OutcomesStep(symbols, symbol, outcomes, outcome);
    match outcome {
      case AlreadyCurrent => alreadyCurrent := alreadyCurrent + 1;
      case Updated(added) => updated, rowsAdded := updated + 1, rowsAdded + added;
      case Failed(error) =>
        FailsGrows(failures, Failure(symbol, error));
        failures := failures + [Failure(symbol, error)];
    }
  }

  // The outcomes of the symbols so far, counted as the report counts them.

  function UpdatedIn(outcomes: seq<Outcome>): nat {
    if outcomes == [] then 0
    else UpdatedIn(outcomes[..|outcomes| - 1]) + if outcomes[|outcomes| - 1].Updated? then 1 else 0
  }

  function CurrentIn(outcomes: seq<Outcome>): nat {
    if outcomes == [] then 0
    else CurrentIn(outcomes[..|outcomes| - 1]) + if outcomes[|outcomes| - 1].AlreadyCurrent? then 1 else 0
  }

  function AddedIn(outcomes: seq<Outcome>): nat {
    if outcomes == [] then 0
    else
      var last := outcomes[|outcomes| - 1];
      AddedIn(outcomes[..|outcomes| - 1]) + if last.Updated? then last.added else 0
  }

  function FailuresIn(symbols: seq<string>, outcomes: seq<Outcome>): seq<Failure>
    requires |symbols| == |outcomes|
  {
    if outcomes == [] then []
    else
      var n := |outcomes| - 1;
      FailuresIn(symbols[..n], outcomes[..n]) +
        if outcomes[n].Failed? then [Failure(symbols[n], outcomes[n].error)] else []
  }

  lemma OutcomesStep(symbols: seq<string>, symbol: string, outcomes: seq<Outcome>, outcome: Outcome)
    requires |symbols| == |outcomes|
    ensures UpdatedIn(outcomes + [outcome]) == UpdatedIn(outcomes) + if outcome.Updated? then 1 else 0
    ensures CurrentIn(outcomes + [outcome]) == CurrentIn(outcomes) + if outcome.AlreadyCurrent? then 1 else 0
    ensures AddedIn(outcomes + [outcome]) == AddedIn(outcomes) + if outcome.Updated? then outcome.added else 0
    ensures FailuresIn(symbols + [symbol], outcomes + [outcome]) ==
      FailuresIn(symbols, outcomes) + if outcome.Failed? then [Failure(symbol, outcome.error)] else []
  {
    assert (outcomes + [outcome])[..|outcomes|] == outcomes && (symbols + [symbol])[..|symbols|] == symbols;
  }

  predicate Fails(failures: seq<Failure>, symbol: string) {
    exists i :: 0 <= i < |failures| && failures[i].symbol == symbol
  }

  lemma FailsGrows(failures: seq<Failure>, f: Failure)
    ensures forall s {:trigger Fails(failures + [f], s)} :: Fails(failures + [f], s) <==>
      Fails(failures, s) || s == f.symbol
  {
    var longer := failures + [f];
    assert longer[|failures|] == f && forall i :: 0 <= i < |failures| ==> longer[i] == failures[i];
  }

  method AllUnqualified(failures: seq<Failure>, unqualified: Error -> bool) returns (all: bool)
    ensures all <==> forall f :: f in failures ==> unqualified(f.error)
  {
    var count := 0;
    for i := 0 to |failures|
      invariant count <= i && (count == i <==> forall j :: 0 <= j < i ==> unqualified(failures[j].error))
    {
      if unqualified(failures[i].error) {
        count := count + 1;
      }
    }
    all := count == |failures|;
  }
}
