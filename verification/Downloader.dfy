/**
 The resumable history downloader: what a run makes of the files it finds, and
 why no single write of a run changes what the next run will make of them.
 */
module Downloader {
  import opened Lists
  import opened Wrappers
  import opened Ordering
  import opened KeyedRows
  import opened DatasetCheck
  import opened Bars

  datatype Entry = Entry(symbol: string, name: string)

  /** One bar as the provider sends it, its fields already rendered as text. */
  datatype Aggregate = Aggregate(date: string, open: string, high: string, low: string, close: string,
                                 volume: string, barCount: string, average: string)

  datatype Answer = Aggregates(bars: seq<Aggregate>) | Refused(error: string)

  datatype Stamp = Stamp(startDate: string, endDate: string, adjusted: bool)

  datatype Progress = Progress(stamp: Stamp, completed: set<string>, failed: map<string, string>)

  /** The parameters of a run.  `fetch` is the provider and `window` the date range;
      `key`, `less`, `symbolOf` and `inWindow` say how rows are read (see Restart.BarsJob). */
  datatype Job = Job(entries: seq<Entry>, stamp: Stamp, every: int, fetch: string -> Answer,
                     window: string -> bool, rules: Rules<Key, Row>,
                     key: Row -> Option<Key>, less: (Key, Key) -> bool, symbolOf: Row -> string, inWindow: Row -> bool)

  ghost predicate Sane(job: Job) {
    && StrictTotal(job.less)
    && forall r :: job.key(r).Some? ==>
        job.key(r).value.ticker == job.symbolOf(r) && job.window(job.key(r).value.date) == job.inWindow(r)
  }

  /** The files of a run; a missing output or symbol file holds no rows, and a missing
      or unreadable progress file is None. */
  datatype Files = Files(output: seq<Row>, checkpoint: Option<seq<Row>>, progress: Option<Progress>,
                         symbolFiles: map<string, seq<Row>>)

  // ---------------------------------------------------------------------
  // What one symbol contributes

  function ToRow(bar: Aggregate, entry: Entry): Row {
    Row(entry.symbol, entry.name, "", entry.symbol, bar.date, bar.open, bar.high, bar.low, bar.close,
        bar.volume, bar.barCount, bar.average)
  }

  function ToRows(bars: seq<Aggregate>, entry: Entry): (rows: seq<Row>)
    ensures |rows| == |bars| && forall i :: 0 <= i < |bars| ==> rows[i] == ToRow(bars[i], entry)
  {
    seq(|bars|, i requires 0 <= i < |bars| => ToRow(bars[i], entry))
  }

  /** download_symbol_rows: no rows when the provider refuses. */
  ghost function DownloadRows(entry: Entry, job: Job): seq<Row>
    requires Sane(job)
  {
    match job.fetch(entry.symbol)
    case Aggregates(bars) => Merge([], ToRows(bars, entry), job.key, job.less)
    case Refused(_) => []
  }

  ghost function Provided(entry: Entry, job: Job): map<Key, Row>
    requires Sane(job)
  {
    Table(DownloadRows(entry, job), job.key)
  }

  /** Everything the provider has for the given entries. */
  ghost function ProvidedAll(entries: seq<Entry>, job: Job): map<Key, Row>
    requires Sane(job)
  {
    if entries == [] then map[]
    else ProvidedAll(entries[..|entries| - 1], job) + Provided(entries[|entries| - 1], job)
  }

  /** The loaded universe: each symbol once, and a row made for an entry is keyed by the entry's symbol. */
  ghost predicate Universe(entries: seq<Entry>, job: Job) {
    && (forall i :: 0 <= i < |entries| ==> OwnKeys(entries[i], job))
    && (forall i, j :: 0 <= i < j < |entries| ==> entries[i].symbol != entries[j].symbol)
  }

  ghost predicate OwnKeys(entry: Entry, job: Job) {
    forall bar :: job.key(ToRow(bar, entry)).Some? ==> job.key(ToRow(bar, entry)).value.ticker == entry.symbol
  }

  /** The provider answers within the requested date range. */
  ghost predicate AnswersInWindow(job: Job)
    requires Sane(job)
  {
    forall k :: k in ProvidedAll(job.entries, job) ==> job.window(k.date)
  }

  ghost predicate Sound(job: Job) {
    Sane(job) && Universe(job.entries, job)
  }

  ghost predicate Runnable(job: Job) {
    Sound(job) && AnswersInWindow(job)
  }

  function Symbols(entries: seq<Entry>): set<string> {
    set i | 0 <= i < |entries| :: entries[i].symbol
  }

  /** The symbols among the first `i` entries that the provider answers. */
  function Answered(job: Job, i: nat): set<string>
    requires i <= |job.entries|
  {
    set j | 0 <= j < i && job.fetch(job.entries[j].symbol).Aggregates? :: job.entries[j].symbol
  }

  /** `second` is `first` with a provider that also answers symbols which `first` is refused. */
  ghost predicate Recovers(first: Job, second: Job) {
    && second.entries == first.entries && second.stamp == first.stamp && second.window == first.window
    && second.key == first.key && second.less == first.less
    && second.symbolOf == first.symbolOf && second.inWindow == first.inWindow
    && forall s :: first.fetch(s).Aggregates? ==> second.fetch(s) == first.fetch(s)
  }

  function TickerOf(k: Key): string {
    k.ticker
  }

  function Tickers(t: map<Key, Row>): set<string> {
    set k | k in t :: TickerOf(k)
  }

  lemma ProvidedKeys(entry: Entry, job: Job)
    requires Sane(job) && OwnKeys(entry, job)
    ensures forall k :: k in Provided(entry, job) ==> k.ticker == entry.symbol
    ensures WellKeyed(Provided(entry, job), job.key)
  {
    TableIsWellKeyed(DownloadRows(entry, job), job.key);
    match job.fetch(entry.symbol)
    case Refused(_) =>
    case Aggregates(bars) =>
      TableOfMerge([], ToRows(bars, entry), job.key, job.less);
      TableKeys(ToRows(bars, entry), job.key, (k: Key) => k.ticker == entry.symbol);
  }

  lemma {:induction false} ProvidedAllKeys(entries: seq<Entry>, job: Job)
    requires Sane(job) && Universe(entries, job)
    ensures forall k :: k in ProvidedAll(entries, job) ==> k.ticker in Symbols(entries)
    ensures WellKeyed(ProvidedAll(entries, job), job.key)
  {
    if entries != [] {
      var n := |entries| - 1;
      assert forall i :: 0 <= i < n ==> entries[..n][i] == entries[i];
      ProvidedAllKeys(entries[..n], job);
      ProvidedKeys(entries[n], job);
      OverrideIsWellKeyed(ProvidedAll(entries[..n], job), Provided(entries[n], job), job.key);
      assert Symbols(entries[..n]) <= Symbols(entries);
    }
  }

  // ---------------------------------------------------------------------
  // What a run that is not interrupted makes of the files

  function ReadTable(files: Files, job: Job): map<Key, Row> {
    var checkpoint := if files.checkpoint.Some? then files.checkpoint.value else [];
    Table(Filter(files.output, job.inWindow), job.key) + Table(Filter(checkpoint, job.inWindow), job.key)
  }

  /** load_progress: a progress file of another date range or adjustment counts for nothing. */
  function Claimed(files: Files, job: Job): set<string> {
    if files.progress.Some? && files.progress.value.stamp == job.stamp then files.progress.value.completed else {}
  }

  function Fresh(provided: map<Key, Row>, done: set<string>): map<Key, Row> {
    map k | k in provided && k.ticker !in done :: provided[k]
  }

  /** The rows read from disk, overridden by the provider's rows for every symbol that
      is not both recorded as complete and present. */
  function Fill(read: map<Key, Row>, claimed: set<string>, provided: map<Key, Row>): map<Key, Row> {
    read + Fresh(provided, claimed * Tickers(read))
  }

  ghost function Target(files: Files, job: Job): map<Key, Row>
    requires Sane(job)
  {
    Fill(ReadTable(files, job), Claimed(files, job), ProvidedAll(job.entries, job))
  }

  // ---------------------------------------------------------------------
  // The same, row by row

  /** The row of a key that a run reads: the checkpoint's last one, else the output's, if it lies in the range. */
  function OnDisk(files: Files, job: Job, k: Key): Option<Row> {
    var checkpoint := if files.checkpoint.Some? then files.checkpoint.value else [];
    if !job.window(k.date) then None
    else if LastWith(checkpoint, k, job.key).Some? then LastWith(checkpoint, k, job.key)
    else LastWith(files.output, k, job.key)
  }

  /** The last bar of a key in the answer for an entry, with all that it carries. */
  ghost predicate Offers(job: Job, entry: Entry, k: Key, row: Row) {
    && job.fetch(entry.symbol).Aggregates?
    && exists i :: 0 <= i < |job.fetch(entry.symbol).bars| && OfferedAt(job, entry, k, row, i)
  }

  ghost predicate OfferedAt(job: Job, entry: Entry, k: Key, row: Row, i: nat)
    requires job.fetch(entry.symbol).Aggregates? && i < |job.fetch(entry.symbol).bars|
  {
    var bars := job.fetch(entry.symbol).bars;
    && job.key(ToRow(bars[i], entry)) == Some(k)
    && (forall j :: i < j < |bars| ==> job.key(ToRow(bars[j], entry)) != Some(k))
    && row.ticker == row.localSymbol == entry.symbol && row.name == entry.name && row.conId == ""
    && row.date == bars[i].date && row.open == bars[i].open && row.high == bars[i].high && row.low == bars[i].low
    && row.close == bars[i].close && row.volume == bars[i].volume && row.barCount == bars[i].barCount
    && row.average == bars[i].average
  }

  /** Recorded as complete under this date range and adjustment, and some of its rows are on disk. */
  ghost predicate Settled(files: Files, job: Job, symbol: string) {
    && files.progress.Some? && symbol in files.progress.value.completed
    && files.progress.value.stamp.startDate == job.stamp.startDate
    && files.progress.value.stamp.endDate == job.stamp.endDate
    && files.progress.value.stamp.adjusted == job.stamp.adjusted
    && exists date :: OnDisk(files, job, Key(symbol, date)).Some?
  }

  lemma ReadMeans(files: Files, job: Job, k: Key)
    requires Sane(job)
    ensures k in ReadTable(files, job) <==> OnDisk(files, job, k).Some?
    ensures k in ReadTable(files, job) ==> ReadTable(files, job)[k] == OnDisk(files, job, k).value
  {
    var checkpoint := if files.checkpoint.Some? then files.checkpoint.value else [];
    FilterByDate(files.output, job);
    FilterByDate(checkpoint, job);
    TableHoldsTheLast(files.output, k, job.key);
    TableHoldsTheLast(checkpoint, k, job.key);
  }

  lemma SettledMeans(files: Files, job: Job, symbol: string)
    requires Sane(job)
    ensures symbol in Done(files, job) <==> Settled(files, job, symbol)
  {
    if symbol in Done(files, job) {
      var k :| k in ReadTable(files, job) && TickerOf(k) == symbol;
      ReadMeans(files, job, k);
      assert k == Key(symbol, k.date);
    }
    if Settled(files, job, symbol) {
      var date :| OnDisk(files, job, Key(symbol, date)).Some?;
      ReadMeans(files, job, Key(symbol, date));
      assert TickerOf(Key(symbol, date)) in Tickers(ReadTable(files, job));
    }
  }

  lemma {:induction false} LastBar(bars: seq<Aggregate>, entry: Entry, job: Job, k: Key)
    ensures var last := LastWith(ToRows(bars, entry), k, job.key);
      && (last.None? ==> forall i :: 0 <= i < |bars| ==> job.key(ToRow(bars[i], entry)) != Some(k))
      && (last.Some? ==> exists i :: 0 <= i < |bars| && IsLastBar(bars, entry, job, k, i, last.value))
  {
    if bars != [] {
      var n := |bars| - 1;
      var last := LastWith(ToRows(bars, entry), k, job.key);
      assert ToRows(bars, entry)[..n] == ToRows(bars[..n], entry);
      LastBar(bars[..n], entry, job, k);
      if job.key(ToRow(bars[n], entry)) == Some(k) {
        assert IsLastBar(bars, entry, job, k, n, last.value);
      } else if last.Some? {
        var i :| 0 <= i < n && IsLastBar(bars[..n], entry, job, k, i, last.value);
        assert IsLastBar(bars, entry, job, k, i, last.value);
      }
    }
  }

  ghost predicate IsLastBar(bars: seq<Aggregate>, entry: Entry, job: Job, k: Key, i: nat, row: Row)
    requires i < |bars|
  {
    && row == ToRow(bars[i], entry) && job.key(row) == Some(k)
    && forall j :: i < j < |bars| ==> job.key(ToRow(bars[j], entry)) != Some(k)
  }

  lemma OwnBars(entry: Entry, job: Job, bars: seq<Aggregate>)
    requires Sane(job) && job.fetch(entry.symbol) == Aggregates(bars)
    ensures Provided(entry, job) == Table(ToRows(bars, entry), job.key)
  {
    var t := Table(ToRows(bars, entry), job.key);
    TableOfMerge([], ToRows(bars, entry), job.key, job.less);
    assert map[] + t == t;
  }

  lemma LastIsOffered(bars: seq<Aggregate>, entry: Entry, job: Job, k: Key, i: nat, row: Row)
    requires job.fetch(entry.symbol) == Aggregates(bars) && i < |bars| && IsLastBar(bars, entry, job, k, i, row)
    ensures OfferedAt(job, entry, k, row, i)
  {}

  lemma OfferMeans(entry: Entry, job: Job, k: Key)
    requires Sane(job)
    ensures k in Provided(entry, job) <==> exists row :: Offers(job, entry, k, row)
    ensures k in Provided(entry, job) ==> Offers(job, entry, k, Provided(entry, job)[k])
  {
    var own := Provided(entry, job);
    if k in own { ProvidedIsOffered(entry, job, k, own); }
    if row :| Offers(job, entry, k, row) { OfferedIsProvided(entry, job, k, row); }
  }

  lemma ProvidedIsOffered(entry: Entry, job: Job, k: Key, own: map<Key, Row>)
    requires Sane(job) && own == Provided(entry, job) && k in own
    ensures Offers(job, entry, k, own[k])
  {
    match job.fetch(entry.symbol)
    case Refused(_) =>
    case Aggregates(bars) =>
      OwnBars(entry, job, bars);
      TableHoldsTheLast(ToRows(bars, entry), k, job.key);
      LastBar(bars, entry, job, k);
      var i :| 0 <= i < |bars| && IsLastBar(bars, entry, job, k, i, own[k]);
      LastIsOffered(bars, entry, job, k, i, own[k]);
  }

  lemma OfferedIsProvided(entry: Entry, job: Job, k: Key, row: Row)
    requires Sane(job) && Offers(job, entry, k, row)
    ensures k in Provided(entry, job)
  {
    var bars := job.fetch(entry.symbol).bars;
    OwnBars(entry, job, bars);
    TableHoldsTheLast(ToRows(bars, entry), k, job.key);
    LastBar(bars, entry, job, k);
  }

  lemma {:induction false} ProvidedOf(entries: seq<Entry>, job: Job, i: nat, k: Key)
    requires Sane(job) && Universe(entries, job) && i < |entries| && k.ticker == entries[i].symbol
    ensures k in ProvidedAll(entries, job) <==> k in Provided(entries[i], job)
    ensures k in ProvidedAll(entries, job) ==> ProvidedAll(entries, job)[k] == Provided(entries[i], job)[k]
  {
    var n := |entries| - 1;
    var init := entries[..n];
    assert forall j :: 0 <= j < n ==> init[j] == entries[j];
    ProvidedKeys(entries[n], job);
    if i < n {
      ProvidedOf(init, job, i, k);
    } else {
      ProvidedAllKeys(init, job);
    }
  }

  /** What a whole run makes of the files, row by row: the provider's row when it has one and the
      symbol is not settled, else what is on disk. */
  lemma TargetMeans(files: Files, job: Job, i: nat, k: Key)
    requires Sound(job) && i < |job.entries| && k.ticker == job.entries[i].symbol
    ensures var downloaded := !Settled(files, job, k.ticker) && exists row :: Offers(job, job.entries[i], k, row);
      && (k in Target(files, job) <==> downloaded || OnDisk(files, job, k).Some?)
      && (downloaded ==> Offers(job, job.entries[i], k, Target(files, job)[k]))
      && (!downloaded && k in Target(files, job) ==> Target(files, job)[k] == OnDisk(files, job, k).value)
  {
    ReadMeans(files, job, k);
    SettledMeans(files, job, k.ticker);
    ProvidedOf(job.entries, job, i, k);
    OfferMeans(job.entries[i], job, k);
  }

  /** Symbols that are not in the universe keep what is on disk. */
  lemma TargetElsewhere(files: Files, job: Job, k: Key)
    requires Sound(job) && k.ticker !in Symbols(job.entries)
    ensures k in Target(files, job) <==> OnDisk(files, job, k).Some?
    ensures k in Target(files, job) ==> Target(files, job)[k] == OnDisk(files, job, k).value
  {
    ReadMeans(files, job, k);
    ProvidedAllKeys(job.entries, job);
  }

  // ---------------------------------------------------------------------
  // No single write moves the target: the laws on tables

  lemma TickersOfOverride(a: map<Key, Row>, b: map<Key, Row>)
    ensures Tickers(a + b) == Tickers(a) + Tickers(b)
  {
    forall k | k in a ensures k.ticker in Tickers(a + b) { assert k in a + b; }
    forall k | k in b ensures k.ticker in Tickers(a + b) { assert k in a + b; }
  }

  /** After a checkpoint write, and after the progress write that follows it. */
  lemma CheckpointKeepsFill(read: map<Key, Row>, claimed: set<string>, provided: map<Key, Row>,
                            sofar: map<Key, Row>, processed: set<string>, claimed': set<string>)
    requires forall k :: k in sofar <==> k in provided && k.ticker in processed
    requires forall k :: k in sofar ==> sofar[k] == provided[k]
    requires claimed * Tickers(read) <= claimed' <= claimed + processed
    ensures Fill(read + Fresh(sofar, claimed * Tickers(read)), claimed', provided) == Fill(read, claimed, provided)
  {
    var done := claimed * Tickers(read);
    var added := Fresh(sofar, done);
    TickersOfOverride(read, added);
    var done' := claimed' * Tickers(read + added);
    assert done <= done' && Tickers(added) <= processed;
    forall k | k in provided && k.ticker in done' && k.ticker !in done ensures k in added {
      assert k.ticker in processed;
    }
    FillInTwoSteps(read, added, provided, done, done');
  }

  /** What was added already need not be filled in again. */
  lemma FillInTwoSteps(read: map<Key, Row>, added: map<Key, Row>, provided: map<Key, Row>, done: set<string>,
                       done': set<string>)
    requires done <= done'
    requires forall k :: k in added ==> k in provided && k.ticker !in done && added[k] == provided[k]
    requires forall k :: k in provided && k.ticker in done' && k.ticker !in done ==> k in added
    ensures read + added + Fresh(provided, done') == read + Fresh(provided, done)
  {}

  /** After the output write: `sofar` is what this run was given of `provided`, and `checkpoint`
      is what lies beside the output, among the rows that were read. */
  lemma OutputKeepsFill(read: map<Key, Row>, checkpoint: map<Key, Row>, claimed: set<string>,
                        sofar: map<Key, Row>, provided: map<Key, Row>, answered: set<string>)
    requires forall k :: k in checkpoint ==> k in read && checkpoint[k] == read[k]
    requires forall k :: k in sofar <==> k in provided && k.ticker in answered
    requires forall k :: k in sofar ==> sofar[k] == provided[k]
    ensures Fill(Fill(read, claimed, sofar) + checkpoint, claimed, provided) == Fill(read, claimed, provided)
  {
    var done := claimed * Tickers(read);
    var added := Fresh(sofar, done);
    TickersOfOverride(read, added);
    TickersOfOverride(read + added, checkpoint);
    var done' := claimed * Tickers(read + added + checkpoint);
    assert done <= done';
    forall k | k in checkpoint ensures k.ticker in Tickers(read) { assert k in read; }
    assert Tickers(checkpoint) <= Tickers(read);
    assert done' <= done + Tickers(added);
    assert Tickers(added) <= answered;
    FillBeside(read, checkpoint, added, provided, done, done');
  }

  lemma FillBeside(read: map<Key, Row>, checkpoint: map<Key, Row>, added: map<Key, Row>, provided: map<Key, Row>,
                   done: set<string>, done': set<string>)
    requires forall k :: k in checkpoint ==>
      k in read && checkpoint[k] == read[k] && (k.ticker in done' ==> k.ticker in done)
    requires forall k :: k in added ==> k in provided && k.ticker !in done && added[k] == provided[k]
    requires forall k :: k in provided && k.ticker in done' && k.ticker !in done ==> k in added
    requires done <= done'
    ensures read + added + checkpoint + Fresh(provided, done') == read + Fresh(provided, done)
  {}

  // ---------------------------------------------------------------------
  // The same laws on files

  function Done(files: Files, job: Job): set<string> {
    Claimed(files, job) * Tickers(ReadTable(files, job))
  }

  /** The rows in memory after the first `i` entries of a run that started on `files`. */
  ghost function Sofar(files: Files, job: Job, i: nat): map<Key, Row>
    requires Sane(job) && i <= |job.entries|
  {
    ReadTable(files, job) + Fresh(ProvidedAll(job.entries[..i], job), Done(files, job))
  }

  ghost function List(t: map<Key, Row>, job: Job): seq<Row>
    requires Sane(job)
  {
    Listing(t, job.less)
  }

  ghost predicate Clean(t: map<Key, Row>, job: Job) {
    WellKeyed(t, job.key) && forall k :: k in t ==> job.window(k.date)
  }

  lemma ReadIsClean(files: Files, job: Job)
    requires Sane(job)
    ensures Clean(ReadTable(files, job), job)
  {
    var checkpoint := if files.checkpoint.Some? then files.checkpoint.value else [];
    var (a, b) := (Filter(files.output, job.inWindow), Filter(checkpoint, job.inWindow));
    TableIsWellKeyed(a, job.key);
    TableIsWellKeyed(b, job.key);
    OverrideIsWellKeyed(Table(a, job.key), Table(b, job.key), job.key);
    FilterByDate(files.output, job);
    FilterByDate(checkpoint, job);
  }

  lemma FilterByDate(rows: seq<Row>, job: Job)
    requires Sane(job)
    ensures Table(Filter(rows, job.inWindow), job.key) == Restrict(Table(rows, job.key), (k: Key) => job.window(k.date))
  {
    TableOfFilter(rows, job.key, job.inWindow, (k: Key) => job.window(k.date));
  }

  lemma OverrideIsClean(t: map<Key, Row>, provided: map<Key, Row>, done: set<string>, job: Job)
    requires Clean(t, job) && Clean(provided, job)
    ensures Clean(t + Fresh(provided, done), job)
  {
    OverrideIsWellKeyed(t, Fresh(provided, done), job.key);
  }

  /** A clean table survives being written to a file and read back. */
  lemma ReadBack(t: map<Key, Row>, job: Job)
    requires Sane(job) && Clean(t, job)
    ensures Table(Filter(List(t, job), job.inWindow), job.key) == t
  {
    TableOfListing(t, job.key, job.less);
    FilterByDate(List(t, job), job);
  }

  /** The provider's rows for a prefix of the entries are those of its symbols. */
  lemma {:induction false} ProvidedPrefix(entries: seq<Entry>, job: Job, i: nat)
    requires Sane(job) && Universe(entries, job) && i <= |entries|
    ensures var (sofar, all) := (ProvidedAll(entries[..i], job), ProvidedAll(entries, job));
      && (forall k :: k in sofar <==> k in all && k.ticker in Symbols(entries[..i]))
      && (forall k :: k in sofar ==> sofar[k] == all[k])
    decreases |entries|
  {
    ProvidedAllKeys(entries, job);
    if i == |entries| {
      assert entries[..i] == entries;
    } else {
      var n := |entries| - 1;
      var init := entries[..n];
      assert forall j :: 0 <= j < n ==> init[j] == entries[j];
      ProvidedPrefix(init, job, i);
      assert init[..i] == entries[..i];
      ProvidedKeys(entries[n], job);
      assert entries[n].symbol !in Symbols(entries[..i]);
    }
  }

  lemma SofarIsKeyed(files: Files, job: Job, i: nat)
    requires Sound(job) && i <= |job.entries|
    ensures WellKeyed(Sofar(files, job, i), job.key)
  {
    ReadIsClean(files, job);
    assert Universe(job.entries[..i], job) by {
      assert forall j :: 0 <= j < i ==> job.entries[..i][j] == job.entries[j];
    }
    ProvidedAllKeys(job.entries[..i], job);
  }

  lemma SofarIsClean(files: Files, job: Job, i: nat)
    requires Runnable(job) && i <= |job.entries|
    ensures Clean(Sofar(files, job, i), job)
  {
    ReadIsClean(files, job);
    ProvidedPrefix(job.entries, job, i);
    ProvidedAllKeys(job.entries[..i], job);
    OverrideIsClean(ReadTable(files, job), ProvidedAll(job.entries[..i], job), Done(files, job), job);
  }

  lemma SofarIsTarget(files: Files, job: Job)
    requires Sane(job)
    ensures Sofar(files, job, |job.entries|) == Target(files, job)
  {
    assert job.entries[..|job.entries|] == job.entries;
  }

  /** In the middle of a run that started on `start`, the checkpoint has just been
      written, and the progress file is either still the one of the last checkpoint
      or already the new one.  Whoever runs next, with a provider that answers more,
      ends with the same rows. */
  lemma CheckpointKeepsTarget(start: Files, now: Files, job: Job, i: nat, next: Job)
    requires Recovers(job, next) && Runnable(next) && i <= |job.entries| && Sane(job)
    requires now.output == start.output && now.checkpoint == Some(List(Sofar(start, job, i), job))
    requires Done(start, job) <= Claimed(now, job) <= Claimed(start, job) + Answered(job, i)
    ensures Target(now, next) == Target(start, next)
  {
    var sofar := ProvidedAll(job.entries[..i], job);
    RecoveredIsRunnable(job, next);
    SofarIsClean(start, job, i);
    ReadBack(Sofar(start, job, i), job);
    OverrideAbsorbs(start, job, Fresh(sofar, Done(start, job)));
    ProvidedPart(job, next, i);
    CheckpointKeepsFill(ReadTable(start, job), Claimed(start, job), ProvidedAll(next.entries, next),
                        sofar, Answered(job, i), Claimed(now, job));
  }

  /** What a refusing provider has is what the other one has for the symbols it answers. */
  lemma {:induction false} ProvidedHalf(entries: seq<Entry>, first: Job, second: Job)
    requires Sane(first) && Sane(second) && Recovers(first, second) && Universe(entries, second)
    ensures Half(ProvidedAll(entries, first), ProvidedAll(entries, second), first)
  {
    if entries != [] {
      var n := |entries| - 1;
      assert forall j :: 0 <= j < n ==> entries[..n][j] == entries[j];
      ProvidedHalf(entries[..n], first, second);
      OwnHalf(entries[n], first, second);
      HalvesOverride(ProvidedAll(entries[..n], first), ProvidedAll(entries[..n], second),
                     Provided(entries[n], first), Provided(entries[n], second), first);
    }
  }

  ghost predicate Half(some: map<Key, Row>, all: map<Key, Row>, job: Job) {
    && (forall k :: k in some <==> k in all && job.fetch(k.ticker).Aggregates?)
    && (forall k :: k in some ==> some[k] == all[k])
  }

  lemma OwnHalf(entry: Entry, first: Job, second: Job)
    requires Sane(first) && Sane(second) && Recovers(first, second) && OwnKeys(entry, second)
    ensures Half(Provided(entry, first), Provided(entry, second), first)
  {
    ProvidedKeys(entry, second);
    if first.fetch(entry.symbol).Refused? { assert Provided(entry, first) == map[]; }
  }

  lemma HalvesOverride(some: map<Key, Row>, all: map<Key, Row>, some': map<Key, Row>, all': map<Key, Row>, job: Job)
    requires Half(some, all, job) && Half(some', all', job)
    ensures Half(some + some', all + all', job)
  {}

  lemma ProvidedPart(first: Job, second: Job, i: nat)
    requires Sane(first) && Sane(second) && Recovers(first, second) && Universe(second.entries, second)
    requires i <= |first.entries|
    ensures var (sofar, all) := (ProvidedAll(first.entries[..i], first), ProvidedAll(second.entries, second));
      && (forall k :: k in sofar <==> k in all && k.ticker in Answered(first, i))
      && (forall k :: k in sofar ==> sofar[k] == all[k])
  {
    assert Universe(first.entries, first);
    var (sofar, some) := (ProvidedAll(first.entries[..i], first), ProvidedAll(first.entries, first));
    ProvidedPrefix(first.entries, first, i);
    ProvidedHalf(first.entries, first, second);
    forall k ensures k in sofar <==> k in ProvidedAll(second.entries, second) && k.ticker in Answered(first, i) {
      AnsweredMeans(first, i, k.ticker);
      assert k in sofar <==> k in some && k.ticker in Symbols(first.entries[..i]);
    }
  }

  lemma AnsweredMeans(job: Job, i: nat, s: string)
    requires i <= |job.entries|
    ensures s in Answered(job, i) <==> s in Symbols(job.entries[..i]) && job.fetch(s).Aggregates?
  {
    if s in Symbols(job.entries[..i]) && job.fetch(s).Aggregates? {
      var j :| 0 <= j < i && job.entries[..i][j].symbol == s;
      assert job.entries[j].symbol == s;
    }
    if s in Answered(job, i) {
      var j :| 0 <= j < i && job.entries[j].symbol == s;
      assert job.entries[..i][j].symbol == s;
    }
  }

  lemma RecoveredIsRunnable(first: Job, second: Job)
    requires Recovers(first, second) && Runnable(second)
    ensures Runnable(first)
  {
    assert Sane(first);
    assert Universe(first.entries, first);
    ProvidedHalf(first.entries, first, second);
  }

  lemma OverrideAbsorbs(start: Files, job: Job, added: map<Key, Row>)
    ensures Table(Filter(start.output, job.inWindow), job.key) + (ReadTable(start, job) + added) ==
      ReadTable(start, job) + added
  {}

  lemma TargetIsClean(files: Files, job: Job)
    requires Runnable(job)
    ensures Clean(Target(files, job), job)
  {
    SofarIsClean(files, job, |job.entries|);
    SofarIsTarget(files, job);
  }

  /** The output file has been written; the checkpoint still lies beside it, or has been removed. */
  lemma OutputKeepsTarget(files: Files, now: Files, job: Job, next: Job)
    requires Recovers(job, next) && Runnable(next) && Sane(job)
    requires now.output == List(Target(files, job), job) && now.progress == files.progress
    requires now.checkpoint == files.checkpoint || now.checkpoint == None
    ensures Target(now, next) == Target(files, next)
  {
    RecoveredIsRunnable(job, next);
    TargetIsClean(files, job);
    ReadBack(Target(files, job), job);
    ProvidedPart(job, next, |job.entries|);
    assert job.entries[..|job.entries|] == job.entries;
    var checkpoint := if now.checkpoint.Some? then now.checkpoint.value else [];
    var beside := Table(Filter(checkpoint, job.inWindow), job.key);
    assert Filter([], job.inWindow) == [];
    assert forall k :: k in beside ==> k in ReadTable(files, job) && beside[k] == ReadTable(files, job)[k];
    OutputKeepsFill(ReadTable(files, job), beside, Claimed(files, job), ProvidedAll(job.entries, job),
                    ProvidedAll(next.entries, next), Answered(job, |job.entries|));
  }

  lemma NoCheckpoint(files: Files, job: Job)
    requires Sane(job)
    ensures ReadTable(files.(checkpoint := None), job) == Table(Filter(files.output, job.inWindow), job.key)
  {
    var t := Table(Filter(files.output, job.inWindow), job.key);
    assert Filter([], job.inWindow) == [];
    assert t + map[] == t;
  }

  lemma SofarStart(files: Files, job: Job)
    requires Sane(job)
    ensures Sofar(files, job, 0) == ReadTable(files, job)
    ensures Symbols(job.entries[..0]) == {}
  {
    var t := ReadTable(files, job);
    assert job.entries[..0] == [];
    assert Fresh(map[], Done(files, job)) == map[];
    assert t + map[] == t;
  }

  lemma SymbolFilesDoNotMatter(files: Files, symbolFiles: map<string, seq<Row>>, job: Job)
    requires Sane(job)
    ensures Target(files.(symbolFiles := symbolFiles), job) == Target(files, job)
  {}

  /** symbols_with_rows, read off the merged rows. */
  lemma ReadTickers(files: Files, job: Job)
    requires Sane(job)
    ensures var rows := List(ReadTable(files, job), job);
      (set i | 0 <= i < |rows| :: job.symbolOf(rows[i])) == Tickers(ReadTable(files, job))
  {
    var t := ReadTable(files, job);
    ReadIsClean(files, job);
    var of := TickerOf;
    ListingProjects(t, job.key, job.less, of, job.symbolOf);
    assert (set k | k in t :: of(k)) == Tickers(t);
  }

  lemma FreshStep(read: map<Key, Row>, sofar: map<Key, Row>, own: map<Key, Row>, done: set<string>, symbol: string)
    requires forall k :: k in own ==> k.ticker == symbol
    ensures read + Fresh(sofar + own, done) ==
      if symbol in done then read + Fresh(sofar, done) else read + Fresh(sofar, done) + own
  {
    if symbol in done {
      assert Fresh(sofar + own, done) == Fresh(sofar, done);
    } else {
      assert Fresh(sofar + own, done) == Fresh(sofar, done) + own;
      OverrideIsAssociative(read, Fresh(sofar, done), own);
    }
  }

  /** What the next entry adds to the rows in memory. */
  lemma NextEntry(files: Files, job: Job, i: nat)
    requires Sound(job) && i < |job.entries|
    ensures var entry := job.entries[i];
      Sofar(files, job, i + 1) ==
        if entry.symbol in Done(files, job) then Sofar(files, job, i)
        else Sofar(files, job, i) + Provided(entry, job)
  {
    var prefix := job.entries[..i + 1];
    assert prefix[..i] == job.entries[..i];
    ProvidedKeys(job.entries[i], job);
    FreshStep(ReadTable(files, job), ProvidedAll(job.entries[..i], job), Provided(job.entries[i], job),
              Done(files, job), job.entries[i].symbol);
  }

  lemma NextSymbols(entries: seq<Entry>, i: nat)
    requires i < |entries|
    ensures Symbols(entries[..i + 1]) == Symbols(entries[..i]) + {entries[i].symbol}
  {
    var (prefix, longer) := (entries[..i], entries[..i + 1]);
    assert forall j :: 0 <= j < i ==> prefix[j] == longer[j];
    assert longer[i] == entries[i];
  }

  lemma SymbolsGrow(job: Job, i: nat)
    requires Sound(job) && i < |job.entries|
    ensures job.entries[i].symbol !in Symbols(job.entries[..i])
  {}

  lemma NoRows(t: map<Key, Row>, job: Job)
    ensures t + Table([], job.key) == t
  {}

  /** The final merge with nothing leaves the rows as they are. */
  lemma TargetIsListed(files: Files, job: Job)
    requires Sound(job)
    ensures Merge([], List(Target(files, job), job), job.key, job.less) == List(Target(files, job), job)
  {
    SofarIsKeyed(files, job, |job.entries|);
    SofarIsTarget(files, job);
    ListingIsInKeyOrder(Target(files, job), job.key, job.less);
    MergeKeepsOrdered(List(Target(files, job), job), job.key, job.less);
  }

  // ---------------------------------------------------------------------
  // The bookkeeping beside the rows

  /** completed_symbols after the first `i` entries: a refused symbol is not complete, one without rows is. */
  function Completed(files: Files, job: Job, i: nat): set<string>
    requires i <= |job.entries|
  {
    if i == 0 then Done(files, job)
    else
      var symbol := job.entries[i - 1].symbol;
      if symbol !in Done(files, job) && job.fetch(symbol).Aggregates? then Completed(files, job, i - 1) + {symbol}
      else Completed(files, job, i - 1)
  }

  function Recorded(files: Files, job: Job): map<string, string> {
    if files.progress.Some? && files.progress.value.stamp == job.stamp then files.progress.value.failed else map[]
  }

  /** failed_symbols after the first `i` entries. */
  function Failed(files: Files, job: Job, i: nat): map<string, string>
    requires i <= |job.entries|
  {
    if i == 0 then Recorded(files, job)
    else
      var symbol := job.entries[i - 1].symbol;
      var before := Failed(files, job, i - 1);
      if symbol in Done(files, job) then before
      else match job.fetch(symbol)
        case Aggregates(_) => before - {symbol}
        case Refused(error) => before[symbol := error]
  }

  /** Complete are the symbols that needed no download and those that were answered, and no others. */
  lemma {:induction false} CompletedMeans(files: Files, job: Job, i: nat)
    requires i <= |job.entries|
    ensures Completed(files, job, i) == Done(files, job) + Answered(job, i)
  {
    if i > 0 {
      CompletedMeans(files, job, i - 1);
      var symbol := job.entries[i - 1].symbol;
      assert Answered(job, i) ==
        if job.fetch(symbol).Aggregates? then Answered(job, i - 1) + {symbol} else Answered(job, i - 1);
    }
  }

  /** A failure recorded under this date range and adjustment. */
  ghost predicate WasRefused(files: Files, job: Job, s: string, error: string) {
    && files.progress.Some? && s in files.progress.value.failed && files.progress.value.failed[s] == error
    && files.progress.value.stamp.startDate == job.stamp.startDate
    && files.progress.value.stamp.endDate == job.stamp.endDate
    && files.progress.value.stamp.adjusted == job.stamp.adjusted
  }

  /** Failed are the symbols that were refused, with the provider's last error; a recorded failure
      goes away when its symbol is answered and stays when it is not asked for. */
  lemma {:induction false} FailedMeans(files: Files, job: Job, i: nat, s: string, error: string)
    requires i <= |job.entries|
    ensures var asked := s in Symbols(job.entries[..i]) && s !in Done(files, job);
      (s in Failed(files, job, i) && Failed(files, job, i)[s] == error) <==>
        if asked then job.fetch(s) == Refused(error) else WasRefused(files, job, s, error)
  {
    if i > 0 {
      FailedMeans(files, job, i - 1, s, error);
      NextSymbols(job.entries, i - 1);
    }
  }

  /** Before its turn, an entry counts as complete exactly when it needs no download. */
  lemma SymbolIsSettled(start: Files, job: Job, i: nat)
    requires Sound(job) && i < |job.entries|
    ensures job.entries[i].symbol in Completed(start, job, i) <==> job.entries[i].symbol in Done(start, job)
  {
    SymbolsGrow(job, i);
    CompletedMeans(start, job, i);
    AnsweredMeans(job, i, job.entries[i].symbol);
  }

  /** write_symbol_files: a symbol without rows keeps whatever file it has. */
  function WithFiles(files: map<string, seq<Row>>, rows: seq<Row>, entries: seq<Entry>): map<string, seq<Row>> {
    if entries == [] then files
    else WithFile(WithFiles(files, rows, entries[..|entries| - 1]), rows, entries[|entries| - 1].symbol)
  }

  function WithFile(files: map<string, seq<Row>>, rows: seq<Row>, symbol: string): map<string, seq<Row>> {
    var own := RowsForSymbol(rows, symbol);
    if own == [] then files else files[symbol := own]
  }

  /** download_symbol_rows. */
  method DownloadSymbolRows(entry: Entry, job: Job) returns (rows: seq<Row>)
    requires Sane(job)
    ensures rows == DownloadRows(entry, job)
  {
    match job.fetch(entry.symbol)
    case Refused(_) => rows := [];
    case Aggregates(bars) => rows := MergeRows([], ToRows(bars, entry), job.key, job.less);
  }
}
