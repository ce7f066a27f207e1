/**
 How exact a restart is.  The downloader's job on bar rows, what it needs of the
 provider's dates, and precisely when killed first runs still end with everything
 the provider has.
 */
module Restart {
  import opened Bars
  import CanonicalSymbols = Symbols
  import DatasetCheck
  import opened DownloadRun
  import opened Downloader
  import opened KeyedRows
  import opened Lists
  import opened Text
  import opened Wrappers

  // ---------------------------------------------------------------------
  // The job that the downloader really runs

  /** A run over bar rows: `window` tells which date texts parse into the requested range. */
  function BarsJob(entries: seq<Entry>, stamp: Stamp, every: int, fetch: string -> Answer, window: string -> bool,
                   rules: DatasetCheck.Rules<Key, Row>): Job
  {
    Job(entries, stamp, every, fetch, window, rules, RowKey, KeyLess, SymbolOf, (r: Row) => window(Strip(r.date)))
  }

  ghost predicate DatesInWindow(entry: Entry, job: Job) {
    job.fetch(entry.symbol).Aggregates? ==>
      forall bar :: bar in job.fetch(entry.symbol).bars ==> job.inWindow(ToRow(bar, entry))
  }

  /** A job on bar rows meets everything the crash theorem asks for when its symbols are
      distinct and canonical, as the universe loader makes them, and every bar lies in the range. */
  lemma BarsJobIsRunnable(entries: seq<Entry>, stamp: Stamp, every: int, fetch: string -> Answer,
                          window: string -> bool,
                          rules: DatasetCheck.Rules<Key, Row>)
    requires forall i :: 0 <= i < |entries| ==> CanonicalSymbols.Canonical(entries[i].symbol)
    requires forall i, j :: 0 <= i < j < |entries| ==> entries[i].symbol != entries[j].symbol
    ensures var job := BarsJob(entries, stamp, every, fetch, window, rules);
      Sound(job) && ((forall i :: 0 <= i < |entries| ==> DatesInWindow(entries[i], job)) ==> Runnable(job))
  {
    var job := BarsJob(entries, stamp, every, fetch, window, rules);
    KeyLessIsStrictTotal();
    forall i | 0 <= i < |entries| ensures OwnKeys(entries[i], job) {
      CanonicalSymbols.CanonicalIsPlain(entries[i].symbol);
      forall bar ensures SymbolOf(ToRow(bar, entries[i])) == entries[i].symbol {}
    }
    if forall i :: 0 <= i < |entries| ==> DatesInWindow(entries[i], job) { AnswersAreInWindow(entries, job); }
  }

  lemma {:induction false} AnswersAreInWindow(entries: seq<Entry>, job: Job)
    requires Sane(job)
    requires forall i :: 0 <= i < |entries| ==> DatesInWindow(entries[i], job)
    ensures forall k :: k in ProvidedAll(entries, job) ==> job.window(k.date)
  {
    if entries != [] {
      var n := |entries| - 1;
      assert forall i :: 0 <= i < n ==> entries[..n][i] == entries[i];
      AnswersAreInWindow(entries[..n], job);
      AnswerIsInWindow(entries[n], job);
    }
  }

  lemma AnswerIsInWindow(entry: Entry, job: Job)
    requires Sane(job) && DatesInWindow(entry, job)
    ensures forall k :: k in Provided(entry, job) ==> job.window(k.date)
  {
    match job.fetch(entry.symbol)
    case Refused(_) =>
    case Aggregates(bars) =>
      var rows := ToRows(bars, entry);
      TableOfMerge([], rows, job.key, job.less);
      forall i | 0 <= i < |rows| && job.key(rows[i]).Some? ensures job.window(job.key(rows[i]).value.date) {
        assert bars[i] in bars;
      }
      TableKeys(rows, job.key, (k: Key) => job.window(k.date));
  }

  // ---------------------------------------------------------------------
  // Bars outside the range: the laws on tables

  /** No symbol has bars both inside and outside the range. */
  ghost predicate SymbolsAreWhole(t: map<Key, Row>, window: string -> bool) {
    forall k, k' :: k in t && k' in t && k.ticker == k'.ticker && window(k.date) ==> window(k'.date)
  }

  function InRange(t: map<Key, Row>, window: string -> bool): map<Key, Row> {
    map k | k in t && window(k.date) :: t[k]
  }

  /** The rows read are the provider's, and a claimed symbol that has rows has all of them. */
  ghost predicate Faithful(read: map<Key, Row>, claimed: set<string>, all: map<Key, Row>) {
    && (forall k :: k in read ==> k in all && read[k] == all[k])
    && (forall k :: k in all && k.ticker in claimed * Tickers(read) ==> k in read)
  }

  lemma FaithfulFills(read: map<Key, Row>, claimed: set<string>, all: map<Key, Row>)
    requires Faithful(read, claimed, all)
    ensures Fill(read, claimed, all) == all
  {}

  /** Rows merged from the provider, written down and read back within the range. */
  lemma CheckpointIsFaithful(read: map<Key, Row>, claimed: set<string>, all: map<Key, Row>, window: string -> bool,
                             sofar: map<Key, Row>, processed: set<string>, claimed': set<string>)
    requires SymbolsAreWhole(all, window) && Faithful(read, claimed, all)
    requires forall k :: k in sofar <==> k in all && k.ticker in processed
    requires forall k :: k in sofar ==> sofar[k] == all[k]
    requires claimed' <= claimed + processed
    ensures Faithful(InRange(read + Fresh(sofar, claimed * Tickers(read)), window), claimed', all)
  {
    var done := claimed * Tickers(read);
    var held := read + Fresh(sofar, done);
    var back := InRange(held, window);
    forall k | k in all && k.ticker in claimed' * Tickers(back) ensures k in back {
      var k' :| k' in back && k'.ticker == k.ticker;
      assert k' in all && window(k'.date);
      assert k.ticker in Tickers(read) || k.ticker in processed by { assert k' in read || k' in sofar; }
      assert k in read || k in sofar;
    }
  }

  /** All the rows, read back within the range, perhaps beside rows of a checkpoint. */
  lemma AllIsFaithful(all: map<Key, Row>, beside: map<Key, Row>, claimed: set<string>, window: string -> bool)
    requires SymbolsAreWhole(all, window)
    requires forall k :: k in beside ==> k in all && beside[k] == all[k] && window(k.date)
    ensures Faithful(InRange(all, window) + beside, claimed, all)
  {
    var read := InRange(all, window) + beside;
    forall k | k in all && k.ticker in Tickers(read) ensures k in read {
      var k' :| k' in read && k'.ticker == k.ticker;
      assert k' in all && window(k'.date);
    }
  }

  /** When every symbol with rows is claimed, what was read within the range is filled up to
      everything exactly when the symbols are whole. */
  lemma RestrictedRestart(all: map<Key, Row>, read: map<Key, Row>, claimed: set<string>, window: string -> bool)
    requires read == InRange(all, window)
    requires forall k :: k in all ==> k.ticker in claimed
    ensures Fill(read, claimed, all) == all <==> SymbolsAreWhole(all, window)
  {
    var again := Fill(read, claimed, all);
    assert claimed * Tickers(read) == Tickers(read);
    if SymbolsAreWhole(all, window) {
      AllIsFaithful(all, map[], claimed, window);
      assert read + map[] == read;
      FaithfulFills(read, claimed, all);
    } else {
      var k, k' :| k in all && k' in all && k.ticker == k'.ticker && window(k.date) && !window(k'.date);
      assert k in read && k'.ticker in Tickers(read);
      assert k' !in again;
    }
  }

  // ---------------------------------------------------------------------
  // The same laws on the files of killed runs

  ghost predicate Trusted(files: Files, job: Job)
    requires Sane(job)
  {
    Faithful(ReadTable(files, job), Claimed(files, job), ProvidedAll(job.entries, job))
  }

  /** A well-keyed table written to a file and read back keeps the rows in the range. */
  lemma ReadBackInRange(t: map<Key, Row>, job: Job)
    requires Sane(job) && WellKeyed(t, job.key)
    ensures Table(Filter(List(t, job), job.inWindow), job.key) == InRange(t, job.window)
  {
    TableOfListing(t, job.key, job.less);
    FilterByDate(List(t, job), job);
    assert Restrict(t, (k: Key) => job.window(k.date)) == InRange(t, job.window);
  }

  lemma CheckpointIsTrusted(start: Files, now: Files, job: Job, i: nat)
    requires Sound(job) && SymbolsAreWhole(ProvidedAll(job.entries, job), job.window) && Trusted(start, job)
    requires Checkpointed(start, now, job, i) && now.output == start.output
    ensures Trusted(now, job)
  {
    var held := Sofar(start, job, i);
    SofarIsKeyed(start, job, i);
    ReadBackInRange(held, job);
    ReadIsClean(start, job);
    OutputIsCovered(start, job, InRange(held, job.window));
    ProvidedPart(job, job, i);
    CheckpointIsFaithful(ReadTable(start, job), Claimed(start, job), ProvidedAll(job.entries, job), job.window,
                         ProvidedAll(job.entries[..i], job), Answered(job, i), Claimed(now, job));
  }

  /** The output's rows on disk are all among the rows read. */
  lemma OutputIsCovered(start: Files, job: Job, covering: map<Key, Row>)
    requires forall k :: k in ReadTable(start, job) ==> k in covering
    ensures Table(Filter(start.output, job.inWindow), job.key) + covering == covering
  {
    var t := Table(Filter(start.output, job.inWindow), job.key);
    forall k | k in t ensures k in covering { assert k in ReadTable(start, job); }
  }

  lemma MidwayIsTrusted(start: Files, now: Files, job: Job)
    requires Sound(job) && SymbolsAreWhole(ProvidedAll(job.entries, job), job.window) && Trusted(start, job)
    requires Midway(start, now, job, |job.entries|)
    ensures Trusted(now, job)
  {
    if now.checkpoint == start.checkpoint && now.progress == start.progress {
      assert ReadTable(now, job) == ReadTable(start, job);
    } else {
      var i: nat :| i <= |job.entries| && Checkpointed(start, now, job, i);
      CheckpointIsTrusted(start, now, job, i);
    }
  }

  /** The whole output on disk, beside the checkpoint of a trusted state or beside none. */
  lemma OutputIsTrusted(before: Files, now: Files, job: Job)
    requires Sound(job) && SymbolsAreWhole(ProvidedAll(job.entries, job), job.window) && Trusted(before, job)
    requires now.output == List(ProvidedAll(job.entries, job), job)
    requires now.checkpoint == before.checkpoint || now.checkpoint == None
    ensures Trusted(now, job)
  {
    var all := ProvidedAll(job.entries, job);
    ProvidedAllKeys(job.entries, job);
    ReadBackInRange(all, job);
    ReadIsClean(before, job);
    if now.checkpoint == None {
      NoCheckpoint(now, job);
      assert now.(checkpoint := None) == now;
      AllIsFaithful(all, map[], Claimed(now, job), job.window);
      assert InRange(all, job.window) + map[] == InRange(all, job.window);
    } else {
      var beside := Table(Filter(now.checkpoint.value, job.inWindow), job.key);
      assert forall k :: k in beside ==> k in ReadTable(before, job) && ReadTable(before, job)[k] == beside[k];
      AllIsFaithful(all, beside, Claimed(now, job), job.window);
    }
  }

  lemma TrustedTarget(files: Files, job: Job)
    requires Sane(job) && Trusted(files, job)
    ensures Target(files, job) == ProvidedAll(job.entries, job)
    ensures Rows(files, job, |job.entries|) == List(ProvidedAll(job.entries, job), job)
  {
    FaithfulFills(ReadTable(files, job), Claimed(files, job), ProvidedAll(job.entries, job));
    SofarIsTarget(files, job);
  }

  lemma PublishedIsTrusted(start: Files, now: Files, job: Job)
    requires Sound(job) && SymbolsAreWhole(ProvidedAll(job.entries, job), job.window) && Trusted(start, job)
    requires Published(start, now, job)
    ensures Trusted(now, job) && now.output == List(ProvidedAll(job.entries, job), job)
  {
    var before := now.(output := start.output);
    MidwayIsTrusted(start, before, job);
    TrustedTarget(start, job);
    OutputIsTrusted(before, now, job);
  }

  lemma ReachedIsTrusted(start: Files, now: Files, job: Job)
    requires Sound(job) && SymbolsAreWhole(ProvidedAll(job.entries, job), job.window) && Trusted(start, job)
    requires Reached(start, now, job)
    ensures Trusted(now, job)
  {
    if Midway(start, now, job, |job.entries|) {
      MidwayIsTrusted(start, now, job);
    } else if Published(start, now, job) {
      PublishedIsTrusted(start, now, job);
    } else {
      var before :| Published(start, before, job) && now == before.(checkpoint := None);
      PublishedIsTrusted(start, before, job);
      OutputIsTrusted(before, now, job);
    }
  }

  lemma {:induction false} RunsStayTrusted(files: Files, job: Job, kills: seq<nat>)
    requires Sound(job) && SymbolsAreWhole(ProvidedAll(job.entries, job), job.window) && Trusted(files, job)
    ensures Trusted(AfterRuns(files, job, kills), job)
  {
    if kills != [] {
      var before := AfterRuns(files, job, kills[..|kills| - 1]);
      RunsStayTrusted(files, job, kills[..|kills| - 1]);
      KilledIsReached(before, job, kills[|kills| - 1]);
      ReachedIsTrusted(before, AfterRuns(files, job, kills), job);
    }
  }

  // ---------------------------------------------------------------------
  // The exact condition

  /** No file of the downloader exists yet. */
  const NOTHING := Files([], None, None, map[])

  lemma NothingIsTrusted(job: Job)
    requires Sane(job)
    ensures Trusted(NOTHING, job) && ReadTable(NOTHING, job) == map[] && Claimed(NOTHING, job) == {}
  {
    assert Filter([], job.inWindow) == [];
  }

  /** A symbol for which the provider has rows is complete once it was asked for. */
  lemma {:induction false} ProvidersAreComplete(job: Job, i: nat)
    requires Sound(job) && i <= |job.entries|
    ensures forall k :: k in ProvidedAll(job.entries[..i], job) ==> k.ticker in Completed(NOTHING, job, i)
  {
    NothingIsTrusted(job);
    if i > 0 {
      var prefix := job.entries[..i];
      assert prefix[..i - 1] == job.entries[..i - 1];
      ProvidersAreComplete(job, i - 1);
      ProvidedKeys(job.entries[i - 1], job);
    }
  }

  lemma ThenCheckpoint(files: Files, earlier: seq<Write>, rows: seq<Row>, progress: Progress)
    ensures ApplyAll(files, earlier + [CheckpointFile(rows), ProgressFile(progress)]) ==
      ApplyAll(files, earlier).(checkpoint := Some(rows), progress := Some(progress))
  {
    var (first, second) := ([CheckpointFile(rows)], [ProgressFile(progress)]);
    assert earlier + [CheckpointFile(rows), ProgressFile(progress)] == earlier + first + second;
    ApplyConcat(files, earlier + first, second);
    ApplyConcat(files, earlier, first);
    NoWrites(ApplyAll(files, earlier), CheckpointFile(rows));
    NoWrites(ApplyAll(files, earlier + first), ProgressFile(progress));
  }

  /** A first run writes a checkpoint after its last entry. */
  lemma LastIsDue(job: Job)
    requires Sound(job) && job.entries != []
    ensures var n := |job.entries|;
      LoopWrites(NOTHING, job, n) == LoopWrites(NOTHING, job, n - 1) + EntryWrites(NOTHING, job, n)
        + [CheckpointFile(Rows(NOTHING, job, n)), ProgressFile(ProgressAt(NOTHING, job, n))]
  {
    NothingIsTrusted(job);
    NextWrites(NOTHING, job, |job.entries|);
  }

  lemma AfterLoop(start: Files, job: Job)
    requires Sane(job)
    ensures Killed(start, job, |LoopWrites(start, job, |job.entries|)|) ==
      ApplyAll(start, LoopWrites(start, job, |job.entries|))
    ensures ApplyAll(start, LoopWrites(start, job, |job.entries|)).output == start.output
  {
    var loop := LoopWrites(start, job, |job.entries|);
    LoopIsMidway(start, job, |job.entries|, |loop|);
    assert loop[..|loop|] == loop;
    assert Writes(start, job)[..|loop|] == loop;
  }

  /** A first run that is killed right after its last progress write. */
  lemma LastCheckpoint(job: Job)
    requires Sound(job) && job.entries != []
    ensures var killed := Killed(NOTHING, job, |LoopWrites(NOTHING, job, |job.entries|)|);
      && killed.output == []
      && killed.checkpoint == Some(List(ProvidedAll(job.entries, job), job))
      && Claimed(killed, job) == Completed(NOTHING, job, |job.entries|)
  {
    var n := |job.entries|;
    NothingIsTrusted(job);
    TrustedTarget(NOTHING, job);
    AfterLoop(NOTHING, job);
    LastIsDue(job);
    ThenCheckpoint(NOTHING, LoopWrites(NOTHING, job, n - 1) + EntryWrites(NOTHING, job, n),
                   Rows(NOTHING, job, n), ProgressAt(NOTHING, job, n));
  }

  /** Tables that are listed alike are alike. */
  lemma ListsAlike(s: map<Key, Row>, t: map<Key, Row>, job: Job)
    requires Sane(job) && WellKeyed(s, job.key) && WellKeyed(t, job.key) && List(s, job) == List(t, job)
    ensures s == t
  {
    TableOfListing(s, job.key, job.less);
    TableOfListing(t, job.key, job.less);
  }

  lemma OnlyCheckpoint(files: Files, job: Job)
    requires files.output == [] && files.checkpoint.Some?
    ensures ReadTable(files, job) == Table(Filter(files.checkpoint.value, job.inWindow), job.key)
  {
    var t := Table(Filter(files.checkpoint.value, job.inWindow), job.key);
    assert Table(Filter([], job.inWindow), job.key) == map[];
    assert map[] + t == t;
  }

  /** One kill, right after the last progress write, already shows whether the symbols are whole. */
  lemma OneKillDecides(job: Job)
    requires Sound(job) && job.entries != []
    ensures Finished(Killed(NOTHING, job, |LoopWrites(NOTHING, job, |job.entries|)|), job).output
        == List(ProvidedAll(job.entries, job), job)
      <==> SymbolsAreWhole(ProvidedAll(job.entries, job), job.window)
  {
    var all := ProvidedAll(job.entries, job);
    var killed := Killed(NOTHING, job, |LoopWrites(NOTHING, job, |job.entries|)|);
    LastCheckpoint(job);
    ProvidedAllKeys(job.entries, job);
    ReadBackInRange(all, job);
    OnlyCheckpoint(killed, job);
    ProvidersAreComplete(job, |job.entries|);
    assert job.entries[..|job.entries|] == job.entries;
    RestrictedRestart(all, ReadTable(killed, job), Claimed(killed, job), job.window);
    FinishedFiles(killed, job);
    SofarIsTarget(killed, job);
    SofarIsKeyed(killed, job, |job.entries|);
    if List(Target(killed, job), job) == List(all, job) { ListsAlike(Target(killed, job), all, job); }
  }

  /** However first runs are killed, and however often, a run that is left alone writes all that
      the provider has: exactly when no symbol has bars both inside and outside the range.  A
      bar outside is dropped on reading a file, and its symbol, recorded and present, is not
      downloaded again. */
  lemma RestartIsExactIffSymbolsAreWhole(job: Job)
    requires Sound(job)
    ensures (forall kills: seq<nat> ::
               Finished(AfterRuns(NOTHING, job, kills), job).output == List(ProvidedAll(job.entries, job), job))
      <==> SymbolsAreWhole(ProvidedAll(job.entries, job), job.window)
  {
    var all := ProvidedAll(job.entries, job);
    if SymbolsAreWhole(all, job.window) {
      forall kills: seq<nat> ensures Finished(AfterRuns(NOTHING, job, kills), job).output == List(all, job) {
        var files := AfterRuns(NOTHING, job, kills);
        NothingIsTrusted(job);
        RunsStayTrusted(NOTHING, job, kills);
        TrustedTarget(files, job);
        FinishedFiles(files, job);
      }
    } else {
      OneKillDecides(job);
      var kill := |LoopWrites(NOTHING, job, |job.entries|)|;
      OneKill(job, kill);
      assert Finished(AfterRuns(NOTHING, job, [kill]), job).output != List(all, job);
    }
  }

  lemma OneKill(job: Job, kill: nat)
    requires Sane(job)
    ensures AfterRuns(NOTHING, job, [kill]) == Killed(NOTHING, job, kill)
  {
    assert [kill][..0] == [];
  }
}
