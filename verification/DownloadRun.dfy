/**
 The runs of the downloader.  A full run writes a checkpoint CSV, then a progress
 JSON, again and again, then the output file, and finally removes the checkpoint.
 Each file is replaced atomically, and the process may be killed before any of
 these writes.  Whatever is on disk then, another run must still end with the
 output of a run that was never interrupted.
 */
module DownloadRun {
  import opened Bars
  import opened DatasetCheck
  import opened Downloader
  import opened KeyedRows
  import opened Lists
  import opened Wrappers

  // ---------------------------------------------------------------------
  // The writes of a run

  datatype Write =
    | SymbolFile(rows: seq<Row>, symbol: string)
    | CheckpointFile(rows: seq<Row>)
    | ProgressFile(progress: Progress)
    | OutputFile(rows: seq<Row>)
    | RemoveCheckpoint

  function Apply(files: Files, w: Write): Files {
    match w
    case SymbolFile(rows, symbol) => files.(symbolFiles := WithFile(files.symbolFiles, rows, symbol))
    case CheckpointFile(rows) => files.(checkpoint := Some(rows))
    case ProgressFile(progress) => files.(progress := Some(progress))
    case OutputFile(rows) => files.(output := rows)
    case RemoveCheckpoint => files.(checkpoint := None)
  }

  function ApplyAll(files: Files, ws: seq<Write>): Files {
    if ws == [] then files else Apply(ApplyAll(files, ws[..|ws| - 1]), ws[|ws| - 1])
  }

  /** changed_since_checkpoint after the first `i` entries. */
  function Changed(start: Files, job: Job, i: nat): int
    requires i <= |job.entries|
    decreases i, 0
  {
    if i == 0 then 0
    else if job.entries[i - 1].symbol in Done(start, job) then Changed(start, job, i - 1)
    else if Due(start, job, i) then 0
    else Changed(start, job, i - 1) + 1
  }

  /** A checkpoint is due after entry number `i`, if that was downloaded. */
  predicate Due(start: Files, job: Job, i: nat)
    requires 0 < i <= |job.entries|
    decreases i - 1, 1
  {
    Changed(start, job, i - 1) + 1 >= job.every || i == |job.entries|
  }

  /** What is in memory, and written down, after the first `i` entries. */
  ghost function Rows(start: Files, job: Job, i: nat): seq<Row>
    requires Sane(job) && i <= |job.entries|
  {
    List(Sofar(start, job, i), job)
  }

  function ProgressAt(start: Files, job: Job, i: nat): Progress
    requires i <= |job.entries|
  {
    Progress(job.stamp, Completed(start, job, i), Failed(start, job, i))
  }

  ghost function EntryWrites(start: Files, job: Job, i: nat): seq<Write>
    requires Sane(job) && 0 < i <= |job.entries|
  {
    if DownloadRows(job.entries[i - 1], job) == [] then []
    else [SymbolFile(Rows(start, job, i), job.entries[i - 1].symbol)]
  }

  ghost function CheckpointWrites(start: Files, job: Job, i: nat): seq<Write>
    requires Sane(job) && 0 < i <= |job.entries|
  {
    if Due(start, job, i) then [CheckpointFile(Rows(start, job, i)), ProgressFile(ProgressAt(start, job, i))] else []
  }

  /** The writes for entry number `i`; the skip of a complete symbol also skips its checkpoint. */
  ghost function StepWrites(start: Files, job: Job, i: nat): seq<Write>
    requires Sane(job) && 0 < i <= |job.entries|
  {
    if job.entries[i - 1].symbol in Done(start, job) then []
    else EntryWrites(start, job, i) + CheckpointWrites(start, job, i)
  }

  ghost function Steps(start: Files, job: Job): nat -> seq<Write>
    requires Sane(job)
  {
    (i: nat) => if i < |job.entries| then StepWrites(start, job, i + 1) else []
  }

  /** What the first `n` steps do. */
  ghost function Through<T>(step: nat -> seq<T>, n: nat): seq<T> {
    if n == 0 then [] else Through(step, n - 1) + step(n - 1)
  }

  ghost function LoopWrites(start: Files, job: Job, i: nat): seq<Write>
    requires Sane(job) && i <= |job.entries|
  {
    Through(Steps(start, job), i)
  }

  function SymbolWrites(rows: seq<Row>, entries: seq<Entry>): (ws: seq<Write>)
    ensures |ws| == |entries|
  {
    seq(|entries|, i requires 0 <= i < |entries| => SymbolFile(rows, entries[i].symbol))
  }

  /** Output, symbol files, and the removal of the checkpoint once the output validates. */
  ghost function FinalWrites(rows: seq<Row>, job: Job): seq<Write> {
    [OutputFile(rows)] + SymbolWrites(rows, job.entries) +
    if WellFormed(rows, Symbols(job.entries), job.rules, job.less) then [RemoveCheckpoint] else []
  }

  ghost function Writes(start: Files, job: Job): seq<Write>
    requires Sane(job)
  {
    LoopWrites(start, job, |job.entries|) + FinalWrites(Rows(start, job, |job.entries|), job)
  }

  /** The files after a run that was killed before write number `n`, or finished if it has fewer. */
  ghost function Killed(files: Files, job: Job, n: nat): Files
    requires Sane(job)
  {
    var ws := Writes(files, job);
    ApplyAll(files, if n < |ws| then ws[..n] else ws)
  }

  ghost function Finished(files: Files, job: Job): Files
    requires Sane(job)
  {
    ApplyAll(files, Writes(files, job))
  }

  /** The files after one run for each of `kills`. */
  ghost function AfterRuns(files: Files, job: Job, kills: seq<nat>): Files
    requires Sane(job)
  {
    if kills == [] then files else Killed(AfterRuns(files, job, kills[..|kills| - 1]), job, kills[|kills| - 1])
  }

  lemma OneMoreRun(files: Files, job: Job, kills: seq<nat>, i: nat)
    requires Sane(job) && i < |kills|
    ensures AfterRuns(files, job, kills[..i + 1]) == Killed(AfterRuns(files, job, kills[..i]), job, kills[i])
  {
    assert kills[..i + 1][..i] == kills[..i];
  }

  lemma {:induction false} ApplyConcat(files: Files, a: seq<Write>, b: seq<Write>)
    ensures ApplyAll(files, a + b) == ApplyAll(ApplyAll(files, a), b)
  {
    if b == [] {
      assert a + b == a;
    } else {
      assert (a + b)[..|a + b| - 1] == a + b[..|b| - 1];
      ApplyConcat(files, a, b[..|b| - 1]);
    }
  }

  /** A prefix of two runs of writes ends in the first or in the second. */
  lemma ApplyPrefix(files: Files, a: seq<Write>, b: seq<Write>, m: nat)
    requires m <= |a| + |b|
    ensures m <= |a| ==> (a + b)[..m] == a[..m]
    ensures m >= |a| ==> ApplyAll(files, (a + b)[..m]) == ApplyAll(ApplyAll(files, a), b[..m - |a|])
    ensures a[..|a|] == a
  {
    if m >= |a| {
      assert (a + b)[..m] == a + b[..m - |a|];
      ApplyConcat(files, a, b[..m - |a|]);
    }
  }

  lemma NextThrough<T>(step: nat -> seq<T>, n: nat, next: seq<T>)
    requires next == step(n)
    ensures Through(step, n + 1) == Through(step, n) + next
  {}

  lemma NextWrites(start: Files, job: Job, i: nat)
    requires Sane(job) && 0 < i <= |job.entries|
    ensures LoopWrites(start, job, i) == LoopWrites(start, job, i - 1) + StepWrites(start, job, i)
  {
    NextThrough(Steps(start, job), i - 1, StepWrites(start, job, i));
  }

  lemma {:induction false} ThroughGrows<T>(step: nat -> seq<T>, i: nat, n: nat)
    requires i <= n
    ensures Through(step, i) <= Through(step, n)
  {
    if i < n {
      ThroughGrows(step, i, n - 1);
    }
  }

  // ---------------------------------------------------------------------
  // The run itself

  /** The run has done the writes `done`, and is not killed before the next one is due. */
  ghost predicate Alive(start: Files, now: Files, done: seq<Write>, crash: Option<nat>) {
    now == ApplyAll(start, done) && (crash.None? || crash.value >= |done|)
  }

  /** The run was to do `more` writes: it has done them all, or was killed before one of them. */
  ghost predicate Outcome(start: Files, now: Files, done: seq<Write>, more: seq<Write>, crash: Option<nat>,
                          alive: bool) {
    if alive then Alive(start, now, done + more, crash)
    else
      crash.Some? && |done| <= crash.value < |done + more| && now == ApplyAll(start, (done + more)[..crash.value])
  }

  lemma OutcomeThen(start: Files, middle: Files, now: Files, done: seq<Write>, first: seq<Write>, second: seq<Write>,
                    crash: Option<nat>, alive: bool)
    requires Outcome(start, middle, done, first, crash, true) && Outcome(start, now, done + first, second, crash, alive)
    ensures Outcome(start, now, done, first + second, crash, alive)
  {
    assert done + (first + second) == done + first + second;
  }

  lemma OutcomeCut(start: Files, now: Files, done: seq<Write>, first: seq<Write>, second: seq<Write>,
                   crash: Option<nat>)
    requires Outcome(start, now, done, first, crash, false)
    ensures Outcome(start, now, done, first + second, crash, false)
  {
    assert (done + (first + second))[..crash.value] == (done + first)[..crash.value];
  }

  lemma OutcomeNone(start: Files, now: Files, done: seq<Write>, crash: Option<nat>)
    requires Alive(start, now, done, crash)
    ensures Outcome(start, now, done, [], crash, true)
  {
    assert done + [] == done;
  }

  class Disk {
    var output: seq<Row>
    var checkpoint: Option<seq<Row>>
    var progress: Option<Progress>
    var symbolFiles: map<string, seq<Row>>

    ghost function Contents(): Files
      reads this
    {
      Files(output, checkpoint, progress, symbolFiles)
    }

    /** One atomic write, unless the process is killed before it. */
    method Perform(w: Write, crash: Option<nat>, writes: nat, ghost start: Files,
                   ghost done: seq<Write>) returns (alive: bool)
      requires Alive(start, Contents(), done, crash) && writes == |done|
      modifies this
      ensures Outcome(start, Contents(), done, [w], crash, alive)
    {
      assert (done + [w])[..|done|] == done;
      if crash == Some(writes) { return false; }
      match w {
        case SymbolFile(rows, symbol) =>
          var own := RowsForSymbol(rows, symbol);
          if own != [] {
            symbolFiles := symbolFiles[symbol := own];
          }
        case CheckpointFile(rows) => checkpoint := Some(rows);
        case ProgressFile(p) => progress := Some(p);
        case OutputFile(rows) => output := rows;
        case RemoveCheckpoint => checkpoint := None;
      }
      alive := true;
    }

    /** The rows on disk, and the symbols that need no download. */
    method ReadFiles(job: Job) returns (merged: seq<Row>, completed: set<string>, failed: map<string, string>)
      requires Sane(job)
      ensures merged == List(ReadTable(Contents(), job), job)
      ensures completed == Done(Contents(), job) && failed == Recorded(Contents(), job)
    {
      var existingRows := Filter(output, job.inWindow);
      var checkpointRows := Filter(if checkpoint.Some? then checkpoint.value else [], job.inWindow);
      merged := MergeRows(existingRows, checkpointRows, job.key, job.less);

      completed, failed := {}, map[];
      if progress.Some? && progress.value.stamp == job.stamp {
        completed, failed := progress.value.completed, progress.value.failed;
      }
      var symbolsWithRows := set i | 0 <= i < |merged| :: job.symbolOf(merged[i]);
      ReadTickers(Contents(), job);
      completed := completed * symbolsWithRows;
    }

    /** The checkpoint CSV, then the progress JSON, if they are due. */
    method WriteCheckpoint(job: Job, ghost start: Files, i: nat, merged: seq<Row>, completed: set<string>,
                           failed: map<string, string>,
                           changed0: int, crash: Option<nat>, writes0: nat, ghost done: seq<Write>)
      returns (alive: bool, changed: int, writes: nat)
      requires Sane(job) && 0 < i <= |job.entries| && job.entries[i - 1].symbol !in Done(start, job)
      requires Memory(start, job, i, merged, completed, failed) && changed0 == Changed(start, job, i - 1)
      requires Alive(start, Contents(), done, crash) && writes0 == |done|
      modifies this
      ensures Outcome(start, Contents(), done, CheckpointWrites(start, job, i), crash, alive)
      ensures alive ==> changed == Changed(start, job, i) && writes == |done| + |CheckpointWrites(start, job, i)|
    {
      changed, writes, alive := changed0 + 1, writes0, true;
      if changed >= job.every || i == |job.entries| {
        ghost var first := [CheckpointFile(merged)];
        ghost var second := [ProgressFile(ProgressAt(start, job, i))];
        assert CheckpointWrites(start, job, i) == first + second;
        alive := Perform(CheckpointFile(merged), crash, writes, start, done);
        if !alive {
          OutcomeCut(start, Contents(), done, first, second, crash);
          return;
        }
        ghost var middle := Contents();
        alive := Perform(ProgressFile(Progress(job.stamp, completed, failed)), crash, writes + 1, start, done + first);
        OutcomeThen(start, middle, Contents(), done, first, second, crash, alive);
        changed, writes := 0, writes + 2;
      } else {
        OutcomeNone(start, Contents(), done, crash);
      }
    }

    /** One download in memory: its rows are merged and its symbol is recorded. */
    static method MergeEntry(job: Job, ghost start: Files, i: nat, merged0: seq<Row>, completed0: set<string>,
                             failed0: map<string, string>)
      returns (ok: bool, merged: seq<Row>, completed: set<string>, failed: map<string, string>)
      requires Sound(job) && 0 < i <= |job.entries| && job.entries[i - 1].symbol !in Done(start, job)
      requires Memory(start, job, i - 1, merged0, completed0, failed0)
      ensures Memory(start, job, i, merged, completed, failed)
      ensures ok <==> DownloadRows(job.entries[i - 1], job) != []
    {
      ok, merged := MergeDownload(job, start, i, merged0);
      completed, failed := Record(job, start, i, completed0, failed0);
    }

    static method MergeDownload(job: Job, ghost start: Files, i: nat, merged0: seq<Row>) returns (ok: bool,
                                merged: seq<Row>)
      requires Sound(job) && 0 < i <= |job.entries| && job.entries[i - 1].symbol !in Done(start, job)
      requires merged0 == Rows(start, job, i - 1)
      ensures merged == Rows(start, job, i)
      ensures ok <==> DownloadRows(job.entries[i - 1], job) != []
    {
      var rows := DownloadSymbolRows(job.entries[i - 1], job);
      MergeStep(start, job, i);
      ok, merged := rows != [], merged0;
      if ok {
        merged := MergeRows(merged, rows, job.key, job.less);
      }
    }

    /** A symbol with rows or without data is complete; a refused one is recorded as failed. */
    static method Record(job: Job, ghost start: Files, i: nat, completed0: set<string>, failed0: map<string, string>)
      returns (completed: set<string>, failed: map<string, string>)
      requires 0 < i <= |job.entries| && job.entries[i - 1].symbol !in Done(start, job)
      requires completed0 == Completed(start, job, i - 1) && failed0 == Failed(start, job, i - 1)
      ensures completed == Completed(start, job, i) && failed == Failed(start, job, i)
    {
      completed, failed := completed0, failed0;
      var symbol := job.entries[i - 1].symbol;
      match job.fetch(symbol)
      case Aggregates(_) =>
        completed := completed + {symbol};
        failed := failed - {symbol};
      case Refused(error) =>
        failed := failed[symbol := error];
    }

    /** One download: the rows are merged into memory and the symbol's file is written. */
    method DownloadEntry(job: Job, ghost start: Files, i: nat, merged0: seq<Row>, completed0: set<string>,
                         failed0: map<string, string>, crash: Option<nat>, writes0: nat, ghost done: seq<Write>)
      returns (alive: bool, merged: seq<Row>, completed: set<string>, failed: map<string, string>, writes: nat)
      requires Sound(job) && 0 < i <= |job.entries| && job.entries[i - 1].symbol !in Done(start, job)
      requires Memory(start, job, i - 1, merged0, completed0, failed0)
      requires Alive(start, Contents(), done, crash) && writes0 == |done|
      modifies this
      ensures Outcome(start, Contents(), done, EntryWrites(start, job, i), crash, alive)
      ensures alive ==> Memory(start, job, i, merged, completed, failed)
      ensures alive ==> writes == |done| + |EntryWrites(start, job, i)|
    {
      var ok;
      ok, merged, completed, failed := MergeEntry(job, start, i, merged0, completed0, failed0);
      writes, alive := writes0, true;
      if ok {
        alive := Perform(SymbolFile(merged, job.entries[i - 1].symbol), crash, writes, start, done);
        writes := writes + 1;
      } else {
        OutcomeNone(start, Contents(), done, crash);
      }
    }

    /** The loop body for an entry that is not complete. */
    method DownloadNext(job: Job, ghost start: Files, i: nat, merged0: seq<Row>, completed0: set<string>,
                        failed0: map<string, string>, changed0: int, crash: Option<nat>, writes0: nat,
                        ghost done: seq<Write>)
      returns (alive: bool, merged: seq<Row>, completed: set<string>, failed: map<string, string>, changed: int,
               writes: nat)
      requires Sound(job) && 0 < i <= |job.entries| && job.entries[i - 1].symbol !in Done(start, job)
      requires Memory(start, job, i - 1, merged0, completed0, failed0) && changed0 == Changed(start, job, i - 1)
      requires Alive(start, Contents(), done, crash) && writes0 == |done|
      modifies this
      ensures Outcome(start, Contents(), done, StepWrites(start, job, i), crash, alive)
      ensures alive ==> Memory(start, job, i, merged, completed, failed) && changed == Changed(start, job, i)
      ensures alive ==> writes == |done| + |StepWrites(start, job, i)|
    {
      ghost var (first, second) := (EntryWrites(start, job, i), CheckpointWrites(start, job, i));
      changed := changed0;
      alive, merged, completed, failed, writes :=
        DownloadEntry(job, start, i, merged0, completed0, failed0, crash, writes0, done);
      if !alive {
        OutcomeCut(start, Contents(), done, first, second, crash);
        return;
      }
      ghost var middle := Contents();
      alive, changed, writes :=
        WriteCheckpoint(job, start, i, merged, completed, failed, changed0, crash, writes, done + first);
      OutcomeThen(start, middle, Contents(), done, first, second, crash, alive);
    }

    /** The loop body. */
    method DownloadTurn(job: Job, ghost start: Files, i: nat, merged0: seq<Row>, completed0: set<string>,
                        failed0: map<string, string>, changed0: int, crash: Option<nat>, writes0: nat,
                        ghost done: seq<Write>)
      returns (alive: bool, merged: seq<Row>, completed: set<string>, failed: map<string, string>, changed: int,
               writes: nat)
      requires Sound(job) && 0 < i <= |job.entries|
      requires Memory(start, job, i - 1, merged0, completed0, failed0) && changed0 == Changed(start, job, i - 1)
      requires Alive(start, Contents(), done, crash) && writes0 == |done|
      modifies this
      ensures Outcome(start, Contents(), done, StepWrites(start, job, i), crash, alive)
      ensures alive ==> Memory(start, job, i, merged, completed, failed) && changed == Changed(start, job, i)
      ensures alive ==> writes == |done| + |StepWrites(start, job, i)|
    {
      SymbolIsSettled(start, job, i - 1);
      if job.entries[i - 1].symbol in completed0 {
        Skipped(start, job, i - 1, merged0, completed0, failed0);
        SkippedWrites(start, Contents(), job, i, done, crash);
        return true, merged0, completed0, failed0, changed0, writes0;
      }
      alive, merged, completed, failed, changed, writes :=
        DownloadNext(job, start, i, merged0, completed0, failed0, changed0, crash, writes0, done);
    }

    /** The loop over the entries. */
    method DownloadAll(job: Job, crash: Option<nat>) returns (alive: bool, merged: seq<Row>, writes: nat)
      requires Sound(job)
      modifies this
      ensures Outcome(old(Contents()), Contents(), [], LoopWrites(old(Contents()), job, |job.entries|), crash, alive)
      ensures alive ==> merged == Rows(old(Contents()), job, |job.entries|)
      ensures alive ==> writes == |LoopWrites(old(Contents()), job, |job.entries|)|
    {
      ghost var start := Contents();
      var completed, failed;
      merged, completed, failed := ReadFiles(job);
      var changed;
      alive, changed, writes := true, 0, 0;
      InitialMemory(start, job);
      for i := 0 to |job.entries|
        invariant Memory(start, job, i, merged, completed, failed) && changed == Changed(start, job, i)
        invariant Alive(start, Contents(), LoopWrites(start, job, i), crash) && writes == |LoopWrites(start, job, i)|
      {
        alive, merged, completed, failed, changed, writes :=
          DownloadTurn(job, start, i + 1, merged, completed, failed, changed, crash, writes, LoopWrites(start, job, i));
        if !alive {
          KilledInLoop(start, Contents(), job, i + 1, crash);
          return;
        }
        StepDone(start, Contents(), job, i, crash);
      }
      LoopDone(start, Contents(), job, crash);
      alive := true;
    }

    /** write_symbol_files for the whole universe. */
    method WriteSymbolFiles(rows: seq<Row>, entries: seq<Entry>, crash: Option<nat>, writes0: nat, ghost start: Files,
                            ghost done: seq<Write>)
      returns (alive: bool, writes: nat)
      requires Alive(start, Contents(), done, crash) && writes0 == |done|
      modifies this
      ensures Outcome(start, Contents(), done, SymbolWrites(rows, entries), crash, alive)
      ensures alive ==> writes == |done| + |entries|
    {
      writes := writes0;
      ghost var ws := SymbolWrites(rows, entries);
      assert done + ws[..0] == done;
      for i := 0 to |entries|
        invariant Alive(start, Contents(), done + ws[..i], crash) && writes == |done| + i
      {
        alive := Perform(SymbolFile(rows, entries[i].symbol), crash, writes, start, done + ws[..i]);
        assert done + ws[..i + 1] == done + ws[..i] + [ws[i]];
        if !alive {
          assert (done + ws)[..crash.value] == (done + ws[..i + 1])[..crash.value];
          return;
        }
        writes := writes + 1;
      }
      assert ws[..|entries|] == ws;
      alive := true;
    }

    /** Output file, symbol files, and the removal of the checkpoint once the output validates. */
    method Publish(job: Job, merged: seq<Row>, crash: Option<nat>, writes0: nat, ghost start: Files,
                   ghost done: seq<Write>)
      returns (alive: bool)
      requires Sound(job) && merged == Rows(start, job, |job.entries|)
      requires Alive(start, Contents(), done, crash) && writes0 == |done|
      modifies this
      ensures Outcome(start, Contents(), done, FinalWrites(merged, job), crash, alive)
    {
      RowsAreListed(start, job);
      var finalRows := MergeRows([], merged, job.key, job.less);
      var passed := Passes(finalRows, Symbols(job.entries), job.rules, job.less);
      ghost var (first, second) := ([OutputFile(finalRows)], SymbolWrites(finalRows, job.entries));
      ghost var third := if passed then [RemoveCheckpoint] else [];
      assert FinalWrites(merged, job) == first + second + third;

      alive := Perform(OutputFile(finalRows), crash, writes0, start, done);
      if !alive {
        OutcomeCut(start, Contents(), done, first, second, crash);
        OutcomeCut(start, Contents(), done, first + second, third, crash);
        return;
      }
      ghost var middle := Contents();
      var writes;
      alive, writes := WriteSymbolFiles(finalRows, job.entries, crash, writes0 + 1, start, done + first);
      OutcomeThen(start, middle, Contents(), done, first, second, crash, alive);
      if !alive {
        OutcomeCut(start, Contents(), done, first + second, third, crash);
        return;
      }
      middle := Contents();
      if passed {
        alive := Perform(RemoveCheckpoint, crash, writes, start, done + (first + second));
      } else {
        OutcomeNone(start, Contents(), done + (first + second), crash);
      }
      OutcomeThen(start, middle, Contents(), done, first + second, third, crash, alive);
    }

    /** run_full_download, killed before write number `crash` (never, when None). */
    method RunFullDownload(job: Job, crash: Option<nat>) returns (finished: bool)
      requires Sound(job)
      modifies this
      ensures finished <==> crash.None? || crash.value >= |Writes(old(Contents()), job)|
      ensures Contents() ==
        if crash.Some? then Killed(old(Contents()), job, crash.value) else Finished(old(Contents()), job)
    {
      ghost var start := Contents();
      ghost var (first, second) :=
        (LoopWrites(start, job, |job.entries|), FinalWrites(Rows(start, job, |job.entries|), job));
      assert [] + (first + second) == Writes(start, job) && [] + first == first;
      var alive, merged, writes := DownloadAll(job, crash);
      if !alive {
        OutcomeCut(start, Contents(), [], first, second, crash);
        return false;
      }
      ghost var middle := Contents();
      finished := Publish(job, merged, crash, writes, start, first);
      OutcomeThen(start, middle, Contents(), [], first, second, crash, finished);
    }

    /** Runs that are killed at the given writes, then one run that is left alone, with a
        provider that perhaps answers what it refused before. */
    method RunUntilDone(job: Job, kills: seq<nat>, last: Job)
      requires Sound(job) && Sound(last) && Recovers(job, last)
      modifies this
      ensures Contents() == Finished(AfterRuns(old(Contents()), job, kills), last)
      ensures Runnable(last) ==> output == List(Target(old(Contents()), last), last)
      ensures FilesHold(symbolFiles, output, last.entries)
    {
      ghost var start := Contents();
      assert kills[..|kills|] == kills;
      for i := 0 to |kills|
        invariant Contents() == AfterRuns(start, job, kills[..i])
      {
        var finished := RunFullDownload(job, Some(kills[i]));
        OneMoreRun(start, job, kills, i);
      }
      RunsEnd(start, job, kills, last);
      var finished := RunFullDownload(last, None);
    }
  }

  /** What is held in memory after the first `i` entries. */
  ghost predicate Memory(start: Files, job: Job, i: nat, merged: seq<Row>, completed: set<string>, failed: map<string,
                         string>)
    requires Sane(job) && i <= |job.entries|
  {
    merged == Rows(start, job, i) && completed == Completed(start, job, i) && failed == Failed(start, job, i)
  }

  /** One merge in memory is one override of the table. */
  lemma RowsStep(before: map<Key, Row>, after: map<Key, Row>, entry: Entry, job: Job)
    requires Sane(job) && WellKeyed(before, job.key) && after == before + Provided(entry, job)
    ensures Merged(List(before, job), List(after, job), entry, job)
  {
    TableOfListing(before, job.key, job.less);
    if DownloadRows(entry, job) == [] { NoRows(before, job); }
  }

  /** The rows of an entry have been merged into the rows in memory. */
  ghost predicate Merged(before: seq<Row>, after: seq<Row>, entry: Entry, job: Job)
    requires Sane(job)
  {
    var rows := DownloadRows(entry, job);
    after == Merge(before, rows, job.key, job.less) && (rows == [] ==> after == before)
  }

  lemma NextMerge(start: Files, job: Job, i: nat, before: map<Key, Row>, after: map<Key, Row>, entry: Entry)
    requires Sound(job) && i < |job.entries| && entry == job.entries[i] && entry.symbol !in Done(start, job)
    requires before == Sofar(start, job, i) && after == Sofar(start, job, i + 1)
    ensures Merged(List(before, job), List(after, job), entry, job)
  {
    NextEntry(start, job, i);
    SofarIsKeyed(start, job, i);
    RowsStep(before, after, entry, job);
  }

  lemma MergeStep(start: Files, job: Job, i: nat)
    requires Sound(job) && 0 < i <= |job.entries| && job.entries[i - 1].symbol !in Done(start, job)
    ensures Merged(Rows(start, job, i - 1), Rows(start, job, i), job.entries[i - 1], job)
  {
    NextMerge(start, job, i - 1, Sofar(start, job, i - 1), Sofar(start, job, i), job.entries[i - 1]);
  }

  /** A kill in the loop is a kill among the writes of the whole loop. */
  lemma KilledInLoop(start: Files, now: Files, job: Job, i: nat, crash: Option<nat>)
    requires Sane(job) && 0 < i <= |job.entries|
    requires Outcome(start, now, LoopWrites(start, job, i - 1), StepWrites(start, job, i), crash, false)
    ensures Outcome(start, now, [], LoopWrites(start, job, |job.entries|), crash, false)
  {
    NextWrites(start, job, i);
    ThroughGrows(Steps(start, job), i, |job.entries|);
    CutEarlier(start, now, LoopWrites(start, job, i), LoopWrites(start, job, |job.entries|), crash);
  }

  lemma CutEarlier(start: Files, now: Files, some: seq<Write>, all: seq<Write>, crash: Option<nat>)
    requires some <= all && crash.Some? && crash.value < |some| && now == ApplyAll(start, some[..crash.value])
    ensures Outcome(start, now, [], all, crash, false)
  {
    assert [] + all == all && all[..crash.value] == some[..crash.value];
  }

  /** A symbol that needs no download changes nothing in memory and writes nothing. */
  lemma Skipped(start: Files, job: Job, i: nat, merged: seq<Row>, completed: set<string>, failed: map<string, string>)
    requires Sound(job) && i < |job.entries| && job.entries[i].symbol in Done(start, job)
    requires Memory(start, job, i, merged, completed, failed)
    ensures Memory(start, job, i + 1, merged, completed, failed) && Changed(start, job, i + 1) == Changed(start, job, i)
  {
    NextEntry(start, job, i);
  }

  lemma SkippedWrites(start: Files, now: Files, job: Job, i: nat, done: seq<Write>, crash: Option<nat>)
    requires Sane(job) && 0 < i <= |job.entries| && job.entries[i - 1].symbol in Done(start, job)
    requires Alive(start, now, done, crash)
    ensures Outcome(start, now, done, StepWrites(start, job, i), crash, true) && StepWrites(start, job, i) == []
  {
    OutcomeNone(start, now, done, crash);
  }

  /** A run before its first entry. */
  lemma InitialMemory(start: Files, job: Job)
    requires Sane(job)
    ensures Memory(start, job, 0, List(ReadTable(start, job), job), Done(start, job), Recorded(start, job))
    ensures Changed(start, job, 0) == 0 && LoopWrites(start, job, 0) == []
  {
    SofarStart(start, job);
  }

  /** A step that was not killed. */
  lemma StepDone(start: Files, now: Files, job: Job, i: nat, crash: Option<nat>)
    requires Sane(job) && i < |job.entries|
    requires Outcome(start, now, LoopWrites(start, job, i), StepWrites(start, job, i + 1), crash, true)
    ensures Alive(start, now, LoopWrites(start, job, i + 1), crash)
    ensures |LoopWrites(start, job, i + 1)| == |LoopWrites(start, job, i)| + |StepWrites(start, job, i + 1)|
  {
    NextWrites(start, job, i + 1);
  }

  lemma LoopDone(start: Files, now: Files, job: Job, crash: Option<nat>)
    requires Sane(job) && Alive(start, now, LoopWrites(start, job, |job.entries|), crash)
    ensures Outcome(start, now, [], LoopWrites(start, job, |job.entries|), crash, true)
  {
    assert [] + LoopWrites(start, job, |job.entries|) == LoopWrites(start, job, |job.entries|);
  }

  lemma RowsAreListed(start: Files, job: Job)
    requires Sound(job)
    ensures Merge([], Rows(start, job, |job.entries|), job.key, job.less) == Rows(start, job, |job.entries|)
  {
    SofarIsTarget(start, job);
    TargetIsListed(start, job);
  }

  // ---------------------------------------------------------------------
  // What can be on disk after a run

  /** The checkpoint is that of the first `i` entries, and of the symbols asked for only those that
      were answered among them are claimed to be complete. */
  ghost predicate Checkpointed(start: Files, now: Files, job: Job, i: nat)
    requires Sane(job)
  {
    && i <= |job.entries| && now.checkpoint == Some(Rows(start, job, i))
    && Done(start, job) <= Claimed(now, job) <= Claimed(start, job) + Answered(job, i)
  }

  /** Somewhere in the loop, at entry number `n` at most. */
  ghost predicate Midway(start: Files, now: Files, job: Job, n: nat)
    requires Sane(job)
  {
    && now.output == start.output
    && ((now.checkpoint == start.checkpoint && now.progress == start.progress)
        || exists i: nat :: i <= n && Checkpointed(start, now, job, i))
  }

  /** The output has been written. */
  ghost predicate Published(start: Files, now: Files, job: Job)
    requires Sane(job)
  {
    now.output == Rows(start, job, |job.entries|) && Midway(start, now.(output := start.output), job, |job.entries|)
  }

  /** Everything that one run which started on `start`, killed or not, can leave on disk. */
  ghost predicate Reached(start: Files, now: Files, job: Job)
    requires Sane(job)
  {
    || Midway(start, now, job, |job.entries|)
    || Published(start, now, job)
    || exists before :: Published(start, before, job) && now == before.(checkpoint := None)
  }

  lemma StartIsMidway(start: Files, job: Job, n: nat)
    requires Sane(job)
    ensures Midway(start, start, job, n)
  {}

  /** Only the checkpoint and the claims count. */
  lemma CheckpointedAlike(start: Files, now: Files, next: Files, job: Job, i: nat)
    requires Sane(job) && Checkpointed(start, now, job, i)
    requires next.checkpoint == now.checkpoint && next.progress == now.progress
    ensures Checkpointed(start, next, job, i)
  {
    assert Claimed(next, job) == Claimed(now, job);
  }

  /** Symbol files do not count. */
  lemma MidwayAlike(start: Files, now: Files, next: Files, job: Job, n: nat)
    requires Sane(job) && Midway(start, now, job, n)
    requires next.output == now.output && next.checkpoint == now.checkpoint && next.progress == now.progress
    ensures Midway(start, next, job, n)
  {
    if !(now.checkpoint == start.checkpoint && now.progress == start.progress) {
      var i: nat :| i <= n && Checkpointed(start, now, job, i);
      CheckpointedAlike(start, now, next, job, i);
    }
  }

  lemma MidwayClaims(start: Files, now: Files, job: Job, n: nat)
    requires Sane(job) && n <= |job.entries| && Midway(start, now, job, n)
    ensures Done(start, job) <= Claimed(now, job) <= Claimed(start, job) + Answered(job, n)
  {
    if now.checkpoint == start.checkpoint && now.progress == start.progress {
    } else {
      var i: nat :| i <= n && Checkpointed(start, now, job, i);
      assert Answered(job, i) <= Answered(job, n);
    }
  }

  lemma CheckpointIsMidway(start: Files, now: Files, job: Job, n: nat)
    requires Sane(job) && 0 < n <= |job.entries| && Midway(start, now, job, n)
    ensures Midway(start, Apply(now, CheckpointFile(Rows(start, job, n))), job, n)
  {
    MidwayClaims(start, now, job, n);
    assert Checkpointed(start, Apply(now, CheckpointFile(Rows(start, job, n))), job, n);
  }

  lemma ProgressIsMidway(start: Files, now: Files, job: Job, n: nat)
    requires Sane(job) && 0 < n <= |job.entries| && Midway(start, now, job, n)
    requires now.checkpoint == Some(Rows(start, job, n))
    ensures Midway(start, Apply(now, ProgressFile(ProgressAt(start, job, n))), job, n)
  {
    CompletedMeans(start, job, n);
    assert Checkpointed(start, Apply(now, ProgressFile(ProgressAt(start, job, n))), job, n);
  }

  lemma NoWrites(files: Files, w: Write)
    ensures ApplyAll(files, []) == files && ApplyAll(files, [w]) == Apply(files, w)
  {
    assert [w][..0] == [];
  }

  /** Any part of the writes for one entry. */
  lemma StepIsMidway(start: Files, now: Files, job: Job, n: nat, m: nat)
    requires Sane(job) && 0 < n <= |job.entries| && Midway(start, now, job, n) && m <= |StepWrites(start, job, n)|
    ensures Midway(start, ApplyAll(now, StepWrites(start, job, n)[..m]), job, n)
  {
    if job.entries[n - 1].symbol !in Done(start, job) {
      PartIsMidway(start, now, job, n, m, EntryWrites(start, job, n), CheckpointWrites(start, job, n));
    }
  }

  lemma PartIsMidway(start: Files, now: Files, job: Job, n: nat, m: nat, first: seq<Write>, second: seq<Write>)
    requires Sane(job) && 0 < n <= |job.entries| && Midway(start, now, job, n) && m <= |first| + |second|
    requires first == EntryWrites(start, job, n) && second == CheckpointWrites(start, job, n)
    ensures Midway(start, ApplyAll(now, (first + second)[..m]), job, n)
  {
    ApplyPrefix(now, first, second, m);
    if m <= |first| {
      EntryIsMidway(start, now, job, n, m);
    } else {
      EntryIsMidway(start, now, job, n, |first|);
      DueIsMidway(start, ApplyAll(now, first), job, n, m - |first|);
    }
  }

  lemma EntryIsMidway(start: Files, now: Files, job: Job, n: nat, m: nat)
    requires Sane(job) && 0 < n <= |job.entries| && Midway(start, now, job, n) && m <= |EntryWrites(start, job, n)|
    ensures Midway(start, ApplyAll(now, EntryWrites(start, job, n)[..m]), job, n)
  {
    if m > 0 {
      var w := SymbolFile(Rows(start, job, n), job.entries[n - 1].symbol);
      assert EntryWrites(start, job, n)[..m] == [w];
      NoWrites(now, w);
      MidwayAlike(start, now, Apply(now, w), job, n);
    }
  }

  lemma TwoWrites(files: Files, v: Write, w: Write, m: nat)
    requires m <= 2
    ensures ApplyAll(files, [v, w][..m]) ==
      if m == 0 then files else if m == 1 then Apply(files, v) else Apply(Apply(files, v), w)
  {
    if m == 1 {
      assert [v, w][..m] == [v];
      NoWrites(files, v);
    } else if m == 2 {
      assert [v, w][..m] == [v] + [w];
      ApplyConcat(files, [v], [w]);
      NoWrites(files, v);
      NoWrites(Apply(files, v), w);
    }
  }

  lemma DueIsMidway(start: Files, now: Files, job: Job, n: nat, m: nat)
    requires Sane(job) && 0 < n <= |job.entries| && Midway(start, now, job, n) && m <= |CheckpointWrites(start, job, n)|
    ensures Midway(start, ApplyAll(now, CheckpointWrites(start, job, n)[..m]), job, n)
  {
    if m > 0 {
      var (first, second) := (CheckpointFile(Rows(start, job, n)), ProgressFile(ProgressAt(start, job, n)));
      assert CheckpointWrites(start, job, n) == [first, second];
      TwoWrites(now, first, second, m);
      CheckpointIsMidway(start, now, job, n);
      if m == 2 { ProgressIsMidway(start, Apply(now, first), job, n); }
    }
  }

  lemma MidwayLater(start: Files, now: Files, job: Job, n: nat)
    requires Sane(job) && 0 < n && Midway(start, now, job, n - 1)
    ensures Midway(start, now, job, n)
  {}

  /** Any part of step `i` leads from the states before it to the states after it. */
  ghost predicate Leads(step: nat -> seq<Write>, states: nat -> iset<Files>, i: nat) {
    forall files, m: nat :: files in states(i) && m <= |step(i)| ==> ApplyAll(files, step(i)[..m]) in states(i + 1)
  }

  lemma {:induction false} ThroughLeads(step: nat -> seq<Write>, states: nat -> iset<Files>, start: Files, n: nat,
                                        m: nat)
    requires start in states(0) && (forall i: nat :: i < n ==> Leads(step, states, i)) && m <= |Through(step, n)|
    ensures ApplyAll(start, Through(step, n)[..m]) in states(n)
  {
    if n > 0 {
      var earlier := Through(step, n - 1);
      var p := if m <= |earlier| then m else |earlier|;
      ThroughLeads(step, states, start, n - 1, p);
      ApplyPrefix(start, earlier, step(n - 1), m);
      var before := ApplyAll(start, earlier[..p]);
      assert Leads(step, states, n - 1);
      assert ApplyAll(before, step(n - 1)[..m - p]) in states(n);
    }
  }

  lemma StepLeads(start: Files, job: Job, states: nat -> iset<Files>, i: nat)
    requires Sane(job) && i < |job.entries| && states == ((n: nat) => iset files: Files | Midway(start, files, job, n))
    ensures Leads(Steps(start, job), states, i)
  {
    var step := Steps(start, job);
    forall files, m: nat | files in states(i) && m <= |step(i)| ensures ApplyAll(files, step(i)[..m]) in states(i + 1) {
      MidwayLater(start, files, job, i + 1);
      StepIsMidway(start, files, job, i + 1, m);
    }
  }

  lemma LoopIsMidway(start: Files, job: Job, n: nat, m: nat)
    requires Sane(job) && n <= |job.entries| && m <= |LoopWrites(start, job, n)|
    ensures Midway(start, ApplyAll(start, LoopWrites(start, job, n)[..m]), job, n)
  {
    var states := (i: nat) => iset files: Files | Midway(start, files, job, i);
    StartIsMidway(start, job, 0);
    forall i: nat | i < n ensures Leads(Steps(start, job), states, i) {
      StepLeads(start, job, states, i);
    }
    ThroughLeads(Steps(start, job), states, start, n, m);
  }

  /** The symbol files of the universe, and nothing else, are written. */
  lemma {:induction false} SymbolWritesWrite(files: Files, rows: seq<Row>, entries: seq<Entry>, m: nat)
    requires m <= |entries|
    ensures ApplyAll(files, SymbolWrites(rows, entries)[..m]) ==
      files.(symbolFiles := WithFiles(files.symbolFiles, rows, entries[..m]))
  {
    var ws := SymbolWrites(rows, entries);
    if m > 0 {
      assert ws[..m][..m - 1] == ws[..m - 1] && ws[..m][m - 1] == SymbolFile(rows, entries[m - 1].symbol);
      assert entries[..m][..m - 1] == entries[..m - 1] && entries[..m][m - 1] == entries[m - 1];
      SymbolWritesWrite(files, rows, entries, m - 1);
    }
  }

  lemma PublishPart(now: Files, rows: seq<Row>, entries: seq<Entry>, m: nat)
    requires 0 < m <= 1 + |entries|
    ensures var next := ApplyAll(now, ([OutputFile(rows)] + SymbolWrites(rows, entries))[..m]);
      next == now.(output := rows, symbolFiles := next.symbolFiles)
  {
    ApplyPrefix(now, [OutputFile(rows)], SymbolWrites(rows, entries), m);
    NoWrites(now, OutputFile(rows));
    FilesPart(Apply(now, OutputFile(rows)), rows, entries, m - 1);
  }

  lemma FilesPart(now: Files, rows: seq<Row>, entries: seq<Entry>, m: nat)
    requires m <= |entries|
    ensures var next := ApplyAll(now, SymbolWrites(rows, entries)[..m]);
      next == now.(symbolFiles := next.symbolFiles)
  {
    var ws := SymbolWrites(rows, entries);
    assert forall i :: 0 <= i < m ==> ws[..m][i] == ws[i];
    OnlySymbolFiles(now, ws[..m]);
  }

  lemma {:induction false} OnlySymbolFiles(files: Files, ws: seq<Write>)
    requires forall i :: 0 <= i < |ws| ==> ws[i].SymbolFile?
    ensures ApplyAll(files, ws) == files.(symbolFiles := ApplyAll(files, ws).symbolFiles)
  {
    if ws != [] {
      OnlySymbolFiles(files, ws[..|ws| - 1]);
    }
  }

  /** Any part of the writes after the loop. */
  lemma FinalPart(now: Files, rows: seq<Row>, entries: seq<Entry>, last: seq<Write>, m: nat)
    requires (last == [] || last == [RemoveCheckpoint]) && 0 < m <= 1 + |entries| + |last|
    ensures var next := ApplyAll(now, ([OutputFile(rows)] + SymbolWrites(rows, entries) + last)[..m]);
      var written := now.(output := rows, symbolFiles := next.symbolFiles);
      next == written || next == written.(checkpoint := None)
  {
    var published := [OutputFile(rows)] + SymbolWrites(rows, entries);
    ApplyPrefix(now, published, last, m);
    if m <= |published| {
      PublishPart(now, rows, entries, m);
    } else {
      PublishPart(now, rows, entries, |published|);
      assert last[..1] == last;
      NoWrites(ApplyAll(now, published), RemoveCheckpoint);
    }
  }

  lemma FinalIsReached(start: Files, now: Files, job: Job, m: nat)
    requires Sane(job) && Midway(start, now, job, |job.entries|)
    requires 0 < m <= |FinalWrites(Rows(start, job, |job.entries|), job)|
    ensures Reached(start, ApplyAll(now, FinalWrites(Rows(start, job, |job.entries|), job)[..m]), job)
  {
    var rows := Rows(start, job, |job.entries|);
    var last: seq<Write> :=
      if WellFormed(rows, Symbols(job.entries), job.rules, job.less) then [RemoveCheckpoint] else [];
    FinalPart(now, rows, job.entries, last, m);
    PublishedBy(start, now, job, ApplyAll(now, FinalWrites(rows, job)[..m]).symbolFiles);
  }

  lemma PublishedBy(start: Files, now: Files, job: Job, symbolFiles: map<string, seq<Row>>)
    requires Sane(job) && Midway(start, now, job, |job.entries|)
    ensures Published(start, now.(output := Rows(start, job, |job.entries|), symbolFiles := symbolFiles), job)
  {
    var published := now.(output := Rows(start, job, |job.entries|), symbolFiles := symbolFiles);
    MidwayAlike(start, now, published.(output := start.output), job, |job.entries|);
  }

  lemma MidwayIsReached(start: Files, now: Files, job: Job)
    requires Sane(job) && Midway(start, now, job, |job.entries|)
    ensures Reached(start, now, job)
  {}

  lemma PartOfLoop(start: Files, job: Job, m: nat, loop: seq<Write>, final: seq<Write>)
    requires Sane(job) && loop == LoopWrites(start, job, |job.entries|) && m <= |loop|
    ensures Reached(start, ApplyAll(start, (loop + final)[..m]), job)
  {
    LoopIsMidway(start, job, |job.entries|, m);
    MidwayIsReached(start, ApplyAll(start, loop[..m]), job);
    assert (loop + final)[..m] == loop[..m];
  }

  lemma PartOfFinal(start: Files, job: Job, m: nat, loop: seq<Write>, final: seq<Write>)
    requires Sane(job) && loop == LoopWrites(start, job, |job.entries|)
    requires final == FinalWrites(Rows(start, job, |job.entries|), job) && |loop| < m <= |loop| + |final|
    ensures Reached(start, ApplyAll(start, (loop + final)[..m]), job)
  {
    LoopIsMidway(start, job, |job.entries|, |loop|);
    ApplyPrefix(start, loop, final, m);
    FinalIsReached(start, ApplyAll(start, loop), job, m - |loop|);
  }

  lemma PartIsReached(start: Files, job: Job, m: nat)
    requires Sane(job) && m <= |Writes(start, job)|
    ensures Reached(start, ApplyAll(start, Writes(start, job)[..m]), job)
  {
    var loop := LoopWrites(start, job, |job.entries|);
    var final := FinalWrites(Rows(start, job, |job.entries|), job);
    if m <= |loop| { PartOfLoop(start, job, m, loop, final); } else { PartOfFinal(start, job, m, loop, final); }
  }

  /** Wherever a run is killed, it leaves one of those states. */
  lemma KilledIsReached(start: Files, job: Job, n: nat)
    requires Sane(job)
    ensures Reached(start, Killed(start, job, n), job)
  {
    var ws := Writes(start, job);
    var m := if n < |ws| then n else |ws|;
    assert ws[..|ws|] == ws;
    PartIsReached(start, job, m);
    assert Killed(start, job, n) == ApplyAll(start, ws[..m]);
  }

  /** Every symbol with rows has a file, which holds exactly those rows. */
  ghost predicate FilesHold(files: map<string, seq<Row>>, rows: seq<Row>, entries: seq<Entry>) {
    forall i :: 0 <= i < |entries| && RowsForSymbol(rows, entries[i].symbol) != [] ==>
      entries[i].symbol in files && files[entries[i].symbol] == RowsForSymbol(rows, entries[i].symbol)
  }

  /** Any other symbol keeps the file it has, or has none. */
  ghost predicate OthersKept(before: map<string, seq<Row>>, files: map<string, seq<Row>>, rows: seq<Row>,
                             entries: seq<Entry>) {
    forall s :: s !in Symbols(entries) || RowsForSymbol(rows, s) == [] ==>
      (s in files <==> s in before) && (s in files ==> files[s] == before[s])
  }

  /** The end of a run that is left alone. */
  lemma FinalFiles(now: Files, rows: seq<Row>, entries: seq<Entry>, last: seq<Write>)
    requires last == [] || last == [RemoveCheckpoint]
    ensures var next := ApplyAll(now, [OutputFile(rows)] + SymbolWrites(rows, entries) + last);
      && next == now.(output := rows, symbolFiles := WithFiles(now.symbolFiles, rows, entries),
                      checkpoint := if last == [] then now.checkpoint else None)
  {
    var published := [OutputFile(rows)] + SymbolWrites(rows, entries);
    ApplyConcat(now, published, last);
    PublishedFiles(now, rows, entries);
    NoWrites(ApplyAll(now, published), RemoveCheckpoint);
  }

  lemma PublishedFiles(now: Files, rows: seq<Row>, entries: seq<Entry>)
    ensures ApplyAll(now, [OutputFile(rows)] + SymbolWrites(rows, entries)) ==
      now.(output := rows, symbolFiles := WithFiles(now.symbolFiles, rows, entries))
  {
    var files := SymbolWrites(rows, entries);
    ApplyConcat(now, [OutputFile(rows)], files);
    NoWrites(now, OutputFile(rows));
    SymbolWritesWrite(now.(output := rows), rows, entries, |entries|);
    assert files[..|entries|] == files && entries[..|entries|] == entries;
  }

  /** A run that is left alone writes every row it holds and every symbol's file, and removes
      the checkpoint when, and only when, its output validates. */
  lemma FinishedFiles(start: Files, job: Job)
    requires Sane(job)
    ensures var (rows, end) := (Rows(start, job, |job.entries|), Finished(start, job));
      var loop := ApplyAll(start, LoopWrites(start, job, |job.entries|));
      && end.output == rows && end.progress == loop.progress
      && FilesHold(end.symbolFiles, rows, job.entries)
      && OthersKept(loop.symbolFiles, end.symbolFiles, rows, job.entries)
      && end.checkpoint ==
           if WellFormed(rows, Symbols(job.entries), job.rules, job.less) then None else loop.checkpoint
  {
    var rows := Rows(start, job, |job.entries|);
    var loop := LoopWrites(start, job, |job.entries|);
    var last: seq<Write> :=
      if WellFormed(rows, Symbols(job.entries), job.rules, job.less) then [RemoveCheckpoint] else [];
    ApplyConcat(start, loop, FinalWrites(rows, job));
    FinalFiles(ApplyAll(start, loop), rows, job.entries, last);
    HasFiles(ApplyAll(start, loop).symbolFiles, rows, job.entries);
    KeepsFiles(ApplyAll(start, loop).symbolFiles, rows, job.entries);
  }

  lemma {:induction false} KeepsFiles(files: map<string, seq<Row>>, rows: seq<Row>, entries: seq<Entry>)
    ensures OthersKept(files, WithFiles(files, rows, entries), rows, entries)
  {
    if entries != [] {
      var n := |entries| - 1;
      KeepsFiles(files, rows, entries[..n]);
      NextSymbols(entries, n);
      assert entries[..n + 1] == entries;
    }
  }

  lemma {:induction false} HasFiles(files: map<string, seq<Row>>, rows: seq<Row>, entries: seq<Entry>)
    ensures FilesHold(WithFiles(files, rows, entries), rows, entries)
  {
    if entries != [] {
      HasFiles(files, rows, entries[..|entries| - 1]);
    }
  }

  // ---------------------------------------------------------------------
  // The symbol files in the loop

  /** A symbol and its rows. */
  datatype Owned = Owned(symbol: string, rows: seq<Row>)

  /** What turn number `i`, from 0, has for a symbol file: the rows of its symbol among those in memory, if
      it was downloaded and brought any. */
  ghost function Brought(start: Files, job: Job): nat -> Option<Owned>
    requires Sane(job)
  {
    (i: nat) =>
      if i < |job.entries| && job.entries[i].symbol !in Done(start, job) && DownloadRows(job.entries[i], job) != []
      then Some(Owned(job.entries[i].symbol, RowsForSymbol(Rows(start, job, i + 1), job.entries[i].symbol)))
      else None
  }

  function WithOwned(files: map<string, seq<Row>>, owned: Option<Owned>): map<string, seq<Row>> {
    if owned.Some? && owned.value.rows != [] then files[owned.value.symbol := owned.value.rows] else files
  }

  ghost function FilesAt(start: Files, job: Job): nat -> map<string, seq<Row>>
    requires Sane(job)
  {
    (i: nat) => if i <= |job.entries| then ApplyAll(start, LoopWrites(start, job, i)).symbolFiles else map[]
  }

  lemma {:induction false} KeepsSymbolFiles(files: Files, ws: seq<Write>)
    requires forall i :: 0 <= i < |ws| ==> !ws[i].SymbolFile?
    ensures ApplyAll(files, ws).symbolFiles == files.symbolFiles
  {
    if ws != [] {
      KeepsSymbolFiles(files, ws[..|ws| - 1]);
    }
  }

  lemma OneFile(now: Files, rows: seq<Row>, symbol: string)
    ensures ApplyAll(now, [SymbolFile(rows, symbol)]).symbolFiles ==
      WithOwned(now.symbolFiles, Some(Owned(symbol, RowsForSymbol(rows, symbol))))
  {
    NoWrites(now, SymbolFile(rows, symbol));
  }

  lemma BroughtIs(start: Files, job: Job, i: nat, rows: seq<Row>, symbol: string, own: seq<Row>)
    requires Sane(job) && i < |job.entries| && job.entries[i].symbol == symbol && symbol !in Done(start, job)
    requires rows == Rows(start, job, i + 1) && own == DownloadRows(job.entries[i], job)
    ensures EntryWrites(start, job, i + 1) == if own == [] then [] else [SymbolFile(rows, symbol)]
    ensures Brought(start, job)(i) == if own == [] then None else Some(Owned(symbol, RowsForSymbol(rows, symbol)))
  {}

  lemma EntryFile(start: Files, job: Job, i: nat, now: Files)
    requires Sane(job) && i < |job.entries| && job.entries[i].symbol !in Done(start, job)
    ensures ApplyAll(now, EntryWrites(start, job, i + 1)).symbolFiles ==
      WithOwned(now.symbolFiles, Brought(start, job)(i))
  {
    var (rows, symbol) := (Rows(start, job, i + 1), job.entries[i].symbol);
    BroughtIs(start, job, i, rows, symbol, DownloadRows(job.entries[i], job));
    OneFile(now, rows, symbol);
    NoWrites(now, RemoveCheckpoint);
  }

  lemma DueKeepsFiles(files: Files, start: Files, job: Job, i: nat)
    requires Sane(job) && 0 < i <= |job.entries|
    ensures ApplyAll(files, CheckpointWrites(start, job, i)).symbolFiles == files.symbolFiles
  {
    KeepsSymbolFiles(files, CheckpointWrites(start, job, i));
  }

  lemma EntryThenDue(start: Files, job: Job, i: nat, now: Files, entry: seq<Write>, due: seq<Write>)
    requires Sane(job) && 0 < i <= |job.entries|
    requires entry == EntryWrites(start, job, i) && due == CheckpointWrites(start, job, i)
    ensures ApplyAll(now, entry + due).symbolFiles == ApplyAll(now, entry).symbolFiles
  {
    ApplyConcat(now, entry, due);
    DueKeepsFiles(ApplyAll(now, entry), start, job, i);
  }

  lemma StepFiles(start: Files, job: Job, i: nat, now: Files)
    requires Sane(job) && i < |job.entries|
    ensures ApplyAll(now, StepWrites(start, job, i + 1)).symbolFiles ==
      WithOwned(now.symbolFiles, Brought(start, job)(i))
  {
    if job.entries[i].symbol !in Done(start, job) {
      EntryThenDue(start, job, i + 1, now, EntryWrites(start, job, i + 1), CheckpointWrites(start, job, i + 1));
      EntryFile(start, job, i, now);
    } else {
      NoWrites(now, RemoveCheckpoint);
    }
  }

  lemma FilesAfterTurn(start: Files, job: Job, i: nat)
    requires Sane(job) && i < |job.entries|
    ensures FilesAt(start, job)(i + 1) == WithOwned(FilesAt(start, job)(i), Brought(start, job)(i))
  {
    var (before, step) := (LoopWrites(start, job, i), StepWrites(start, job, i + 1));
    NextWrites(start, job, i + 1);
    ApplyConcat(start, before, step);
    StepFiles(start, job, i, ApplyAll(start, before));
    FilesAtIs(start, job, i + 1, before + step);
    FilesAtIs(start, job, i, before);
  }

  lemma FilesAtIs(start: Files, job: Job, i: nat, ws: seq<Write>)
    requires Sane(job) && i <= |job.entries| && ws == LoopWrites(start, job, i)
    ensures FilesAt(start, job)(i) == ApplyAll(start, ws).symbolFiles
  {}

  ghost predicate BringsFor(owned: Option<Owned>, s: string) {
    owned.Some? && owned.value.symbol == s && owned.value.rows != []
  }

  /** The file of a symbol is that of the last turn that brought rows for it, or the one there was. */
  ghost predicate FileInLoop(brought: nat -> Option<Owned>, i: nat, s: string, before: map<string, seq<Row>>,
                             after: map<string, seq<Row>>) {
    if forall j :: 0 <= j < i ==> !BringsFor(brought(j), s)
    then (s in after <==> s in before) && (s in after ==> after[s] == before[s])
    else exists j: nat :: LastTurn(brought, i, s, j) && s in after && after[s] == brought(j).value.rows
  }

  ghost predicate LastTurn(brought: nat -> Option<Owned>, i: nat, s: string, j: nat) {
    j < i && BringsFor(brought(j), s) && forall k :: j < k < i ==> !BringsFor(brought(k), s)
  }

  lemma FileOfTurn(brought: nat -> Option<Owned>, n: nat, s: string, start: map<string, seq<Row>>,
                   before: map<string, seq<Row>>)
    requires FileInLoop(brought, n, s, start, before)
    ensures FileInLoop(brought, n + 1, s, start, WithOwned(before, brought(n)))
  {
    if BringsFor(brought(n), s) {
      assert LastTurn(brought, n + 1, s, n);
    } else if !(forall j :: 0 <= j < n ==> !BringsFor(brought(j), s)) {
      var j: nat :| LastTurn(brought, n, s, j) && before[s] == brought(j).value.rows;
      assert LastTurn(brought, n + 1, s, j);
    }
  }

  ghost predicate TurnWrites(brought: nat -> Option<Owned>, files: nat -> map<string, seq<Row>>, n: nat) {
    files(n + 1) == WithOwned(files(n), brought(n))
  }

  lemma {:induction false} FilesOfTurns(brought: nat -> Option<Owned>, files: nat -> map<string, seq<Row>>, i: nat,
                                        s: string)
    requires forall n: nat :: n < i ==> TurnWrites(brought, files, n)
    ensures FileInLoop(brought, i, s, files(0), files(i))
  {
    if i > 0 {
      var n: nat := i - 1;
      FilesOfTurns(brought, files, n, s);
      assert TurnWrites(brought, files, n);
      FileOfTurn(brought, n, s, files(0), files(n));
    }
  }

  /** In the loop, the file of each symbol is written in its own turn, with its rows, if it brought any. */
  lemma LoopFiles(start: Files, job: Job, i: nat, s: string)
    requires Sane(job) && i <= |job.entries|
    ensures FileInLoop(Brought(start, job), i, s, start.symbolFiles,
                       ApplyAll(start, LoopWrites(start, job, i)).symbolFiles)
  {
    forall n: nat | n < i ensures TurnWrites(Brought(start, job), FilesAt(start, job), n) {
      FilesAfterTurn(start, job, n);
    }
    FilesOfTurns(Brought(start, job), FilesAt(start, job), i, s);
    FilesAtStart(start, job);
  }

  lemma FilesAtStart(start: Files, job: Job)
    requires Sane(job)
    ensures FilesAt(start, job)(0) == start.symbolFiles
  {
    assert LoopWrites(start, job, 0) == [];
    NoWrites(start, RemoveCheckpoint);
  }

  // ---------------------------------------------------------------------
  // How far the checkpoints lag behind

  /** The downloads among the first `i` entries. */
  function Downloads(start: Files, job: Job, i: nat): nat
    requires i <= |job.entries|
  {
    if i == 0 then 0
    else if job.entries[i - 1].symbol in Done(start, job) then Downloads(start, job, i - 1)
    else Downloads(start, job, i - 1) + 1
  }

  /** What is on disk is the checkpoint and the progress of the first `j` entries. */
  ghost predicate SavedAt(start: Files, now: Files, job: Job, j: nat)
    requires Sane(job) && j <= |job.entries|
  {
    if j == 0 then now.checkpoint == start.checkpoint && now.progress == start.progress
    else now.checkpoint == Some(Rows(start, job, j)) && now.progress == Some(ProgressAt(start, job, j))
  }

  /** Fewer than `every` downloads have not been saved yet. */
  ghost predicate Saved(start: Files, now: Files, job: Job, i: nat, j: nat)
    requires Sane(job) && i <= |job.entries|
  {
    && j <= i && SavedAt(start, now, job, j)
    && Downloads(start, job, i) == Downloads(start, job, j) + Changed(start, job, i)
  }

  /** The files after a step, seen apart from the steps before it. */
  lemma AfterStep(start: Files, job: Job, i: nat, now: Files)
    requires Sane(job) && 0 < i <= |job.entries| && now == ApplyAll(start, LoopWrites(start, job, i - 1))
    ensures var next := ApplyAll(start, LoopWrites(start, job, i));
      if job.entries[i - 1].symbol in Done(start, job) || !Due(start, job, i)
      then next.checkpoint == now.checkpoint && next.progress == now.progress
      else SavedAt(start, next, job, i)
  {
    var (entry, due) := (EntryWrites(start, job, i), CheckpointWrites(start, job, i));
    NextWrites(start, job, i);
    ApplyConcat(start, LoopWrites(start, job, i - 1), StepWrites(start, job, i));
    if job.entries[i - 1].symbol !in Done(start, job) {
      ApplyConcat(now, entry, due);
      OnlySymbolFiles(now, entry);
      if Due(start, job, i) {
        TwoWrites(ApplyAll(now, entry), due[0], due[1], 2);
        assert [due[0], due[1]][..2] == due;
      }
    }
  }

  lemma StillSaved(start: Files, job: Job, i: nat, before: Files, now: Files, j: nat)
    requires Sane(job) && 0 < i <= |job.entries| && before == ApplyAll(start, LoopWrites(start, job, i - 1))
    requires Saved(start, before, job, i - 1, j) && now == ApplyAll(start, LoopWrites(start, job, i))
    ensures Saved(start, now, job, i, j) || Saved(start, now, job, i, i)
  {
    AfterStep(start, job, i, before);
  }

  lemma {:induction false} FewAreChanged(start: Files, job: Job, i: nat)
    requires i <= |job.entries|
    ensures Changed(start, job, i) == 0 || 0 < Changed(start, job, i) < job.every
    ensures 0 < i == |job.entries| && job.entries[i - 1].symbol !in Done(start, job) ==> Changed(start, job, i) == 0
  {
    if i > 0 { FewAreChanged(start, job, i - 1); }
  }

  /** What is on disk after `i` turns is a checkpoint with its progress. */
  ghost predicate KeptUp(start: Files, job: Job, i: nat)
    requires Sane(job) && i <= |job.entries|
  {
    exists j: nat :: Saved(start, ApplyAll(start, LoopWrites(start, job, i)), job, i, j)
  }

  lemma NextKeepsUp(start: Files, job: Job, i: nat)
    requires Sane(job) && 0 < i <= |job.entries| && KeptUp(start, job, i - 1)
    ensures KeptUp(start, job, i)
  {
    var before := ApplyAll(start, LoopWrites(start, job, i - 1));
    var j: nat :| Saved(start, before, job, i - 1, j);
    StillSaved(start, job, i, before, ApplyAll(start, LoopWrites(start, job, i)), j);
  }

  lemma NothingToSave(start: Files, job: Job)
    requires Sane(job)
    ensures KeptUp(start, job, 0)
  {
    assert LoopWrites(start, job, 0) == [];
    NoWrites(start, RemoveCheckpoint);
    assert Saved(start, start, job, 0, 0);
  }

  lemma {:induction false} ByTurns(turns: iset<nat>, n: nat)
    requires 0 in turns && forall i: nat :: i < n && i in turns ==> i + 1 in turns
    ensures n in turns
  {
    if n > 0 { ByTurns(turns, n - 1); }
  }

  ghost function TurnsKeptUp(start: Files, job: Job): iset<nat>
    requires Sane(job)
  {
    iset i: nat | i <= |job.entries| && KeptUp(start, job, i)
  }

  lemma TurnsKeepUp(start: Files, job: Job, i: nat)
    requires Sane(job) && i <= |job.entries|
    ensures KeptUp(start, job, i)
  {
    NothingToSave(start, job);
    var turns := TurnsKeptUp(start, job);
    assert 0 in turns;
    forall n: nat | n < i && n in turns ensures n + 1 in turns { NextTurn(start, job, n); }
    ByTurns(turns, i);
  }

  lemma NextTurn(start: Files, job: Job, n: nat)
    requires Sane(job) && n < |job.entries| && n in TurnsKeptUp(start, job)
    ensures n + 1 in TurnsKeptUp(start, job)
  {
    NextKeepsUp(start, job, n + 1);
  }

  /** At every turn of the loop, what is on disk is a checkpoint with its progress, and the
      downloads since are fewer than `every`; none are missing after a download of the last entry. */
  lemma CheckpointsKeepUp(start: Files, job: Job, i: nat)
    requires Sane(job) && i <= |job.entries|
    ensures exists j: nat :: Saved(start, ApplyAll(start, LoopWrites(start, job, i)), job, i, j)
    ensures Changed(start, job, i) == 0 || 0 < Changed(start, job, i) < job.every
    ensures 0 < i == |job.entries| && job.entries[i - 1].symbol !in Done(start, job) ==> Changed(start, job, i) == 0
  {
    TurnsKeepUp(start, job, i);
    FewAreChanged(start, job, i);
  }

  function ProgressWrites(ws: seq<Write>): nat {
    if ws == [] then 0 else ProgressWrites(ws[..|ws| - 1]) + if ws[|ws| - 1].ProgressFile? then 1 else 0
  }

  lemma {:induction false} ProgressWritesConcat(a: seq<Write>, b: seq<Write>)
    ensures ProgressWrites(a + b) == ProgressWrites(a) + ProgressWrites(b)
  {
    if b == [] {
      assert a + b == a;
    } else {
      assert (a + b)[..|a + b| - 1] == a + b[..|b| - 1];
      ProgressWritesConcat(a, b[..|b| - 1]);
    }
  }

  /** The progress files written in the first `i` turns. */
  ghost function Progresses(start: Files, job: Job, i: nat): nat
    requires Sane(job) && i <= |job.entries|
  {
    ProgressWrites(LoopWrites(start, job, i))
  }

  lemma NextProgress(start: Files, job: Job, i: nat)
    requires Sane(job) && 0 < i <= |job.entries|
    ensures Progresses(start, job, i) == Progresses(start, job, i - 1) +
      if job.entries[i - 1].symbol !in Done(start, job) && Due(start, job, i) then 1 else 0
  {
    NextWrites(start, job, i);
    ProgressWritesConcat(LoopWrites(start, job, i - 1), StepWrites(start, job, i));
    StepProgress(start, job, i);
  }

  lemma StepProgress(start: Files, job: Job, i: nat)
    requires Sane(job) && 0 < i <= |job.entries|
    ensures ProgressWrites(StepWrites(start, job, i)) ==
      if job.entries[i - 1].symbol !in Done(start, job) && Due(start, job, i) then 1 else 0
  {
    var (entry, due) := (EntryWrites(start, job, i), CheckpointWrites(start, job, i));
    ProgressWritesConcat(entry, due);
    assert |entry| <= 1 && (entry != [] ==> entry[..0] == []);
    if Due(start, job, i) { assert due[..1] == [due[0]] && due[..1][..0] == []; }
  }

  /** The counts of downloads, of progress files and of downloads since the last one. */
  datatype Counts = Counts(downloads: nat, saved: nat, changed: int)

  function CountsAfter(c: Counts, asked: bool, every: int): Counts {
    if !asked then c
    else if c.changed + 1 == every then Counts(c.downloads + 1, c.saved + 1, 0)
    else Counts(c.downloads + 1, c.saved, c.changed + 1)
  }

  ghost predicate OnTime(c: Counts, every: int) {
    c.downloads == c.saved * every + c.changed && 0 <= c.changed < every
  }

  lemma NextOnTime(c: Counts, asked: bool, every: int)
    requires OnTime(c, every)
    ensures OnTime(CountsAfter(c, asked, every), every)
  {
    assert (c.saved + 1) * every == c.saved * every + every;
  }

  ghost function CountsAt(start: Files, job: Job, i: nat): Counts
    requires Sane(job) && i <= |job.entries|
  {
    Counts(Downloads(start, job, i), Progresses(start, job, i), Changed(start, job, i))
  }

  lemma NextCounts(start: Files, job: Job, i: nat)
    requires Sane(job) && 0 < i < |job.entries| && Changed(start, job, i - 1) < job.every
    ensures CountsAt(start, job, i) ==
      CountsAfter(CountsAt(start, job, i - 1), job.entries[i - 1].symbol !in Done(start, job), job.every)
  {
    NextProgress(start, job, i);
  }

  ghost predicate Ticks(counts: nat -> Counts, asked: nat -> bool, every: int, i: nat) {
    OnTime(counts(i), every) ==> counts(i + 1) == CountsAfter(counts(i), asked(i), every)
  }

  lemma {:induction false} TurnsOnTime(counts: nat -> Counts, asked: nat -> bool, every: int, n: nat)
    requires OnTime(counts(0), every) && forall i: nat :: i < n ==> Ticks(counts, asked, every, i)
    ensures OnTime(counts(n), every)
  {
    if n > 0 {
      TurnsOnTime(counts, asked, every, n - 1);
      assert Ticks(counts, asked, every, n - 1);
      NextOnTime(counts(n - 1), asked(n - 1), every);
    }
  }

  ghost function CountsOf(start: Files, job: Job): nat -> Counts
    requires Sane(job)
  {
    (n: nat) => if n <= |job.entries| then CountsAt(start, job, n) else Counts(0, 0, 0)
  }

  ghost function AskedOf(start: Files, job: Job): nat -> bool {
    (n: nat) => n < |job.entries| && job.entries[n].symbol !in Done(start, job)
  }

  lemma TurnTicks(start: Files, job: Job, i: nat)
    requires Sane(job) && i + 1 < |job.entries|
    ensures Ticks(CountsOf(start, job), AskedOf(start, job), job.every, i)
  {
    CountsOfIs(start, job, i, CountsAt(start, job, i));
    CountsOfIs(start, job, i + 1, CountsAt(start, job, i + 1));
    var (c, c', asked) := (CountsOf(start, job)(i), CountsOf(start, job)(i + 1), AskedOf(start, job)(i));
    if OnTime(c, job.every) {
      CountsFollow(start, job, i, c, c', asked);
    }
  }

  lemma CountsOfIs(start: Files, job: Job, i: nat, c: Counts)
    requires Sane(job) && i <= |job.entries| && c == CountsAt(start, job, i)
    ensures CountsOf(start, job)(i) == c
  {}

  lemma CountsFollow(start: Files, job: Job, i: nat, c: Counts, c': Counts, asked: bool)
    requires Sane(job) && i + 1 < |job.entries| && OnTime(c, job.every)
    requires c == CountsAt(start, job, i) && c' == CountsAt(start, job, i + 1)
    requires asked <==> job.entries[i].symbol !in Done(start, job)
    ensures c' == CountsAfter(c, asked, job.every)
  {
    NextCounts(start, job, i + 1);
  }

  lemma StartCounts(start: Files, job: Job)
    requires Sane(job) && job.every > 0
    ensures OnTime(CountsOf(start, job)(0), job.every)
  {
    assert LoopWrites(start, job, 0) == [];
  }

  /** Before the last entry, one progress file is written for every `every` downloads. */
  lemma CheckpointCadence(start: Files, job: Job, i: nat)
    requires Sane(job) && i < |job.entries| && job.every > 0
    ensures Downloads(start, job, i) == Progresses(start, job, i) * job.every + Changed(start, job, i)
    ensures 0 <= Changed(start, job, i) < job.every
  {
    StartCounts(start, job);
    forall n: nat | n < i ensures Ticks(CountsOf(start, job), AskedOf(start, job), job.every, n) {
      TurnTicks(start, job, n);
    }
    TurnsOnTime(CountsOf(start, job), AskedOf(start, job), job.every, i);
    assert CountsOf(start, job)(i) == CountsAt(start, job, i);
  }

  // ---------------------------------------------------------------------
  // Neither a kill nor a refusal moves the target

  lemma MidwayKeepsTarget(start: Files, now: Files, job: Job, next: Job)
    requires Recovers(job, next) && Runnable(next) && Sane(job) && Midway(start, now, job, |job.entries|)
    ensures Target(now, next) == Target(start, next) && Target(now, job) == Target(start, job)
  {
    if now.checkpoint == start.checkpoint && now.progress == start.progress {
      SymbolFilesDoNotMatter(start, now.symbolFiles, job);
      SymbolFilesDoNotMatter(start, now.symbolFiles, next);
      assert now == start.(symbolFiles := now.symbolFiles);
    } else {
      var i: nat :| i <= |job.entries| && Checkpointed(start, now, job, i);
      RecoveredIsRunnable(job, next);
      CheckpointKeepsTarget(start, now, job, i, next);
      CheckpointKeepsTarget(start, now, job, i, job);
    }
  }

  /** The output has been written, and the checkpoint is still there or has been removed. */
  lemma PublishedKeepsTarget(start: Files, now: Files, next: Files, job: Job, later: Job)
    requires Recovers(job, later) && Runnable(later) && Sane(job) && Published(start, now, job)
    requires next == now || next == now.(checkpoint := None)
    ensures Target(next, later) == Target(start, later)
  {
    var before := now.(output := start.output);
    MidwayKeepsTarget(start, before, job, later);
    SofarIsTarget(start, job);
    OutputKeepsTarget(before, next, job, later);
  }

  lemma ReachedKeepsTarget(start: Files, now: Files, job: Job, next: Job)
    requires Recovers(job, next) && Runnable(next) && Sane(job) && Reached(start, now, job)
    ensures Target(now, next) == Target(start, next)
  {
    if Midway(start, now, job, |job.entries|) {
      MidwayKeepsTarget(start, now, job, next);
    } else if Published(start, now, job) {
      PublishedKeepsTarget(start, now, now, job, next);
    } else {
      var before :| Published(start, before, job) && now == before.(checkpoint := None);
      PublishedKeepsTarget(start, before, now, job, next);
    }
  }

  /** However often and wherever runs are killed, and whatever the provider refuses them, what a
      later run with a provider that answers is heading for stays the same. */
  lemma {:induction false} RunsKeepTarget(files: Files, job: Job, kills: seq<nat>, next: Job)
    requires Recovers(job, next) && Runnable(next) && Sane(job)
    ensures Target(AfterRuns(files, job, kills), next) == Target(files, next)
  {
    if kills != [] {
      var before := AfterRuns(files, job, kills[..|kills| - 1]);
      RunsKeepTarget(files, job, kills[..|kills| - 1], next);
      KilledIsReached(before, job, kills[|kills| - 1]);
      ReachedKeepsTarget(before, AfterRuns(files, job, kills), job, next);
    }
  }

  /** A finished run's output is its target; nothing in it depends on where earlier runs were
      killed, nor on what the provider refused them. */
  lemma FinishedAfterRefusals(files: Files, job: Job, kills: seq<nat>, next: Job)
    requires Recovers(job, next) && Runnable(next) && Sane(job)
    ensures Finished(AfterRuns(files, job, kills), next).output == List(Target(files, next), next) ==
      Finished(files, next).output
  {
    RunsKeepTarget(files, job, kills, next);
    SofarIsTarget(AfterRuns(files, job, kills), next);
    SofarIsTarget(files, next);
    FinishedFiles(AfterRuns(files, job, kills), next);
    FinishedFiles(files, next);
  }

  lemma FinishedAfterKills(files: Files, job: Job, kills: seq<nat>)
    requires Runnable(job)
    ensures Finished(AfterRuns(files, job, kills), job).output == List(Target(files, job), job) ==
      Finished(files, job).output
  {
    FinishedAfterRefusals(files, job, kills, job);
  }

  lemma RunsEnd(files: Files, job: Job, kills: seq<nat>, last: Job)
    requires Sound(job) && Sound(last) && Recovers(job, last)
    ensures var end := Finished(AfterRuns(files, job, kills), last);
      && (Runnable(last) ==> end.output == List(Target(files, last), last))
      && FilesHold(end.symbolFiles, end.output, last.entries)
  {
    FinishedFiles(AfterRuns(files, job, kills), last);
    if Runnable(last) { FinishedAfterRefusals(files, job, kills, last); }
  }

  /** A run that is refused or killed claims a symbol only when it was complete before or was answered. */
  lemma OnlyAnsweredIsClaimed(start: Files, job: Job, n: nat, s: string)
    requires Sane(job) && s in Claimed(Killed(start, job, n), job) && s !in Claimed(start, job)
    ensures s in Symbols(job.entries) && job.fetch(s).Aggregates?
  {
    var now := Killed(start, job, n);
    KilledIsReached(start, job, n);
    AnsweredMeans(job, |job.entries|, s);
    assert job.entries[..|job.entries|] == job.entries;
    if Midway(start, now, job, |job.entries|) {
      MidwayClaims(start, now, job, |job.entries|);
    } else if Published(start, now, job) {
      MidwayClaims(start, now.(output := start.output), job, |job.entries|);
    } else {
      var before :| Published(start, before, job) && now == before.(checkpoint := None);
      MidwayClaims(start, before.(output := start.output), job, |job.entries|);
    }
  }
}
