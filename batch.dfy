/**
 * The loop over the uploaded files: read each file in upload order, keep
 * the tables that are present and not empty, add up their row counts, and
 * move the progress bar after every file whatever its outcome.
 */
module Batch {
  import opened Frame
  import opened Report
  import opened Loader

  /** A result the loop appends to `dfs`: a table that is not empty. */
  predicate Keep(o: Outcome)
  {
    o.Loaded? && !IsEmpty(o.table)
  }

  /** What `read_file` returns for each file, in upload order. */
  function Outcomes(files: seq<UploadedFile>, engine: Engine): (os: seq<Outcome>)
    ensures |os| == |files|
  {
    seq(|files|, i requires 0 <= i < |files| => ReadFile(files[i], engine).outcome)
  }

  /** The kept tables, in order. */
  function Kept(os: seq<Outcome>): seq<Table>
  {
    if os == [] then []
    else Kept(os[..|os| - 1]) + (if Keep(os[|os| - 1]) then [os[|os| - 1].table] else [])
  }

  /** The positions of the kept results, in increasing order. */
  function KeptPositions(os: seq<Outcome>): seq<nat>
  {
    if os == [] then []
    else KeptPositions(os[..|os| - 1]) + (if Keep(os[|os| - 1]) then [|os| - 1] else [])
  }

  /** What the page shows while the loop handles the `idx`-th of `total`
      files: the reader's messages, the "no data" warning for a table that
      is empty, then the progress update. */
  function FileEvents(file: UploadedFile, engine: Engine, idx: nat, total: nat): seq<Event>
  {
    StepEvents(ReadFile(file, engine), file.name, idx, total)
  }

  /** The events of one loop step, given what `read_file` did. */
  function StepEvents(r: ReadResult, name: string, idx: nat, total: nat): seq<Event>
  {
    ShowAll(r.notices) + NoRowsWarning(r.outcome, name) + [Progress(idx, total)]
  }

  /** The warning for a file that was read but gave an empty table. */
  function NoRowsWarning(o: Outcome, name: string): seq<Event>
  {
    if o.Loaded? && IsEmpty(o.table) then [Show(Notice(Warning, NoData(name)))] else []
  }

  /** The tables one result adds to `dfs`. */
  function KeptPart(o: Outcome): seq<Table>
  {
    if Keep(o) then [o.table] else []
  }

  /** Everything the loop shows for `files`, the first files of a batch of
      `total`. */
  function IngestEvents(files: seq<UploadedFile>, engine: Engine, total: nat): seq<Event>
  {
    if files == [] then []
    else IngestEvents(files[..|files| - 1], engine, total) + FileEvents(files[|files| - 1], engine, |files|, total)
  }

  /** The progress updates for a batch of `n` files: 1/n, 2/n, ..., n/n. */
  function ProgressBar(n: nat): seq<Event>
  {
    seq(n, k requires 0 <= k < n => Progress(k + 1, n))
  }

  /**
   * The loop at the top level of the app. `dfs` holds the kept tables in
   * upload order, `totalRows` the sum of their lengths, and `events` what
   * the page showed, in order; the progress updates depend only on the
   * number of files.
   */
  method IngestFiles(files: seq<UploadedFile>, engine: Engine)
    returns (dfs: seq<Table>, totalRows: nat, events: seq<Event>)
    ensures dfs == Kept(Outcomes(files, engine))
    ensures totalRows == SumRows(dfs)
    ensures events == IngestEvents(files, engine, |files|)
    ensures Progresses(events) == ProgressBar(|files|)
  {
    dfs, totalRows, events := [], 0, [];
    var i := 0;
    while i < |files|
      invariant 0 <= i <= |files|
      invariant dfs == Kept(Outcomes(files[..i], engine))
      invariant totalRows == SumRows(dfs)
      invariant events == IngestEvents(files[..i], engine, |files|)
    {
      var file := files[i];
      ghost var before, kept := events, dfs;
      var read := ReadFile(file, engine);
      events := events + ShowAll(read.notices);
      var df := read.outcome;
      if df.Loaded? && !IsEmpty(df.table) {
        dfs := dfs + [df.table];
        totalRows := totalRows + Len(df.table);
      } else if df.Loaded? {
        events := events + [Show(Notice(Warning, NoData(file.name)))];
      }
      i := i + 1;
      events := events + [Progress(i, |files|)];
      StepTables(files, engine, i - 1, df, kept, dfs, totalRows);
      StepEventsAppend(files, engine, i - 1, read, before, events);
    }
    assert files[..|files|] == files;
    IngestProgress(files, engine, |files|);
  }

  /** One more file: its result is appended to the outcomes, and its table
      to the kept ones when it is kept. */
  lemma AdvanceKept(files: seq<UploadedFile>, file: UploadedFile, engine: Engine)
    ensures Kept(Outcomes(files + [file], engine)) ==
      Kept(Outcomes(files, engine)) + KeptPart(ReadFile(file, engine).outcome)
  {
    var os := Outcomes(files, engine);
    var o := ReadFile(file, engine).outcome;
    assert Outcomes(files + [file], engine) == os + [o];
    assert (os + [o])[..|os|] == os;
  }

  /** One more file: its events follow those of the files before it. */
  lemma AdvanceEvents(files: seq<UploadedFile>, file: UploadedFile, engine: Engine, total: nat)
    ensures IngestEvents(files + [file], engine, total) ==
      IngestEvents(files, engine, total) + FileEvents(file, engine, |files| + 1, total)
  {
    assert (files + [file])[..|files|] == files;
  }

  /** One pass of the loop body keeps the invariant on `dfs` and
      `totalRows`. */
  lemma StepTables(files: seq<UploadedFile>, engine: Engine, i: nat, o: Outcome,
                   kept: seq<Table>, dfs: seq<Table>, totalRows: nat)
    requires i < |files| && o == ReadFile(files[i], engine).outcome
    requires kept == Kept(Outcomes(files[..i], engine))
    requires dfs == kept + KeptPart(o)
    requires totalRows == SumRows(kept) + if Keep(o) then Len(o.table) else 0
    ensures dfs == Kept(Outcomes(files[..i + 1], engine))
    ensures totalRows == SumRows(dfs)
  {
    assert files[..i + 1] == files[..i] + [files[i]];
    AdvanceKept(files[..i], files[i], engine);
    if Keep(o) {
      assert dfs[..|dfs| - 1] == kept;
    }
  }

  /** One pass of the loop body keeps the invariant on `events`. */
  lemma StepEventsAppend(files: seq<UploadedFile>, engine: Engine, i: nat, read: ReadResult,
                         before: seq<Event>, events: seq<Event>)
    requires i < |files| && read == ReadFile(files[i], engine)
    requires before == IngestEvents(files[..i], engine, |files|)
    requires events == before + ShowAll(read.notices) + NoRowsWarning(read.outcome, files[i].name) + [Progress(i + 1, |files|)]
    ensures events == IngestEvents(files[..i + 1], engine, |files|)
  {
    assert files[..i + 1] == files[..i] + [files[i]];
    AdvanceEvents(files[..i], files[i], engine, |files|);
    StepAppend(before, read, files[i].name, i + 1, |files|);
  }

  lemma StepAppend(before: seq<Event>, r: ReadResult, name: string, idx: nat, total: nat)
    ensures before + ShowAll(r.notices) + NoRowsWarning(r.outcome, name) + [Progress(idx, total)] ==
      before + StepEvents(r, name, idx, total)
  {
  }

  // ---------------------------------------------------------------------
  // The kept tables

  lemma {:induction false} KeptAppend(a: seq<Outcome>, b: seq<Outcome>)
    ensures Kept(a + b) == Kept(a) + Kept(b)
    decreases |b|
  {
    if b == [] {
      assert a + b == a;
    } else {
      assert (a + b)[..|a + b| - 1] == a + b[..|b| - 1];
      KeptAppend(a, b[..|b| - 1]);
    }
  }

  /** The kept positions increase and lie within `os`. */
  lemma {:induction false} KeptPositionsIncrease(os: seq<Outcome>)
    ensures forall j :: 0 <= j < |KeptPositions(os)| ==> KeptPositions(os)[j] < |os|
    ensures forall j, k :: 0 <= j < k < |KeptPositions(os)| ==> KeptPositions(os)[j] < KeptPositions(os)[k]
  {
    if os != [] {
      KeptPositionsIncrease(os[..|os| - 1]);
    }
  }

  /** A position is kept exactly when its result is a non-empty table. */
  lemma {:induction false} KeptPositionsExact(os: seq<Outcome>)
    ensures forall i :: i in KeptPositions(os) <==> 0 <= i < |os| && Keep(os[i])
  {
    if os != [] {
      var front := os[..|os| - 1];
      KeptPositionsExact(front);
      KeptPositionsIncrease(front);
      forall i
        ensures i in KeptPositions(os) <==> 0 <= i < |os| && Keep(os[i])
      {
        if 0 <= i < |front| {
          assert os[i] == front[i];
        }
      }
    }
  }

  /** The j-th kept table is the result at the j-th kept position. */
  lemma {:induction false} KeptAtPositions(os: seq<Outcome>)
    ensures |Kept(os)| == |KeptPositions(os)|
    ensures forall j :: 0 <= j < |KeptPositions(os)| ==>
      KeptPositions(os)[j] < |os| && Keep(os[KeptPositions(os)[j]]) &&
      Kept(os)[j] == os[KeptPositions(os)[j]].table
  {
    if os != [] {
      var front := os[..|os| - 1];
      KeptAtPositions(front);
      forall j | 0 <= j < |KeptPositions(front)|
        ensures KeptPositions(os)[j] < |os| && Keep(os[KeptPositions(os)[j]])
        ensures Kept(os)[j] == os[KeptPositions(os)[j]].table
      {
        assert KeptPositions(os)[j] == KeptPositions(front)[j];
        assert os[KeptPositions(front)[j]] == front[KeptPositions(front)[j]];
      }
    }
  }

  /**
   * `dfs` holds exactly the present, non-empty results, in upload order:
   * the kept positions increase, a position is kept exactly when its
   * result is a non-empty table, and the j-th kept table is the result at
   * the j-th kept position.
   */
  lemma KeptSpec(os: seq<Outcome>)
    ensures |Kept(os)| == |KeptPositions(os)|
    ensures forall j, k :: 0 <= j < k < |KeptPositions(os)| ==> KeptPositions(os)[j] < KeptPositions(os)[k]
    ensures forall i :: i in KeptPositions(os) <==> 0 <= i < |os| && Keep(os[i])
    ensures forall j :: 0 <= j < |KeptPositions(os)| ==>
      KeptPositions(os)[j] < |os| && Keep(os[KeptPositions(os)[j]]) &&
      Kept(os)[j] == os[KeptPositions(os)[j]].table
  {
    KeptPositionsIncrease(os);
    KeptPositionsExact(os);
    KeptAtPositions(os);
  }

  /** Every kept table has rows and columns. */
  lemma KeptNonEmpty(os: seq<Outcome>)
    ensures forall t :: t in Kept(os) ==> !IsEmpty(t)
  {
    KeptSpec(os);
    forall t | t in Kept(os)
      ensures !IsEmpty(t)
    {
      var j :| 0 <= j < |Kept(os)| && Kept(os)[j] == t;
      assert Keep(os[KeptPositions(os)[j]]) by {
        assert KeptPositions(os)[j] in KeptPositions(os);
      }
    }
  }

  /** Nothing is kept exactly when no file gave a non-empty table. */
  lemma NothingKept(os: seq<Outcome>)
    ensures Kept(os) == [] <==> forall i :: 0 <= i < |os| ==> !Keep(os[i])
  {
    KeptSpec(os);
    if exists i :: 0 <= i < |os| && Keep(os[i]) {
      var i :| 0 <= i < |os| && Keep(os[i]);
      assert i in KeptPositions(os);
    }
  }

  /** A file that failed or gave an empty table adds nothing to `dfs` or to
      `totalRows`, and the files after it are kept as if it were absent. */
  lemma Skipped(before: seq<Outcome>, o: Outcome, after: seq<Outcome>)
    requires !Keep(o)
    ensures Kept(before + [o] + after) == Kept(before + after)
    ensures SumRows(Kept(before + [o] + after)) == SumRows(Kept(before + after))
  {
    KeptAppend(before + [o], after);
    KeptAppend(before, [o]);
    KeptAppend(before, after);
    assert [o][..0] == [];
  }

  // ---------------------------------------------------------------------
  // Messages

  /** The messages the loop shows for one file: what `read_file` reported,
      then the "no data" warning for a table that is empty. */
  function FileNotices(r: ReadResult, name: string): seq<Notice>
  {
    r.notices + if r.outcome.Loaded? && IsEmpty(r.outcome.table) then [Notice(Warning, NoData(name))] else []
  }

  /** The messages of the loop for `files`, file after file. */
  function IngestNotices(files: seq<UploadedFile>, engine: Engine): seq<Notice>
  {
    if files == [] then []
    else
      var last := files[|files| - 1];
      IngestNotices(files[..|files| - 1], engine) + FileNotices(ReadFile(last, engine), last.name)
  }

  /** Handling one file shows exactly that file's messages. */
  lemma StepShown(r: ReadResult, name: string, idx: nat, total: nat)
    ensures Shown(StepEvents(r, name, idx, total)) == FileNotices(r, name)
  {
    var empty := NoRowsWarning(r.outcome, name);
    ShownAppend(ShowAll(r.notices) + empty, [Progress(idx, total)]);
    ShownAppend(ShowAll(r.notices), empty);
    ShowAllSpec(r.notices);
    assert [Progress(idx, total)][..0] == [];
    assert empty != [] ==> empty[..0] == [];
  }

  /** The messages the loop shows are each file's messages, in upload
      order. */
  lemma {:induction false} IngestShown(files: seq<UploadedFile>, engine: Engine, total: nat)
    ensures Shown(IngestEvents(files, engine, total)) == IngestNotices(files, engine)
  {
    if files != [] {
      var front := files[..|files| - 1];
      var last := files[|files| - 1];
      var earlier, step := IngestEvents(front, engine, total), FileEvents(last, engine, |files|, total);
      assert IngestEvents(files, engine, total) == earlier + step;
      IngestShown(front, engine, total);
      ShownAppend(earlier, step);
      StepShown(ReadFile(last, engine), last.name, |files|, total);
    }
  }

  /** A file that is merged shows no message; every other file shows exactly
      one: its read failure at the handler's level, or the "no data"
      warning. */
  lemma OneMessageUnlessKept(file: UploadedFile, engine: Engine)
    ensures var r := ReadFile(file, engine);
      FileNotices(r, file.name) ==
        if Keep(r.outcome) then []
        else if r.outcome.Loaded? then [Notice(Warning, NoData(file.name))]
        else [Notice(FailureLevel(r.outcome.kind), ReadFailed(file.name, r.outcome.kind))]
  {
    FailuresReported(file, engine);
  }

  // ---------------------------------------------------------------------
  // Progress

  /** Handling one file moves the progress bar exactly once. */
  lemma StepProgress(r: ReadResult, name: string, idx: nat, total: nat)
    ensures Progresses(StepEvents(r, name, idx, total)) == [Progress(idx, total)]
  {
    var empty := NoRowsWarning(r.outcome, name);
    ProgressesAppend(ShowAll(r.notices) + empty, [Progress(idx, total)]);
    ProgressesAppend(ShowAll(r.notices), empty);
    ShowAllSpec(r.notices);
    assert [Progress(idx, total)][..0] == [];
    assert empty != [] ==> empty[..0] == [];
  }

  lemma TicksGrow(n: nat, total: nat)
    ensures seq(n + 1, k requires 0 <= k < n + 1 => Progress(k + 1, total)) ==
      seq(n, k requires 0 <= k < n => Progress(k + 1, total)) + [Progress(n + 1, total)]
  {
  }

  /** The loop moves the progress bar once per file, to k/total after the
      k-th file, whatever each file's outcome. */
  lemma {:induction false} IngestProgress(files: seq<UploadedFile>, engine: Engine, total: nat)
    ensures Progresses(IngestEvents(files, engine, total)) ==
      seq(|files|, k requires 0 <= k < |files| => Progress(k + 1, total))
  {
    if files != [] {
      var front := files[..|files| - 1];
      var last := files[|files| - 1];
      var earlier, step := IngestEvents(front, engine, total), FileEvents(last, engine, |files|, total);
      assert IngestEvents(files, engine, total) == earlier + step;
      IngestProgress(front, engine, total);
      ProgressesAppend(earlier, step);
      StepProgress(ReadFile(last, engine), last.name, |files|, total);
      assert Progresses(step) == [Progress(|files|, total)];
      TicksGrow(|front|, total);
    }
  }

  /**
   * For a batch of n >= 1 files the progress values, read as fractions,
   * start at 1/n, strictly increase, and end at exactly 1.
   */
  lemma ProgressRises(n: nat)
    requires n >= 1
    ensures |ProgressBar(n)| == n
    ensures ProgressBar(n)[0] == Progress(1, n)
    ensures ProgressBar(n)[n - 1].done == ProgressBar(n)[n - 1].total
    ensures forall j, k :: 0 <= j < k < n ==>
      ProgressBar(n)[j].done * ProgressBar(n)[k].total < ProgressBar(n)[k].done * ProgressBar(n)[j].total
  {
    forall j, k | 0 <= j < k < n
      ensures ProgressBar(n)[j].done * ProgressBar(n)[k].total < ProgressBar(n)[k].done * ProgressBar(n)[j].total
    {
      assert (j + 1) * n < (k + 1) * n;
    }
  }
}
