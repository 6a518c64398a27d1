/**
 * One run of the app's script over the uploaded files: read them all,
 * halt when nothing usable was read, merge, offer the merged table for
 * download in the chosen format, and clear `dfs` once the download button
 * has been pressed.
 */
module App {
  import opened Text
  import opened Frame
  import opened Report
  import opened Loader
  import opened Batch

  /** The download format picked with the radio buttons. */
  datatype Format = CsvFormat | JsonFormat

  /** What the download button hands over. */
  datatype Download = Download(data: seq<byte>, fileName: string, mime: string)

  /** What a run leaves behind: what the page showed, the list `dfs` and the
      counter `total_rows` at the end, the merged table if the run got that
      far, the download it offered, and the exception that escaped the
      script and ended it with a traceback, if one did. */
  datatype Run = Run(
    events: seq<Event>,
    dfs: seq<Table>,
    totalRows: nat,
    merged: Option<Table>,
    offer: Option<Download>,
    traceback: Option<Raise>)

  /** The chosen serialiser applied to the merged table. */
  function Serialise(choice: Format, merged: Table, engine: Engine): Written
  {
    match choice
    case CsvFormat => engine.writeCsv(merged)
    case JsonFormat => engine.writeJson(merged)
  }

  /** The file name and MIME type that go with the chosen format. */
  function Offer(choice: Format, data: seq<byte>): Download
  {
    match choice
    case CsvFormat => Download(data, "merged.csv", "text/csv")
    case JsonFormat => Download(data, "merged.json", "application/json")
  }

  /** The two handlers around the concatenation: a memory error, or any
      other exception with its text. */
  function MergeFaultOf(r: Raise): (f: MergeFault)
    ensures f == MergeOutOfMemory <==> r.exc == MemoryError
    ensures f.MergeUnknown? ==> f.detail == r.text
  {
    if r.exc == MemoryError then MergeOutOfMemory else MergeUnknown(r.text)
  }

  /**
   * The script. With no upload it only shows the prompt. Otherwise it reads
   * every file; if no file gave a non-empty table it stops with an error
   * and merges nothing; if the concatenation raises it stops with an
   * error; otherwise the merged table has `totalRows` rows. If the chosen
   * serialiser then raises, nothing catches it: the script ends with a
   * traceback, no download is offered and `dfs` is left as it was.
   * Otherwise the download for `choice` is offered, and pressing the button
   * empties `dfs`.
   */
  method RunApp(files: seq<UploadedFile>, engine: Engine, choice: Format, clicked: bool)
    returns (run: Run)
    ensures |files| == 0 ==> run == Run([Show(Notice(Info, UploadPrompt))], [], 0, None, None, None)
    ensures |files| > 0 ==> Progresses(run.events) == ProgressBar(|files|)
    ensures |files| > 0 ==> run.totalRows == SumRows(Kept(Outcomes(files, engine)))
    ensures run.merged.Some? <==>
      Kept(Outcomes(files, engine)) != [] && engine.concatRaises(Kept(Outcomes(files, engine))).None?
    ensures run.merged.Some? ==>
      run.merged.value == Concat(Kept(Outcomes(files, engine))) && Len(run.merged.value) == run.totalRows
    ensures run.traceback.Some? <==>
      run.merged.Some? && Serialise(choice, run.merged.value, engine).WriteRaised?
    ensures run.traceback.Some? ==> run.traceback.value == Serialise(choice, run.merged.value, engine).raise
    ensures run.offer.Some? <==> run.merged.Some? && Serialise(choice, run.merged.value, engine).Written?
    ensures run.offer.Some? ==>
      run.offer.value == Offer(choice, Serialise(choice, run.merged.value, engine).bytes)
    ensures run.dfs == if run.offer.Some? && clicked then [] else Kept(Outcomes(files, engine))
    ensures |files| > 0 ==>
      run.events == IngestEvents(files, engine, |files|) +
        Closing(Kept(Outcomes(files, engine)), run.totalRows, engine, run.offer.Some? && clicked)
  {
    if |files| == 0 {
      return Run([Show(Notice(Info, UploadPrompt))], [], 0, None, None, None);
    }
    var dfs, totalRows, events := IngestFiles(files, engine);
    run := Conclude(dfs, totalRows, events, engine, choice, clicked);
  }

  /** What the page shows after the loop: the "no valid data" error, the
      merge error, or the success message followed, once the download
      button has been pressed, by the clean-up notice. */
  function Closing(dfs: seq<Table>, totalRows: nat, engine: Engine, cleared: bool): seq<Event>
  {
    if dfs == [] then [Show(Notice(Error, NoValidData))]
    else match engine.concatRaises(dfs)
      case Some(e) => [Show(Notice(Error, MergeFailed(MergeFaultOf(e))))]
      case None =>
        [Show(Notice(Success, Merged(|dfs|, totalRows)))] +
        (if cleared then [Show(Notice(Info, CleanedUp))] else [])
  }

  /** What follows the loop leaves the progress updates as the loop left
      them. */
  lemma ClosingKeepsProgress(events: seq<Event>, dfs: seq<Table>, totalRows: nat, engine: Engine, cleared: bool)
    ensures Progresses(events + Closing(dfs, totalRows, engine, cleared)) == Progresses(events)
  {
    ProgressesAppend(events, Closing(dfs, totalRows, engine, cleared));
    ClosingShowsNoProgress(dfs, totalRows, engine, cleared);
  }

  /** Nothing after the loop moves the progress bar. */
  lemma ClosingShowsNoProgress(dfs: seq<Table>, totalRows: nat, engine: Engine, cleared: bool)
    ensures Progresses(Closing(dfs, totalRows, engine, cleared)) == []
  {
    var c := Closing(dfs, totalRows, engine, cleared);
    assert c[0].Show? && c[..1][..0] == [];
    assert Progresses(c[..1]) == [];
    if |c| == 2 {
      assert c[1].Show? && c[..|c| - 1] == c[..1];
    }
  }

  /** The script after the loop, from `dfs`, `total_rows` and what the page
      already showed. */
  method Conclude(dfs: seq<Table>, totalRows: nat, events: seq<Event>, engine: Engine,
                  choice: Format, clicked: bool)
    returns (run: Run)
    requires totalRows == SumRows(dfs)
    ensures Progresses(run.events) == Progresses(events)
    ensures run.totalRows == totalRows
    ensures run.merged.Some? <==> dfs != [] && engine.concatRaises(dfs).None?
    ensures run.merged.Some? ==> run.merged.value == Concat(dfs) && Len(run.merged.value) == totalRows
    ensures run.traceback.Some? <==>
      run.merged.Some? && Serialise(choice, run.merged.value, engine).WriteRaised?
    ensures run.traceback.Some? ==> run.traceback.value == Serialise(choice, run.merged.value, engine).raise
    ensures run.offer.Some? <==> run.merged.Some? && Serialise(choice, run.merged.value, engine).Written?
    ensures run.offer.Some? ==>
      run.offer.value == Offer(choice, Serialise(choice, run.merged.value, engine).bytes)
    ensures run.dfs == if run.offer.Some? && clicked then [] else dfs
    ensures run.events == events + Closing(dfs, totalRows, engine, run.offer.Some? && clicked)
  {
    ClosingKeepsProgress(events, dfs, totalRows, engine, false);
    if |dfs| == 0 {
      return Run(events + [Show(Notice(Error, NoValidData))], dfs, totalRows, None, None, None);
    }
    match engine.concatRaises(dfs) {
      case Some(e) =>
        return Run(events + [Show(Notice(Error, MergeFailed(MergeFaultOf(e))))], dfs, totalRows, None, None, None);
      case None =>
    }
    var merged := Concat(dfs);
    AllRowsLength(dfs);
    var shown, offer, kept, traceback :=
      Deliver(merged, dfs, events + [Show(Notice(Success, Merged(|dfs|, totalRows)))], engine, choice, clicked);
    ghost var cleared := offer.Some? && clicked;
    assert shown == events + Closing(dfs, totalRows, engine, cleared);
    ClosingKeepsProgress(events, dfs, totalRows, engine, cleared);
    return Run(shown, kept, totalRows, Some(merged), offer, traceback);
  }

  /** The script after a successful merge: serialise in the chosen format,
      offer the bytes, and once the button has been pressed empty `dfs` and
      say so. A serialiser that raises ends the script with a traceback. */
  method Deliver(merged: Table, dfs: seq<Table>, events: seq<Event>, engine: Engine,
                 choice: Format, clicked: bool)
    returns (shown: seq<Event>, offer: Option<Download>, kept: seq<Table>, traceback: Option<Raise>)
    ensures traceback.Some? <==> Serialise(choice, merged, engine).WriteRaised?
    ensures traceback.Some? ==> traceback.value == Serialise(choice, merged, engine).raise
    ensures offer.Some? <==> Serialise(choice, merged, engine).Written?
    ensures offer.Some? ==> offer.value == Offer(choice, Serialise(choice, merged, engine).bytes)
    ensures kept == if offer.Some? && clicked then [] else dfs
    ensures shown == events + if offer.Some? && clicked then [Show(Notice(Info, CleanedUp))] else []
  {
    match Serialise(choice, merged, engine) {
      case WriteRaised(r) =>
        return events, None, dfs, Some(r);
      case Written(data) =>
        shown, offer, kept, traceback := events, Some(Offer(choice, data)), dfs, None;
        if clicked {
          kept := [];
          shown := shown + [Show(Notice(Info, CleanedUp))];
        }
    }
  }

  /**
   * The download's file name leads back to the reader for its format: the
   * CSV download is named so that uploading it again goes to the CSV
   * reader, and the JSON download so that it takes the JSON path.
   */
  lemma DownloadNameRoutesBack(data: seq<byte>)
    ensures IsCsvName(Offer(CsvFormat, data).fileName)
    ensures !IsCsvName(Offer(JsonFormat, data).fileName)
  {
    CsvNameIgnoresCase("merged.csv");
    CsvNameIgnoresCase("merged.json");
  }
}
