/**
 * The CSV call in `read_file` passes `low_memory=False` together with
 * `engine='python'`. pandas' option check refuses that pair: it raises a
 * plain `ValueError` ("The 'low_memory' option is not supported with the
 * 'python' engine") before reading a byte. No handler between
 * `except MemoryError` and `except Exception` names `ValueError`, so every
 * `.csv` upload ends as an unknown error and is never merged.
 *
 * The rest of the model reads `Engine.readCsv` as the intended call, the
 * sniffing reader without that option.
 */
module Findings {
  import opened Text
  import opened Frame
  import opened Report
  import opened Loader
  import opened Batch

  const LowMemoryRefused := "The 'low_memory' option is not supported with the 'python' engine"

  /** The engine with the CSV reader as the call is written: the option
      check raises on every input. */
  function AsWritten(engine: Engine): Engine
  {
    engine.(readCsv := (c: seq<byte>) => Raised(Raise(PlainValueError, LowMemoryRefused)))
  }

  /**
   * As written, every `.csv` upload fails with an unknown error and adds
   * nothing to `dfs`; a batch made only of `.csv` files keeps nothing, so
   * the app halts with "no valid data".
   */
  lemma CsvRefusedAsWritten(files: seq<UploadedFile>, engine: Engine)
    ensures forall i :: 0 <= i < |files| && IsCsvName(files[i].name) ==>
      Outcomes(files, AsWritten(engine))[i] == Failed(Unknown(LowMemoryRefused)) &&
      !Keep(Outcomes(files, AsWritten(engine))[i])
    ensures (forall i :: 0 <= i < |files| ==> IsCsvName(files[i].name)) ==>
      Kept(Outcomes(files, AsWritten(engine))) == []
  {
    var os := Outcomes(files, AsWritten(engine));
    forall i | 0 <= i < |files| && IsCsvName(files[i].name)
      ensures os[i] == Failed(Unknown(LowMemoryRefused))
    {
      assert os[i] == ReadFile(files[i], AsWritten(engine)).outcome;
    }
    NothingKept(os);
  }

  /** A single upload `data.csv` is enough: the run merges nothing. */
  lemma OneCsvUploadMergesNothing(content: seq<byte>, engine: Engine)
    ensures Kept(Outcomes([UploadedFile("data.csv", content)], AsWritten(engine))) == []
  {
    CsvNameIgnoresCase("data.csv");
    CsvRefusedAsWritten([UploadedFile("data.csv", content)], engine);
  }

  /**
   * With the intended CSV reader, a `.csv` upload that parses to a
   * non-empty table is read as that table, with no message, and is merged.
   */
  lemma CsvReadWhenParsed(file: UploadedFile, engine: Engine, t: Table)
    requires IsCsvName(file.name) && engine.readCsv(file.content) == Returned(t) && !IsEmpty(t)
    ensures ReadFile(file, engine) == ReadResult([CsvSniffing], Loaded(t), [])
    ensures Keep(ReadFile(file, engine).outcome)
    ensures Kept(Outcomes([file], engine)) == [t]
  {
    assert Outcomes([file], engine) == [Loaded(t)];
    assert Outcomes([file], engine)[..0] == [];
  }
}
