/**
 * `read_file`: choose a reader from the file name, fall back from
 * line-delimited to whole-document JSON, and turn every exception into a
 * `None` result with a message naming the file.
 *
 * The readers themselves belong to the data engine. They are the fields of
 * `Engine`: each maps the file's bytes to the table it returns or to the
 * exception it raises. Every reader starts from the first byte, which is
 * what the `seek(0)` calls before each attempt ensure.
 */
module Loader {
  import opened Text
  import opened Frame
  import opened Report

  newtype byte = x: int | 0 <= x < 256

  /** An uploaded file: its name as uploaded and its content. */
  datatype UploadedFile = UploadedFile(name: string, content: seq<byte>)

  /**
   * The exception classes the handlers tell apart. `EmptyDataError`,
   * `ParserError`, `UnicodeDecodeError` and `JSONDecodeError` are all
   * subclasses of `ValueError`; `PlainValueError` is a `ValueError` of no
   * more specific class.
   */
  datatype Exc =
    | EmptyDataError
    | ParserError
    | UnicodeDecodeError
    | JSONDecodeError
    | PlainValueError
    | MemoryError
    | OtherException

  /** An exception raised by the engine, with its text. */
  datatype Raise = Raise(exc: Exc, text: string)

  /** What one reader call does: return a table or raise. */
  datatype Attempt = Returned(table: Table) | Raised(raise: Raise)

  /** What a serialiser followed by `.encode("utf-8")` does: hand back the
      bytes, or raise (a `MemoryError` on a large table, a
      `UnicodeEncodeError` on a lone surrogate read from a JSON upload). */
  datatype Written = Written(bytes: seq<byte>) | WriteRaised(raise: Raise)

  /** The three reader calls `read_file` can make. */
  datatype Reader = CsvSniffing | JsonLines | JsonDocument

  /** The data engine's readers, writers and concatenation, as functions of
      their input. `concatRaises` says whether concatenating the given tables
      raises; when it does not, the result is `Frame.Concat`. The writers are
      `to_csv` and `to_json` each followed by UTF-8 encoding; no handler
      surrounds them. */
  datatype Engine = Engine(
    readCsv: seq<byte> -> Attempt,
    readJsonLines: seq<byte> -> Attempt,
    readJson: seq<byte> -> Attempt,
    concatRaises: seq<Table> -> Option<Raise>,
    writeCsv: Table -> Written,
    writeJson: Table -> Written)

  datatype Option<T> = None | Some(value: T)

  /** `read_file`'s result: a table, or `None` after a failure. */
  datatype Outcome = Loaded(table: Table) | Failed(kind: FailureKind)

  /** One call of `read_file`: the readers it called, in order, what it
      returns, and the messages it shows. */
  datatype ReadResult = ReadResult(tried: seq<Reader>, outcome: Outcome, notices: seq<Notice>)

  predicate IsValueError(e: Exc)
  {
    match e
    case MemoryError => false
    case OtherException => false
    case _ => true
  }

  function Call(engine: Engine, r: Reader, content: seq<byte>): Attempt
  {
    match r
    case CsvSniffing => engine.readCsv(content)
    case JsonLines => engine.readJsonLines(content)
    case JsonDocument => engine.readJson(content)
  }

  /** The outer handlers, tried in their order: the first whose class
      matches decides the message. Parse, encoding and structure errors are
      warnings; a memory error, and any other exception, including a
      `ValueError` of no more specific class, is an error. */
  function Classify(r: Raise): (k: FailureKind)
    ensures FailureLevel(k) == Warning <==>
      r.exc in {EmptyDataError, ParserError, UnicodeDecodeError, JSONDecodeError}
    ensures k.ReadError? <==> r.exc in {EmptyDataError, ParserError}
    ensures k == EncodingError <==> r.exc == UnicodeDecodeError
    ensures k.JsonStructureError? <==> r.exc == JSONDecodeError
    ensures k == OutOfMemory <==> r.exc == MemoryError
    ensures k.Unknown? <==> r.exc == PlainValueError || r.exc == OtherException
    ensures (k.ReadError? || k.JsonStructureError? || k.Unknown?) ==> k.detail == r.text
  {
    match r.exc
    case EmptyDataError => ReadError(r.text)
    case ParserError => ReadError(r.text)
    case UnicodeDecodeError => EncodingError
    case JSONDecodeError => JsonStructureError(r.text)
    case MemoryError => OutOfMemory
    case PlainValueError => Unknown(r.text)
    case OtherException => Unknown(r.text)
  }

  /** What `read_file` does with the attempt whose result it keeps. */
  function Settle(tried: seq<Reader>, a: Attempt, name: string): ReadResult
  {
    match a
    case Returned(t) => ReadResult(tried, Loaded(t), [])
    case Raised(r) =>
      var kind := Classify(r);
      ReadResult(tried, Failed(kind), [Notice(FailureLevel(kind), ReadFailed(name, kind))])
  }

  /**
   * `read_file`: the lower-cased name picks the reader; the JSON path falls
   * back from line-delimited to whole-document parsing on a `ValueError`;
   * an exception of any class becomes a `Failed` result and a message.
   */
  function ReadFile(file: UploadedFile, engine: Engine): ReadResult
  {
    var name := Lower(file.name);
    if EndsWith(name, ".csv") then
      Settle([CsvSniffing], engine.readCsv(file.content), file.name)
    else
      match engine.readJsonLines(file.content)
      case Returned(t) => Settle([JsonLines], Returned(t), file.name)
      case Raised(r) =>
        if IsValueError(r.exc) then
          Settle([JsonLines, JsonDocument], engine.readJson(file.content), file.name)
        else
          Settle([JsonLines], Raised(r), file.name)
  }

  /** The line-delimited JSON reader raised a `ValueError` on `content`. */
  predicate FallsBack(engine: Engine, content: seq<byte>)
  {
    engine.readJsonLines(content).Raised? && IsValueError(engine.readJsonLines(content).raise.exc)
  }

  /**
   * The readers `read_file` calls. A name whose lower-cased form ends in
   * ".csv" is read by the sniffing CSV reader and by nothing else. Every
   * other name, ".json" or any other extension, takes the JSON path:
   * line-delimited first, then the whole document only when the first
   * attempt raised a `ValueError`.
   */
  lemma ReaderRoute(file: UploadedFile, engine: Engine)
    ensures var r := ReadFile(file, engine);
      (IsCsvName(file.name) ==> r.tried == [CsvSniffing]) &&
      (!IsCsvName(file.name) ==>
        r.tried == [JsonLines] + if FallsBack(engine, file.content) then [JsonDocument] else []) &&
      (CsvSniffing in r.tried <==> IsCsvName(file.name))
  {
  }

  /**
   * The first reader that returns decides: every reader tried before the
   * last one raised, and the result is the table the last one returned or
   * the classification of what it raised.
   */
  lemma FirstSuccessWins(file: UploadedFile, engine: Engine)
    ensures var r := ReadFile(file, engine);
      |r.tried| > 0 &&
      (forall i :: 0 <= i < |r.tried| - 1 ==> Call(engine, r.tried[i], file.content).Raised?) &&
      match Call(engine, r.tried[|r.tried| - 1], file.content)
      case Returned(t) => r.outcome == Loaded(t)
      case Raised(e) => r.outcome == Failed(Classify(e))
  {
  }

  /**
   * `read_file` never lets an exception out, and reports each failure: a
   * `Failed` result comes with exactly one message, which names the file as
   * uploaded and carries the failure's kind at its level; a table comes with
   * no message.
   */
  lemma FailuresReported(file: UploadedFile, engine: Engine)
    ensures var r := ReadFile(file, engine);
      (r.outcome.Loaded? ==> r.notices == []) &&
      (r.outcome.Failed? ==>
        r.notices == [Notice(FailureLevel(r.outcome.kind), ReadFailed(file.name, r.outcome.kind))])
  {
  }

  // ---------------------------------------------------------------------
  // Reference: the reader as an ordered fallback chain

  /** One link of a fallback chain: a reader, and the exceptions after which
      the next link is tried. */
  datatype Step = Step(reader: Reader, fallsThrough: Exc -> bool)

  /** Runs a chain: the first link that returns, or raises an exception it
      does not fall through on, or is the last link, decides the result. */
  function RunChain(steps: seq<Step>, engine: Engine, content: seq<byte>): (c: (seq<Reader>, Attempt))
    requires |steps| > 0
    ensures 1 <= |c.0| <= |steps|
    decreases |steps|
  {
    var a := Call(engine, steps[0].reader, content);
    if a.Raised? && steps[0].fallsThrough(a.raise.exc) && |steps| > 1 then
      var rest := RunChain(steps[1..], engine, content);
      ([steps[0].reader] + rest.0, rest.1)
    else
      ([steps[0].reader], a)
  }

  function Readers(steps: seq<Step>): seq<Reader>
  {
    seq(|steps|, i requires 0 <= i < |steps| => steps[i].reader)
  }

  /**
   * A chain tries a prefix of its readers in order; every reader but the
   * last raised an exception its link falls through on; the result is what
   * the last reader tried did.
   */
  lemma {:induction false} RunChainSpec(steps: seq<Step>, engine: Engine, content: seq<byte>)
    requires |steps| > 0
    ensures var (tried, last) := RunChain(steps, engine, content);
      tried == Readers(steps)[..|tried|] &&
      (forall i :: 0 <= i < |tried| - 1 ==>
        Call(engine, tried[i], content).Raised? &&
        steps[i].fallsThrough(Call(engine, tried[i], content).raise.exc)) &&
      last == Call(engine, tried[|tried| - 1], content) &&
      (|tried| < |steps| ==> !(last.Raised? && steps[|tried| - 1].fallsThrough(last.raise.exc)))
    decreases |steps|
  {
    var a := Call(engine, steps[0].reader, content);
    if a.Raised? && steps[0].fallsThrough(a.raise.exc) && |steps| > 1 {
      RunChainSpec(steps[1..], engine, content);
      var rest := RunChain(steps[1..], engine, content);
      var tried := [steps[0].reader] + rest.0;
      assert Readers(steps) == [steps[0].reader] + Readers(steps[1..]);
      assert steps[1..][|rest.0| - 1] == steps[|rest.0|];
      forall i | 0 <= i < |tried| - 1
        ensures Call(engine, tried[i], content).Raised?
        ensures steps[i].fallsThrough(Call(engine, tried[i], content).raise.exc)
      {
        if i > 0 {
          assert tried[i] == rest.0[i - 1];
          assert steps[i] == steps[1..][i - 1];
        }
      }
    }
  }

  /** The chain for a file name: the CSV reader alone, or line-delimited JSON
      falling through on any `ValueError` to whole-document JSON. */
  function Plan(name: string): (steps: seq<Step>)
    ensures |steps| > 0
  {
    if IsCsvName(name) then [Step(CsvSniffing, _ => false)]
    else [Step(JsonLines, e => IsValueError(e)), Step(JsonDocument, _ => false)]
  }

  /** The nested handlers of `read_file` behave as the chain of `Plan`. */
  lemma ReadFileFollowsPlan(file: UploadedFile, engine: Engine)
    ensures var (tried, last) := RunChain(Plan(file.name), engine, file.content);
      ReadFile(file, engine) == Settle(tried, last, file.name)
  {
  }
}
