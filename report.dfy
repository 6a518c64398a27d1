/**
 * What the app puts on the page, as tags: each warning, error, success and
 * information message with the file it names, and each progress update.
 * The wording and the rendering of messages are not modelled.
 */
module Report {

  /** Why reading one file failed, as the reader's handlers classify it.
      `detail` is the text of the exception the message quotes. */
  datatype FailureKind =
    | ReadError(detail: string)          // EmptyDataError or ParserError
    | EncodingError                      // UnicodeDecodeError
    | JsonStructureError(detail: string) // JSONDecodeError
    | OutOfMemory                        // MemoryError
    | Unknown(detail: string)            // any other exception

  /** Why the concatenation failed. */
  datatype MergeFault = MergeOutOfMemory | MergeUnknown(detail: string)

  datatype Level = Warning | Error | Success | Info

  datatype Topic =
    | ReadFailed(file: string, kind: FailureKind)
    | NoData(file: string)
    | NoValidData
    | MergeFailed(fault: MergeFault)
    | Merged(files: nat, rows: nat)
    | CleanedUp
    | UploadPrompt

  datatype Notice = Notice(level: Level, topic: Topic)

  /** One thing shown to the user: a message, or the progress bar set to
      `done / total`. */
  datatype Event = Show(notice: Notice) | Progress(done: nat, total: nat)

  /** The level the reader shows a failure at: decoding and structure
      problems are warnings, memory and unexpected failures are errors. */
  function FailureLevel(kind: FailureKind): Level
  {
    match kind
    case ReadError(_) => Warning
    case EncodingError => Warning
    case JsonStructureError(_) => Warning
    case OutOfMemory => Error
    case Unknown(_) => Error
  }

  /** The progress updates among `es`, in order. */
  function Progresses(es: seq<Event>): seq<Event>
  {
    if es == [] then []
    else Progresses(es[..|es| - 1]) + (if es[|es| - 1].Progress? then [es[|es| - 1]] else [])
  }

  /** The messages among `es`, in order. */
  function Shown(es: seq<Event>): seq<Notice>
  {
    if es == [] then []
    else Shown(es[..|es| - 1]) + (if es[|es| - 1].Show? then [es[|es| - 1].notice] else [])
  }

  /** Messages turned into events, in order. */
  function ShowAll(ns: seq<Notice>): (es: seq<Event>)
    ensures |es| == |ns|
    ensures forall i :: 0 <= i < |ns| ==> es[i] == Show(ns[i])
  {
    if ns == [] then [] else ShowAll(ns[..|ns| - 1]) + [Show(ns[|ns| - 1])]
  }

  lemma {:induction false} ProgressesAppend(a: seq<Event>, b: seq<Event>)
    ensures Progresses(a + b) == Progresses(a) + Progresses(b)
    decreases |b|
  {
    if b == [] {
      assert a + b == a;
    } else {
      assert (a + b)[..|a + b| - 1] == a + b[..|b| - 1];
      ProgressesAppend(a, b[..|b| - 1]);
    }
  }

  lemma {:induction false} ShownAppend(a: seq<Event>, b: seq<Event>)
    ensures Shown(a + b) == Shown(a) + Shown(b)
    decreases |b|
  {
    if b == [] {
      assert a + b == a;
    } else {
      assert (a + b)[..|a + b| - 1] == a + b[..|b| - 1];
      ShownAppend(a, b[..|b| - 1]);
    }
  }

  /** Messages alone carry no progress update, and their events show back
      exactly those messages. */
  lemma {:induction false} ShowAllSpec(ns: seq<Notice>)
    ensures Progresses(ShowAll(ns)) == []
    ensures Shown(ShowAll(ns)) == ns
  {
    if ns != [] {
      var front := ns[..|ns| - 1];
      ShowAllSpec(front);
      assert ShowAll(ns)[..|ns| - 1] == ShowAll(front);
      assert front + [ns[|ns| - 1]] == ns;
    }
  }
}
