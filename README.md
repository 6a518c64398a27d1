# CSV/JSON file merger: the ingestion pipeline

`app.py` is a single-page Streamlit app. It takes several uploaded CSV or JSON
files, reads each into a table, stacks the tables row-wise into one, and offers
the result for download. The only logic of its own is the ingestion pipeline.
This project models that pipeline in Dafny:

- `read_file` (module `Loader`). The lower-cased file name picks the reader. A
  name ending in `.csv` goes to the delimiter-sniffing CSV reader. Every other
  name goes to the JSON path, which tries line-delimited JSON first and falls
  back to whole-document JSON when that raises a `ValueError`. Each exception
  class becomes a `Failed` outcome (Python's `None`) plus one message that
  names the file.
- The loop over the uploaded files (module `Batch`, method `IngestFiles`). It
  appends to `dfs` every table that was read and is not empty, adds
  `len(df)` to `total_rows`, warns about empty tables, and moves the progress
  bar to `idx/N` after every file.
- The rest of the script (module `App`, methods `RunApp`, `Conclude` and
  `Deliver`). It halts when nothing was kept, then concatenates with
  `ignore_index=True` (module `Frame`), or halts if the concatenation
  raises. It then serialises the merged table in the chosen format. No
  handler surrounds that step, so a serialiser that raises ends the script
  with a traceback, with no download offered. Otherwise it offers the CSV or
  JSON download, and clears `dfs` once the download button has been
  pressed.

The data engine (pandas) appears only through `Loader.Engine`. For each
reader, that type gives the function from a file's bytes to the table the
reader returns or the exception it raises. It also gives whether
concatenation raises, and the two serialisers (each followed by UTF-8
encoding), which return bytes or raise. A successful concatenation
is `Frame.Concat`, which stands in for pandas' default behaviour:
- rows come table after table, renumbered from 0;
- the columns are the union of the input columns, in order of first
  appearance;
- a cell is `Null` where a row's table lacks a column.

What the page shows is a sequence of `Report.Event`s: tagged messages
(level, topic, file name) and progress updates `Progress(done, total)`.

The model follows `app.py`. It has no Latin-1 fallback, no size advisory, no
delimiter override and no unsupported-format error, because `app.py` has
none. A name with any extension other than `.csv` takes the JSON path. A
table that was read but has no rows or no columns is not a failure. It gets
its own "no data" warning and is not merged.

Python's exception hierarchy is modelled exactly where it matters:
- `EmptyDataError`, `ParserError`, `UnicodeDecodeError` and `JSONDecodeError`
  are all `ValueError`s;
- so the inner `except ValueError` on the line-delimited attempt catches
  every one of them and falls back to whole-document parsing;
- `MemoryError` and other exceptions skip the fallback and go straight to
  the outer handlers.

## Model

| member | source | states |
|---|---|---|
| Text.CsvNameIgnoresCase | app.py:29-32 | a name takes the CSV route exactly when its last four characters are `.csv` in any mix of ASCII case |
| Loader.ReadFile | app.py:24-52 | the model of `read_file`; its contract is stated by `Loader.ReaderRoute`, `Loader.FirstSuccessWins`, `Loader.FailuresReported` and `Loader.ReadFileFollowsPlan` |
| Loader.Classify | app.py:42-51 | the outer handlers: `EmptyDataError` and `ParserError` and only they give the read error, `UnicodeDecodeError` and only it the encoding error, `JSONDecodeError` and only it the JSON-structure error, and these are the warnings; a `MemoryError` and only it is the out-of-memory error; a plain `ValueError` or any other exception is the unknown error; the read, structure and unknown messages quote the exception's text |
| Report.FailureLevel | app.py:43-51 | the level each handler shows its message at (`st.warning` or `st.error`), as `Loader.Classify`'s contract states per exception class |
| Loader.ReaderRoute | app.py:29-41 | a `.csv` name (after lower-casing) is read by the CSV reader alone; every other name is read line-delimited first, and as a whole document only when that raised a `ValueError`; the CSV reader is used exactly for `.csv` names |
| Loader.FirstSuccessWins | app.py:37-41 | every reader tried before the last one raised; the result is the table the last reader returned, or the classification of what it raised |
| Loader.FailuresReported | app.py:42-52 | `read_file` never lets an exception out: a failure gives `Failed` with exactly one message that names the uploaded file, at warning level for read, encoding and JSON-structure errors and at error level for memory and unknown errors; a table comes with no message |
| Loader.RunChainSpec | app.py:37-41 | an ordered fallback chain tries a prefix of its readers in order, every reader but the last raised an exception its link falls through on, the last reader tried gives the result, and the chain stops before its end only when that reader returned or raised an exception its link does not fall through on, so after a fall-through exception the next link always runs |
| Loader.ReadFileFollowsPlan | app.py:24-52 | the nested handlers of `read_file` behave as the fallback chain "CSV reader" for `.csv` names and "line-delimited JSON, then whole-document JSON on `ValueError`" for all others |
| Batch.IngestFiles | app.py:54-68 | after the loop `dfs` is the kept (present, non-empty) tables in upload order, `total_rows` is the sum of their lengths, the page showed each file's messages in order, and the progress updates are 1/N, ..., N/N whatever each file's outcome |
| Batch.KeptSpec | app.py:61-65 | `dfs` holds exactly the results that are present and non-empty: the kept positions increase, a position is kept if and only if its result is a non-empty table, and the j-th element of `dfs` is the table at the j-th kept position |
| Batch.KeptNonEmpty | app.py:63-64 | no table in `dfs` is empty |
| Batch.NothingKept | app.py:63-72 | `dfs` ends up empty exactly when every file failed or gave an empty table |
| Batch.Skipped | app.py:63-67 | a file that failed or gave an empty table adds nothing to `dfs` or `total_rows`, and the later files are kept as if it were absent |
| Batch.IngestShown | app.py:61-67 | the messages the loop shows are each file's own messages, file after file in upload order |
| Batch.OneMessageUnlessKept | app.py:42-67 | a merged file shows no message; every other file shows exactly one: its read failure at the handler's level, or the "no data" warning |
| Batch.IngestProgress | app.py:61-68 | the loop moves the progress bar once per file, to k/N after the k-th file, independent of what the readers did |
| Batch.ProgressRises | app.py:61-68 | for N >= 1 files the progress values start at 1/N, strictly increase as fractions and end at exactly 1 |
| Frame.AllRowsLength | app.py:63-65 | the concatenated rows number the sum of the tables' lengths, which is what `total_rows` accumulates |
| Frame.ConcatSpec | app.py:76 | the merged table has as many rows as the inputs together, labelled 0, 1, 2, ...; row m of the j-th input lands after all rows of the inputs before it; every merged row has exactly the merged columns |
| Frame.ConcatCell | app.py:76 | in the merged table a cell keeps its value when its column belongs to the row's own table and is `Null` otherwise |
| Frame.UnionColumnsMembers | app.py:76 | the merged columns are exactly the columns of some input table |
| Frame.UnionColumnsDistinct | app.py:76 | each merged column occurs once |
| Frame.UnionColumnsPrefix | app.py:76 | columns merge in order of first appearance across tables: the merged columns of the first j tables are exactly their columns and lead the merged columns of all tables |
| Frame.UnionColumnsFirst | app.py:76 | the first table's (distinct) columns lead the merged columns in their own order |
| App.RunApp | app.py:54-104 | no upload shows only the prompt; otherwise the progress updates are 1/N, ..., N/N; nothing is merged when no file gave a non-empty table or when the concatenation raises; otherwise the merged table is the concatenation of `dfs` with `total_rows` rows; a serialiser that raises ends the run with a traceback and no download; otherwise the download for the chosen format is offered; `dfs` is cleared, when something was kept, exactly when a download was offered and the button pressed; the page shows the loop's events followed by `App.Closing` |
| App.Conclude | app.py:70-102 | from `dfs`, `total_rows` and the loop's events: the "no valid data" halt, the merge halt, or the merged table, with the offer, traceback, `dfs` and shown messages as in `App.RunApp` |
| App.Deliver | app.py:89-102 | the chosen serialiser's bytes are offered under the format's name and MIME type, or its exception escapes with no offer; pressing the button empties `dfs` and adds the clean-up notice |
| App.MergeFaultOf | app.py:77-82 | the merge handlers: a `MemoryError` and only it is the out-of-memory error; any other exception is the unknown error with its text |
| App.Offer | app.py:89-95 | the download for each format; `App.DownloadNameRoutesBack` states where its file names lead |
| App.ClosingKeepsProgress | app.py:70-102 | nothing after the loop moves the progress bar |
| App.DownloadNameRoutesBack | app.py:89-95 | the CSV download is named `merged.csv`, which the reader would send to the CSV reader, and the JSON download `merged.json`, which takes the JSON path |
| Findings.CsvRefusedAsWritten | app.py:34 | with the CSV call as written, every `.csv` upload fails with an unknown error and is not kept; a batch of only `.csv` files keeps nothing |
| Findings.OneCsvUploadMergesNothing | app.py:34 | a single upload `data.csv` merges nothing, whatever its content |
| Findings.CsvReadWhenParsed | app.py:32-34 | with the intended CSV reader, a `.csv` upload that parses to a non-empty table is read as that table, with no message, and is kept |

## Left out

- Streamlit UI: page configuration, title, markdown, the upload widget, the table preview, the format radio and the download button's rendering. The upload list, the chosen format and whether the button was pressed are parameters of `App.RunApp`. Message wording and rendering are also left out; messages are tags with a level and a file name.
- The progress widget's initial value 0 (the `st.progress(0)` call) is not an event; only the per-file updates are.
- Wall-clock timing: `time.time()` and the elapsed seconds in the success message are I/O and floating point.
- pandas internals: delimiter sniffing, the CSV and JSON parsers, `to_csv` and `to_json` serialisation, and the UTF-8 encoding. They are fields of `Loader.Engine`, so no byte format is modelled; which inputs make a serialiser raise is the engine's to say.
- The table preview (`st.dataframe(merged.head(100))`) is UI and is not modelled; an exception it might raise is not modelled either.
- The traceback an uncaught exception prints is not an event; `App.Run.traceback` records the exception.
- Frame.Concat: the outer-union column alignment is pandas' default behaviour, not code in `app.py`. The model assumes it (first-appearance column order, `Null` for missing cells). Column dtypes, duplicate column names inside one table and the NaN/None distinction are not modelled.
- `file.seek(0)`: a file's content is an immutable byte sequence that every reader reads from the start, so a failing seek is not modelled.
- `del merged` and `gc.collect()` are memory hints with no observable effect; only `dfs.clear()` is modelled, as `dfs` becoming empty.
- Streamlit's re-execution of the script on every widget interaction is not modelled; `RunApp` is one execution. `st.stop()` ends the run.
- Text.Lower: only ASCII letters are case-mapped (Python's `str.lower` maps all of Unicode). The `.csv` decision is unaffected unless a non-ASCII character lower-cases to one of `.`, `c`, `s`, `v`.
- Exception classes: only the classes the handlers tell apart are modelled; an exception that is none of them is `OtherException`, or `PlainValueError` when it is a `ValueError`. A `BaseException` that is not an `Exception` (`KeyboardInterrupt`, `SystemExit`) escapes `except Exception` and is not modelled.

## Findings

| source | as written | input that shows it | evidently intended | confidence | as-written member | corrected member |
|---|---|---|---|---|---|---|
| app.py:34 | `read_csv` is called with `engine='python'` and `low_memory=False`; pandas' option check refuses that pair with a plain `ValueError` before reading, which lands in `except Exception` | any upload named `data.csv` | the sniffing CSV reader without the `low_memory` option, so that a parsable `.csv` file is merged | high; not executed | Findings.CsvRefusedAsWritten | Findings.CsvReadWhenParsed |

`Loader.Engine.readCsv` stands for the intended call throughout the model; `Findings.AsWritten` replaces it by the reader as written.
