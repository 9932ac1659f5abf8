# Data-Chat-App in Dafny

A model of the two deterministic parts of Data-Chat-App, a CSV question-answering
tool: a FastAPI backend (`backend.py`) that asks a language model for SQLite
queries, and a React page (`App.js`) that drives the session.

- `pystr.dfy` (module `PyStr`): the Python string operations the backend relies on.
  These are `str.isspace` with Python's full whitespace set, `str.strip()`,
  substring search, `"\n".join(...)`, and `str.split`, which is used to read a join
  back.
- `backend.dfy` (module `Backend`) models three things:
  - The rule `/re_generate/` uses (backend.py:127-128) to turn a model reply into a query: search for
    ```` ```sql\n(.*?)\n``` ```` with `re.DOTALL`, then strip the capture group, or
    strip the whole reply when nothing matches.
    - The regular expression search is specified as the leftmost start with the
      shortest capture (`IsSearchMatch`). It is computed by finding the first opener
      and then the first closer after it (`SearchFence`). The two are proved to
      agree.
  - The `PRAGMA table_info` row → column descriptor comprehension.
  - The schema text that goes into the prompts.
- `app.dfy` (module `App`):
  - The page's seven state variables, as the fields of `Session`, with one method
    per handler. Each remote call is a parameter: the value the handler reads from
    the response, or the error it rejects with.
  - The transitions are also stated as functions on snapshots (`Next`, `Sent`,
    `Notices`). The methods are proved against these functions, and the properties
    are proved about the functions:
    - which variables each handler reads and writes;
    - that a failed call changes nothing;
    - that a regeneration replaces the query and empties the result and the answer
      in one commit;
    - where a displayed result can come from.
- `wrappers.dfy`: `Option`.

The model follows the code where the intended workflow asks for more than the code does:
- `generateQuery` does not clear the result or the answer (`App.GenerateKeepsStaleResult`).
- An upload clears nothing.
- No handler checks a precondition: formatting an empty result still sends it.
- Only `regenerateQuery` catches its failure. Any other failed call ends in an
  uncaught rejection (`Notice.Unhandled`) and changes no state.

## Model

| member | source | states |
|---|---|---|
| PyStr.Strip | backend.py:128 | `strip()` leaves no whitespace at either end and never lengthens the text |
| PyStr.StripSplits | backend.py:128 | what `strip()` removes is whitespace before and after the result, and the result is a piece of the input |
| PyStr.StripUnique | backend.py:128 | whitespace, then a text with no whitespace at its ends, then whitespace, strips to exactly that text |
| PyStr.StripIdempotent | backend.py:128 | stripping twice is stripping once |
| PyStr.StripContains | backend.py:128 | a pattern found in the stripped text is found in the text |
| PyStr.Find | backend.py:127 | the first occurrence of a literal at or after a position, or none at all after it |
| PyStr.Join | backend.py:69-71 | joining no lines gives the empty text and joining one line gives that line |
| PyStr.SplitJoin | backend.py:69-71 | splitting the join at the separator gives back the lines when none holds the separator |
| PyStr.JoinSplit | backend.py:69-71 | joining the pieces of a split gives back the text, so a join loses nothing |
| Backend.SearchFence | backend.py:127 | a reported match is the leftmost start with the shortest lazy capture, and no report means the pattern matches nowhere |
| Backend.SearchMatchUnique | backend.py:127 | the leftmost, shortest match is the one the search reports |
| Backend.ExtractSqlQuery | backend.py:127-128 | the extracted query never starts or ends with whitespace |
| Backend.FencedReply | backend.py:127-128 | with a match, the query is the stripped capture of the leftmost, shortest match |
| Backend.UnfencedReply | backend.py:128 | with no match anywhere, the query is the whole reply stripped |
| Backend.NoOpenerReply | backend.py:127-128 | a reply where "```sql" is never followed directly by a newline is stripped as a whole |
| Backend.CloserInCapture | backend.py:127 | a closing fence inside a capture would close a shorter match at the same start |
| Backend.FencedQueryHasNoCloser | backend.py:127-128 | the lazy capture stops at the nearest closing fence, so the extracted query holds no "\n```" |
| Backend.FenceRoundTrip | backend.py:127-128 | a stripped query wrapped in a fence, with no closing fence starting inside it, is extracted unchanged |
| Backend.ExampleFencedReply | backend.py:127-128 | "```sql\nSELECT * FROM customers LIMIT 5\n```" yields "SELECT * FROM customers LIMIT 5" |
| Backend.ExampleUpperCaseTag | backend.py:127-128 | the tag is case-sensitive: "```SQL\n…" matches nothing and the whole reply is stripped |
| Backend.ExampleTagWithoutNewline | backend.py:127-128 | "```sql" followed by a space matches nothing and the whole reply is stripped |
| Backend.Describe | backend.py:51-57 | name and type copied; "Not Null" is "Yes" iff notnull is non-zero and "Primary Key" is "Yes" iff pk is non-zero, else "No"; the default is kept when truthy, else "NULL", so "" becomes "NULL" |
| Backend.DescribeColumns | backend.py:50-59 | one descriptor per PRAGMA row, in row order, each the row's descriptor |
| Backend.Lines | backend.py:70 | one "name type" line per descriptor, in order |
| Backend.SchemaText | backend.py:69-71 | the schema text is empty exactly when the schema is, and a one-column schema gives its single line |
| Backend.SchemaTextSplits | backend.py:69-71 | read back line by line, the schema text gives its lines when no name or type spans lines |
| Backend.SchemaTextLines | backend.py:69-71 | the schema text of the PRAGMA rows holds one "name type" line per row, in row order |
| App.Changed | App.js:5-11 | the set of state variables that differ is empty exactly when two states are equal |
| App.Next | App.js:13-71 | each transition writes only its own variables, and a failed remote call leaves all seven unchanged |
| App.Sent | App.js:13-71 | only the handlers talk to the backend, the input changes do not; only a successful upload sends a second request, and that one asks for the schema |
| App.Notices | App.js:13-71 | alerts only while calls succeed; a failure ends in one uncaught rejection, except in a regeneration, which logs and alerts |
| App.SentReadsOnly | App.js:13-71 | the requests depend only on the variables each handler reads: the file, the question, the query with the question and description, the query, the question with the result |
| App.RegenerateOutcome | App.js:35-52 | regenerate sends question, current query and description; success sets the query and empties result and answer together; failure changes nothing and alerts |
| App.ResultProvenance | App.js:46-61 | after any actions, the result is the earlier one, empty, or the rows of a successful run among them |
| App.RegenerateClearsUntilRerun | App.js:46-48 | after a successful regeneration the result stays empty until a run succeeds, and the answer until a formatting succeeds |
| App.ResultKeptUntilRun | App.js:46-61 | without a successful run the result is only kept or emptied |
| App.AnswerKeptUntilFormat | App.js:48-70 | without a successful formatting the answer is only kept or emptied |
| App.GenerateKeepsStaleResult | App.js:27-33 | after a run and a new generation, the shown query is the new one and the shown rows are the old query's |
| App.Session.constructor | App.js:5-11 | no file, empty question, description, query and answer, empty schema and result |
| App.Session.SetFile | App.js:77 | picking a file changes only the file |
| App.Session.SetQuestion | App.js:83 | typing a question changes only the question |
| App.Session.SetDescription | App.js:90 | typing a description changes only the description |
| App.Session.HandleFileUpload | App.js:13-20 | sends the file; on success alerts the backend's message and fetches the schema; state changes as `Next` says |
| App.Session.FetchSchema | App.js:22-25 | requests the schema and replaces it wholesale on success, nothing else |
| App.Session.GenerateQuery | App.js:27-33 | sends the question; on success changes only the query |
| App.Session.RegenerateQuery | App.js:35-53 | sends question, query and description; on success sets the query and clears result and answer, on failure logs, alerts and changes nothing |
| App.Session.RunQuery | App.js:56-62 | sends the current query; on success changes only the result |
| App.Session.FormatAnswer | App.js:64-71 | sends the question and the current result; on success changes only the answer |

## Left out

- Transport is not modelled: FastAPI routing, CORS, `axios` and `requests`. Each remote call is an `Outcome` parameter.
  - Outside the model, the JSON body that `regenerateQuery` sends (App.js:43-45) does not match the form fields `/re_generate/` reads (backend.py:98).
- The language model calls and the prompt texts (backend.py:73-86, 109-124, 150-158) are external. Only the schema text that goes into the prompts is modelled.
  - `format_response` (backend.py:147-160) is only such a call.
- SQLite and pandas are left out because they are external libraries. This covers:
  - CSV loading in `upload_csv` (backend.py:27-40);
  - running `PRAGMA table_info` (backend.py:46-48): its rows are given as `ColumnInfo` values;
  - `run_query` (backend.py:136-145): its rows are given as `Row` values.
- The no-match branch of `generate_query` (backend.py:91) calls `strip()` on the HTTP response object rather than on the reply text. So `/generate-query/` fails on an unfenced reply. Both endpoints are modelled with the rule of backend.py:127-128.
- Only the one regular expression the backend uses is modelled, not a general regular expression engine.
- Printing to the server log (backend.py:92, 104-107, 130, 139) is output only and is left out.
- `JSON.stringify` of the result rows (App.js:67) is an opaque serialisation. `FormatResponse` carries the rows themselves.
  - `Row` is a map, so the column order of a record is not kept.
- `fetchSchema()` is called without `await` in `handleFileUpload` (App.js:19). It is modelled as running right after the upload's alert.
- Interleaving of overlapping requests (double clicks, stale responses) is not modelled. Handlers are sequential atomic steps.
- `alert` and `console.error` are `Notice` values. Rendering (App.js:73-103) is not modelled.
- A response lacking the field a handler reads (which would store `undefined`) is not modelled. Neither is a cancelled file picker storing `undefined`: `None` stands for both `null` and `undefined`.
- Python's `str.strip()` treats a character as whitespace by its Unicode properties. `PyStr.IsSpace` lists these characters explicitly.
