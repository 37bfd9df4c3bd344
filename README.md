# Jade chat: conversation store, memory and chat turn, in Dafny

This project models the stateful core of the Jade chat app:

- **`modules/storage.py`**: two append-only JSON lists on disk, the chat history (`data/chat_history.json`) and the event log (`data/logs.json`).
  - `ensure_data_dir` creates each file as `[]` when it is absent.
  - Every read first calls `ensure_data_dir`.
  - Every append reads the whole list, adds one entry at the tail and writes the list back.
- **`modules/memory.py`**: the class `Memory`. It keeps its `messages` list mirrored to `data/memory.json`.
- **`app.py`**: the logic of the Chat page, the sidebar and the admin page, without the UI:
  - message assembly and outcome classification in `run_groq_chat`;
  - normalisation of the stored history;
  - the submit flow;
  - the sidebar's "clear local history";
  - the admin unlock and its newest-first views.

How the model is built:

- **Files.** The filesystem is a `Disk` object holding a map from path to content. A file holds either a JSON list (`Doc`) or content that is not one (`Unreadable`): bytes that `json.load` rejects, or a decoded value other than a list. Writing a list and loading it back is exact. Every operation that touches files takes the `Disk` and states its new contents.
- **Storage.** The store operations are methods, each proved equal to one of three pure functions: `Storage.Ensured`, `Storage.Read` and `Storage.Append`. The contracts of those functions, and lemmas about them, carry the properties.
- **Memory.** `Memory.Memory` is a class with a `messages` field and a shared `disk`. Its invariant `Valid()` says the memory file holds exactly `messages`. The constructor, `Add` and `Clear` re-establish it whatever the file held; `Get` changes nothing.
- **Failures.** Reads of an unreadable file are not treated as an empty history. `json.load` raises and the exception escapes the page, so the model returns an error value (`Result.Err`). The methods pass that error on, and the Chat page run ends in `Crashed`. The Chat page shows the stored history before it handles the form (`app.py:83-91`), calling `get` on every entry, so a chat file that does not read, or holds an entry that is not a dict, stops the page before anything is written.
- **Completion call.** The HTTP exchange is a parameter (`Completion.Response`): a transport exception, or a status code with raw text and a body. The body is either decoded JSON or the text of the decode exception. `Completion.Classify` is the branching of `app.py:60-71`. `PyValues` models the dict, list and string operations it uses, and the exceptions they raise, with their CPython 3.12 texts.

Two behaviours of the code are kept as they are written:

- **The prompt is sent twice.** The user entry is appended (`app.py:102`) before the history is re-read (`app.py:105`). So the request ends with the prompt twice: once at the end of the history and once as the final user message (`app.py:56`). `ChatApp.PromptSentTwice` proves this.
- **No history window.** The full stored history is sent. Nothing trims it to the last N turns.

## Model

| member | source | states |
|---|---|---|
| `Files.Load` | modules/storage.py:21-22 | `json.load` of a file succeeds exactly when the file holds a JSON list, and returns that list; otherwise it fails naming the file |
| `Storage.Ensured` | modules/storage.py:10-17 | `ensure_data_dir` adds exactly the chat and log files, each as `[]` and only when absent; every existing file, readable or not, keeps its contents |
| `Storage.EnsureIdempotent` | modules/storage.py:10-17 | running `ensure_data_dir` twice equals running it once |
| `Storage.EnsureDataDir` | modules/storage.py:10-17 | the method leaves the disk exactly as `Ensured` describes |
| `Storage.Read` | modules/storage.py:19-22 | a read returns `[]` when the file was absent, otherwise the result of `json.load` (an error for an unreadable file); its only effect on disk is `ensure_data_dir`'s |
| `Storage.ReadTwiceSame` | modules/storage.py:19-22 | a second read returns what the first returned: reads do not change the stored sequences |
| `Storage.Append` | modules/storage.py:24-28 | an append succeeds exactly when the list reads; the file then reads as the old list followed by the entry; on failure only `ensure_data_dir`'s files are written; the other file is untouched |
| `Storage.AppendKeepsOther` | modules/storage.py:24-39 | `append_chat` does not change what `read_logs` returns, and `append_log` does not change what `read_chat` returns |
| `Storage.AppendAllInOrder` | modules/storage.py:24-28 | any sequence of appends to a readable file all succeed, and the file reads back as the old entries followed by the new ones in the order appended |
| `Storage.AppendAllKeepsOther` | modules/storage.py:24-39 | a sequence of appends to one file leaves what the other file reads as unchanged |
| `Storage.ReadChat` | modules/storage.py:19-22 | `read_chat` returns and leaves on disk what `Read` says for the chat file |
| `Storage.AppendChat` | modules/storage.py:24-28 | `append_chat` returns and leaves on disk what `Append` says for the chat file |
| `Storage.ReadLogs` | modules/storage.py:30-33 | `read_logs` returns and leaves on disk what `Read` says for the log file |
| `Storage.AppendLog` | modules/storage.py:35-39 | `append_log` returns and leaves on disk what `Append` says for the log file |
| `PyValues.Message` | modules/memory.py:19 | the stored record (and a request message, app.py:54-56) has exactly the keys `role` and `content`, holding the given values |
| `Memory.Memory.constructor` | modules/memory.py:7-16 | `messages` is `[]` when the file was absent and the file's list otherwise; the file then holds `messages` and no other file changes |
| `Memory.Memory.Add` | modules/memory.py:18-21 | `messages` becomes the old messages followed by `{role, content}`, and the file is rewritten to equal it |
| `Memory.Memory.Get` | modules/memory.py:23-24 | returns `messages` and changes nothing |
| `Memory.Memory.Clear` | modules/memory.py:26-29 | `messages` and the file both become `[]`, whatever they held, so a second call changes nothing |
| `Memory.AddEach` | modules/memory.py:18-21 | a run of `add` calls leaves `messages` as `AfterAdds` describes, and the file then holds exactly `messages` |
| `Memory.AddsKeepPrefix` | modules/memory.py:18-19 | a run of `add` calls keeps every earlier message in place and appends the new records in call order |
| `Completion.BuildRequest` | app.py:53-58 | the request has model `llama3-8b-8192` and 300 max tokens; its messages are the fixed Jade system message, then the whole history unchanged and in order, then the prompt as a user message; the list is two longer than the history |
| `Completion.UserMessage` | app.py:56 | the prompt as a `{role: "user", content: prompt}` message; `PyValues.Message` states its keys |
| `Completion.HttpErrorText` | app.py:64 | the text `Groq HTTP <code>: <body text>`; `StatusNot200Fails` states it and reads the code back |
| `Completion.UpstreamMessage` | app.py:67 | `data["error"].get("message", str(data))`; `UpstreamErrorFails` states its value for an `error` object |
| `Completion.Caught` | app.py:70-71 | an exception caught by the `except` clause becomes `(False, str(e))`; `OkOnlyForWellFormed` states that every such path fails |
| `Completion.Classify` | app.py:60-71 | the branching of `run_groq_chat` from the endpoint's answer to `(ok, text)`; what it promises is stated by `OkOnlyForWellFormed`, `StatusNot200Fails`, `UpstreamErrorFails`, `WellFormedReplySucceeds` and `ExceptionsFail` |
| `Completion.StatusNot200Fails` | app.py:62-64 | any status other than 200 gives `ok = false` with text `Groq HTTP <code>: <body text>`, and the numeral right after `Groq HTTP ` reads back as the code |
| `Completion.ExceptionsFail` | app.py:60-71 | an exception from `requests.post` or from `r.json()` gives `ok = false` with the exception's text |
| `Completion.UpstreamErrorFails` | app.py:66-67 | a 200 body with an `error` object gives `ok = false` with that error's `message`, or `str(data)` when it has none |
| `Completion.WellFormedReplySucceeds` | app.py:68-69 | a 200 body without `error` whose `choices[0].message.content` exists gives `ok = true` with that content |
| `Completion.OkMeansDocumentedShape` | app.py:66-69 | a successful answer is a 200 object without `error` whose `choices` is a non-empty list, whose first element holds a `message` object with a `content` member, and the text is that content |
| `Completion.OkOnlyForWellFormed` | app.py:60-71 | `ok` holds exactly for a 200 JSON object without `error` whose content path resolves, and the text is then that content; every other path, exceptions included, gives `ok = false` |
| `PyValues.ErrorText` | app.py:70-71 | `str(e)` of each exception the app's subscripts, `in` test, `get` call and string concatenation raise, in CPython 3.12's words |
| `PyValues.Get` | app.py:67 | `d.get(key, default)` is the member when the key is present and the default otherwise |
| `PyValues.Subscript` | app.py:68 | subscripting a dict by a present key, a list by an index in range, or a string by an index in range yields the member (the one-character string); it succeeds exactly in those cases and raises on a missing key, an index out of range, the wrong kind of key or a value that is not subscriptable |
| `PyValues.Walk` | app.py:68 | `data["choices"][0]["message"]["content"]`: the subscripts applied in order, stopping at the first that raises; `OkMeansDocumentedShape` states when the content path resolves |
| `PyValues.Contains` | app.py:66 | `"error" in data` is the key test on a dict, and it raises exactly on values that are not containers |
| `PyText.Decimal` | app.py:64 | `str(code)` is a non-empty string of digits with no leading zero |
| `PyText.DecimalRoundTrip` | app.py:64 | the decimal numeral of the status code reads back as the code |
| `PyText.Strip` | app.py:97 | `txt.strip()` is the slice of `txt` with only whitespace before and after it, and a non-empty result neither starts nor ends with whitespace |
| `PyText.IsBlank` | app.py:97 | the blank test `not txt or txt.strip() == ""`; `BlankIffAllSpace` states what it means |
| `PyText.BlankIffAllSpace` | app.py:97 | `not txt or txt.strip() == ""` holds exactly when every character of `txt` is whitespace |
| `ChatApp.UserEntry` | app.py:101 | the user's chat entry has exactly the keys `role`, `content` and `time`, and normalised for the request it is the prompt as a user message, without its time |
| `ChatApp.AssistantEntry` | app.py:117 | the assistant's chat entry has exactly the keys `role`, `content` and `time`, and normalises to an `assistant` message holding the reply |
| `ChatApp.ChatLog` | app.py:118 | the log of an answered prompt has exactly the keys `time`, `event` and `user_input`, with event `chat` and the user's text |
| `ChatApp.ErrorLog` | app.py:113 | the log of a failed call has exactly the keys `time`, `event` and `detail`, with event `groq_error` and the failure text |
| `ChatApp.ClearLog` | app.py:40 | the log of the clear button has exactly the keys `time` and `event`, with event `clear_history_requested` |
| `ChatApp.Normalized` | app.py:108 | a stored dict becomes `{role: get("role", "user"), content: get("content", "")}`; any other value raises `AttributeError` on `get` |
| `ChatApp.NormalizeAll` | app.py:106-108 | the stored history normalised entry by entry in order, or the first entry's exception; `NormalizeAllSpec` states what it means |
| `ChatApp.NormalizeAllSpec` | app.py:106-108 | normalising the history succeeds exactly when every entry is a dict; it then keeps the length and the order, entry by entry; a failure carries the first non-dict entry's error |
| `ChatApp.NormalizeErrorSticks` | app.py:107-108 | once an entry raises, the loop's outcome is that exception, whatever follows |
| `ChatApp.NormalizeAppend` | app.py:102-108 | appending a dict to a history that normalises adds its message at the end and keeps the earlier ones |
| `ChatApp.NormalizeHistory` | app.py:105-108 | the loop computes exactly `NormalizeAll` of the stored history |
| `ChatApp.PromptSentTwice` | app.py:101-110 | with the user entry stored before the history is read, the request's last two messages are both the prompt as a user message, and it is three longer than the stored history |
| `ChatApp.RecordOutcome` | app.py:111-118 | on success the reply is appended to the chat and one `chat` log is added; on failure one `groq_error` log is added and the chat is unchanged; a non-string failure text raises before logging and writes nothing; an event log that does not read raises at its append, after a reply has been stored in the chat and with nothing written on failure |
| `ChatApp.AskAndRecord` | app.py:105-118 | the request sent is built from the whole stored history; an entry that is not a dict raises before the call and writes nothing; the chat only grows; the success, failure and exception paths, an unreadable event log included, are as in `RecordOutcome` |
| `ChatApp.ShowHistory` | app.py:83-91 | the display read returns the history as shown exactly when the chat reads and every entry is a dict; otherwise it fails with the read error or the first entry's `AttributeError`; its only effect on disk is `ensure_data_dir`'s |
| `ChatApp.SendPrompt` | app.py:100-118 | the user entry is stored first and never rolled back; the request carries the shown history, then the prompt; on success the chat ends with the user entry and the reply and one `chat` log is added; on failure only a `groq_error` log is added; a non-string failure text raises with only the user entry added; an unreadable event log raises at its append, with the reply stored on success |
| `ChatApp.Submit` | app.py:83-118 | a history that cannot be shown stops the page before the form, with nothing written; blank input changes no file and sends nothing; otherwise the outcomes are those of `SendPrompt`, in terms of the files before the run; no other file is touched |
| `ChatApp.ClearHistory` | app.py:39-44 | one `clear_history_requested` log is appended, then the chat reads as `[]`; an unreadable log raises first and the chat is not cleared |
| `ChatApp.NewestFirst` | app.py:175 | `s[::-1]` has the same length, and its element `i` is the element `i` places from the end of `s` |
| `ChatApp.NewestFirstAfterAppend` | app.py:175-178 | the entry appended last is shown first, followed by the older entries newest first |
| `ChatApp.NewestFirstInvolution` | app.py:175 | reversing the view gives the stored order back |
| `ChatApp.AdminPassword` | app.py:28 | the admin password is the `ADMIN_PASSWORD` secret, or `"admin"` when none is set |
| `ChatApp.AdminUnlock` | app.py:170-182 | a password other than `AdminPassword(secrets)` shows nothing and touches no file; the right one shows the logs, then the chat, each newest first, or the error of the first file that does not read |

## Left out

- Streamlit rendering, widgets, page routing, `st.stop` and the sidebar status lines (app.py throughout). The `GROQ_API_KEY` check (app.py:11-13) and the other secrets are configuration from the environment.
- The HTTP call itself: `requests.post` with its headers, key and 30-second timeout (app.py:61). Its answer is the `Response` parameter. `Endpoint` and `TimeoutSeconds` record the constants. The SDK client in modules/groq_client.py is not part of this model.
- The rendering of the shown history (app.py:88-91). `ChatApp.ShowHistory` models the read and the `get` calls as the same loop as the normalisation, and returns what would be shown.
- The "Export chat as JSON" button inside the admin view (app.py:179-180). It is a download widget.
- The Email and SMS pages (app.py:120-163), modules/tools.py, modules/actions.py and the pages/ directory. They are third-party clients and UI. pages/1_Admin_Dashboard.py writes `{"history": [...]}` to the memory file, a format that disagrees with modules/memory.py; that page is not part of this model.
- Directories (`os.makedirs`). A path is just a key of the file map.
- JSON encoding details: `indent`, `ensure_ascii`, floating-point numbers, duplicate keys. Numbers are integers, and a write followed by a read is exact.
- File contents that decode to a JSON value that is not a list. They are grouped with undecodable files as `Unreadable`, and the model reports a failure at the read. Python's `read_chat` and `read_logs` return such a value, and the failure, when there is one, comes later and with another exception: at the display loop's `get`, at `append`, or when iterating a number or `null`. An empty string or an empty dict shows no history on the Chat page and fails only at the append.
- `ChatApp.AdminUnlock`: does not show a file holding a JSON string. Python's `[::-1]` reverses a string and shows it (app.py:175, 178); the model returns `ViewCrashed` for any non-list content.
- `Memory.Memory.constructor` requires the memory file to be absent or to hold a JSON list. With any other content, Python raises in `json.load`, or at the first `add`.
- `Memory.Memory.Get` returns the value of `messages`. Python returns the list object itself, so a caller that mutated it would change `messages` without rewriting the file. That aliasing is not modelled.
- The text of exceptions raised inside `requests` and the JSON decoder, and `str(data)` of a decoded body. These are computed by library code, and the model takes them as given (`Response`, `Body.shown`). The texts of the exceptions the app's own subscripts raise are CPython 3.12's.
- Timestamps (`datetime.utcnow()`). They are parameters `t1`, `t2`, `t3`, the values of successive calls.
- Concurrency between sessions, a crash in the middle of a write, and file corruption other than an unreadable file. The code handles none of them.
- History windowing or trimming. The code has none.
