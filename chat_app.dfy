/** The non-UI logic of `app.py`: the Chat page's submit flow, the
    sidebar's "clear local history" button and the admin unlock, all of
    which read and write the two stores of `Storage`. Widgets and rendering
    are not modelled; the clock and the completion endpoint's answer are
    parameters. */
module ChatApp {
  import opened PyText
  import opened PyValues
  import opened Files
  import opened Storage
  import opened Completion

  /** What `read_chat()` / `read_logs()` return on the filesystem `fs`. */
  function ChatOf(fs: FileMap): Result<seq<Json>, LoadError> {
    Read(fs, ChatFile).result
  }

  function LogsOf(fs: FileMap): Result<seq<Json>, LoadError> {
    Read(fs, LogFile).result
  }

  /** Both stores read (absent files count: they read as `[]`). */
  predicate Readable(fs: FileMap) {
    ChatOf(fs).Ok? && LogsOf(fs).Ok?
  }

  // ---------------------------------------------------------------------
  // The records the page writes
  // ---------------------------------------------------------------------

  /** The user's chat entry (app.py:101); sent back as a request message,
      it loses its time. */
  function UserEntry(txt: string, time: string): (r: Json)
    ensures r.JObj? && r.fields.Keys == {"role", "content", "time"} && r.fields["time"] == JStr(time)
    ensures Normalized(r) == Ok(UserMessage(txt))
  {
    JObj(map["role" := JStr("user"), "content" := JStr(txt), "time" := JStr(time)])
  }

  /** The assistant's chat entry (app.py:117). */
  function AssistantEntry(reply: Json, time: string): (r: Json)
    ensures r.JObj? && r.fields.Keys == {"role", "content", "time"} && r.fields["time"] == JStr(time)
    ensures Normalized(r) == Ok(Message(JStr("assistant"), reply))
  {
    JObj(map["role" := JStr("assistant"), "content" := reply, "time" := JStr(time)])
  }

  /** The log entry of an answered prompt (app.py:118). */
  function ChatLog(txt: string, time: string): (r: Json)
    ensures r.JObj? && r.fields.Keys == {"time", "event", "user_input"}
    ensures r.fields["event"] == JStr("chat") && r.fields["user_input"] == JStr(txt)
  {
    JObj(map["time" := JStr(time), "event" := JStr("chat"), "user_input" := JStr(txt)])
  }

  /** The log entry of a failed call (app.py:113). */
  function ErrorLog(detail: Json, time: string): (r: Json)
    ensures r.JObj? && r.fields.Keys == {"time", "event", "detail"}
    ensures r.fields["event"] == JStr("groq_error") && r.fields["detail"] == detail
  {
    JObj(map["time" := JStr(time), "event" := JStr("groq_error"), "detail" := detail])
  }

  /** The log entry of the sidebar's clear button (app.py:40). */
  function ClearLog(time: string): (r: Json)
    ensures r.JObj? && r.fields.Keys == {"time", "event"}
    ensures r.fields["event"] == JStr("clear_history_requested")
  {
    JObj(map["time" := JStr(time), "event" := JStr("clear_history_requested")])
  }

  // ---------------------------------------------------------------------
  // History normalisation (app.py:105-108)
  // ---------------------------------------------------------------------

  /** One stored entry as a request message:
      `{"role": e.get("role", "user"), "content": e.get("content", "")}`.
      An entry that is not a dict has no `get` and raises. */
  function Normalized(e: Json): (r: Result<Json, PyError>)
    ensures r.Ok? <==> e.JObj?
    ensures e.JObj? ==> r.value == Message(Get(e.fields, "role", JStr("user")), Get(e.fields, "content", JStr("")))
    ensures !e.JObj? ==> r.error == NoAttribute(TypeName(e), "get")
  {
    match e
    case JObj(m) => Ok(Message(Get(m, "role", JStr("user")), Get(m, "content", JStr(""))))
    case _ => Err(NoAttribute(TypeName(e), "get"))
  }

  /** The whole stored history normalised in order, or the exception of the
      first entry that raises. */
  function NormalizeAll(stored: seq<Json>): Result<seq<Json>, PyError>
    decreases |stored|
  {
    if stored == [] then Ok([])
    else
      match NormalizeAll(stored[..|stored| - 1])
      case Err(e) => Err(e)
      case Ok(ms) =>
        (match Normalized(stored[|stored| - 1])
         case Ok(m) => Ok(ms + [m])
         case Err(e) => Err(e))
  }

  /** Normalisation succeeds exactly when every entry is a dict; it then
      keeps the length and the order and maps each entry on its own; when
      it fails, the error is the first non-dict entry's. */
  lemma {:induction false} NormalizeAllSpec(stored: seq<Json>)
    ensures NormalizeAll(stored).Ok? <==> forall i :: 0 <= i < |stored| ==> stored[i].JObj?
    ensures NormalizeAll(stored).Ok? ==>
      |NormalizeAll(stored).value| == |stored| &&
      forall i :: 0 <= i < |stored| ==> Normalized(stored[i]) == Ok(NormalizeAll(stored).value[i])
    ensures NormalizeAll(stored).Err? ==>
      exists k :: 0 <= k < |stored| && !stored[k].JObj?
        && (forall i :: 0 <= i < k ==> stored[i].JObj?)
        && NormalizeAll(stored).error == NoAttribute(TypeName(stored[k]), "get")
    decreases |stored|
  {
    if stored != [] {
      var n := |stored| - 1;
      var init := stored[..n];
      NormalizeAllSpec(init);
      assert forall i :: 0 <= i < n ==> stored[i] == init[i];
      if NormalizeAll(init).Err? {
        var k :| 0 <= k < |init| && !init[k].JObj?
          && (forall i :: 0 <= i < k ==> init[i].JObj?)
          && NormalizeAll(init).error == NoAttribute(TypeName(init[k]), "get");
        assert !stored[k].JObj?;
      } else if !stored[n].JObj? {
        assert forall i :: 0 <= i < n ==> stored[i].JObj?;
      }
    }
  }

  /** Once a prefix of the history fails to normalise, so does the whole
      history, with the same error. */
  lemma {:induction false} NormalizeErrorSticks(stored: seq<Json>, k: nat)
    requires k <= |stored| && NormalizeAll(stored[..k]).Err?
    ensures NormalizeAll(stored) == NormalizeAll(stored[..k])
    decreases |stored| - k
  {
    if k < |stored| {
      assert stored[..k + 1][..k] == stored[..k];
      NormalizeErrorSticks(stored, k + 1);
    } else {
      assert stored[..k] == stored;
    }
  }

  /** Appending a dict to a history that normalises adds its message at the
      end and leaves the earlier ones as they were. */
  lemma NormalizeAppend(stored: seq<Json>, e: Json)
    requires NormalizeAll(stored).Ok? && e.JObj?
    ensures NormalizeAll(stored + [e]) == Ok(NormalizeAll(stored).value + [Normalized(e).value])
  {
    assert (stored + [e])[..|stored|] == stored;
  }

  /** The loop on lines 106-108. */
  method NormalizeHistory(stored: seq<Json>) returns (r: Result<seq<Json>, PyError>)
    ensures r == NormalizeAll(stored)
  {
    var messages: seq<Json> := [];
    var i := 0;
    while i < |stored|
      invariant 0 <= i <= |stored|
      invariant NormalizeAll(stored[..i]) == Ok(messages)
    {
      assert stored[..i + 1][..i] == stored[..i];
      match stored[i] {
        case JObj(m) =>
          messages := messages + [Message(Get(m, "role", JStr("user")), Get(m, "content", JStr("")))];
        case _ =>
          r := Err(NoAttribute(TypeName(stored[i]), "get"));
          NormalizeErrorSticks(stored, i + 1);
          return;
      }
      i := i + 1;
    }
    assert stored[..i] == stored;
    r := Ok(messages);
  }

  /** The history sent with a prompt already holds that prompt as its last
      user entry, so the request ends with the prompt twice: once from the
      history and once as the final user message. */
  lemma PromptSentTwice(chat: seq<Json>, txt: string, time: string)
    requires NormalizeAll(chat + [UserEntry(txt, time)]).Ok?
    ensures var r := BuildRequest(txt, NormalizeAll(chat + [UserEntry(txt, time)]).value);
      |r.messages| == |chat| + 3
      && r.messages[|chat| + 1] == UserMessage(txt)
      && r.messages[|chat| + 2] == UserMessage(txt)
  {
    var h := chat + [UserEntry(txt, time)];
    NormalizeAllSpec(h);
    assert Normalized(h[|chat|]) == Ok(UserMessage(txt));
  }

  // ---------------------------------------------------------------------
  // The Chat page's submit (app.py:96-118)
  // ---------------------------------------------------------------------

  /** Why a page run stopped with an uncaught exception. */
  datatype Failure = StoreFailed(loadError: LoadError) | Raised(pyError: PyError)

  /** How one press of "Send" ends. */
  datatype SubmitResult =
    | Ignored                    // blank input: only a warning is shown
    | Replied(reply: Json)       // the agent answered
    | AgentError(detail: Json)   // the call failed and was logged
    | Crashed(failure: Failure)  // an exception escaped the page

  /** The history the request is built from: what the chat file held (or
      `[]`), followed by the new user entry. */
  function HistoryAfterPrompt(fs: FileMap, txt: string, t1: string): seq<Json>
    requires ChatOf(fs).Ok?
  {
    ChatOf(fs).value + [UserEntry(txt, t1)]
  }

  /** Both store files exist, as they do after the first append. */
  predicate Present(fs: FileMap) {
    ChatFile in fs && LogFile in fs
  }

  /** The end of a submit (app.py:111-118): log the failure, or store the
      reply and log the chat. */
  method RecordOutcome(disk: Disk, txt: string, outcome: Outcome, t2: string, t3: string)
    returns (result: SubmitResult)
    requires Present(disk.files) && disk.files[ChatFile].Doc?
    modifies disk
    ensures !result.Ignored?
    ensures disk.files.Keys == old(disk.files).Keys
    ensures forall p :: p in old(disk.files) && !IsStoreFile(p) ==> disk.files[p] == old(disk.files)[p]
    ensures disk.files[ChatFile].Doc?
    ensures old(disk.files[ChatFile].items) <= disk.files[ChatFile].items
    ensures result.Replied? <==> outcome.ok && old(disk.files[LogFile]).Doc?
    ensures result.Replied? ==>
      result.reply == outcome.text
      && disk.files[ChatFile] == Doc(old(disk.files[ChatFile].items) + [AssistantEntry(outcome.text, t2)])
      && disk.files[LogFile] == Doc(old(disk.files[LogFile].items) + [ChatLog(txt, t3)])
    ensures result.AgentError? <==> !outcome.ok && outcome.text.JStr? && old(disk.files[LogFile]).Doc?
    ensures result.AgentError? ==>
      result.detail == outcome.text
      && disk.files[ChatFile] == old(disk.files[ChatFile])
      && disk.files[LogFile] == Doc(old(disk.files[LogFile].items) + [ErrorLog(outcome.text, t2)])
    ensures result.Crashed? && old(disk.files[LogFile]).Doc? ==> disk.files == old(disk.files)
    // "Agent error: " + reply needs a string
    ensures !outcome.ok && !outcome.text.JStr? ==>
      result == Crashed(Raised(ConcatNonStr(TypeName(outcome.text)))) && disk.files == old(disk.files)
    // a log that does not read raises at the append; a reply is already stored
    ensures (!old(disk.files[LogFile]).Doc? && (outcome.ok || outcome.text.JStr?)) ==>
      result == Crashed(StoreFailed(Undecodable(LogFile)))
      && disk.files == if outcome.ok
                       then old(disk.files)[ChatFile := Doc(old(disk.files[ChatFile].items) + [AssistantEntry(outcome.text, t2)])]
                       else old(disk.files)
  {
    if !outcome.ok {
      if !outcome.text.JStr? {
        // "Agent error: " + reply raises before anything is logged
        result := Crashed(Raised(ConcatNonStr(TypeName(outcome.text))));
        return;
      }
      var logged := AppendLog(disk, ErrorLog(outcome.text, t2));
      if logged.Err? {
        result := Crashed(StoreFailed(logged.error));
        return;
      }
      result := AgentError(outcome.text);
    } else {
      var saved := AppendChat(disk, AssistantEntry(outcome.text, t2));
      assert saved.Ok?;
      var logged := AppendLog(disk, ChatLog(txt, t3));
      if logged.Err? {
        result := Crashed(StoreFailed(logged.error));
        return;
      }
      result := Replied(outcome.text);
    }
  }

  /** The part of a submit after the user entry is stored (app.py:105-118):
      re-read the history, normalise it, ask, and record the outcome. */
  method AskAndRecord(disk: Disk, txt: string, response: Response, t2: string, t3: string)
    returns (result: SubmitResult, sent: Option<Request>)
    requires Present(disk.files) && disk.files[ChatFile].Doc?
    modifies disk
    ensures !result.Ignored?
    ensures disk.files.Keys == old(disk.files).Keys
    ensures forall p :: p in old(disk.files) && !IsStoreFile(p) ==> disk.files[p] == old(disk.files)[p]
    ensures disk.files[ChatFile].Doc?
    ensures old(disk.files[ChatFile].items) <= disk.files[ChatFile].items
    ensures var n := NormalizeAll(old(disk.files[ChatFile].items));
      sent == if n.Ok? then Some(BuildRequest(txt, n.value)) else None
    ensures result.Replied? <==>
      NormalizeAll(old(disk.files[ChatFile].items)).Ok? && Classify(response).ok && old(disk.files[LogFile]).Doc?
    ensures result.Replied? ==>
      result.reply == Classify(response).text
      && disk.files[ChatFile] == Doc(old(disk.files[ChatFile].items) + [AssistantEntry(result.reply, t2)])
      && disk.files[LogFile] == Doc(old(disk.files[LogFile].items) + [ChatLog(txt, t3)])
    ensures result.AgentError? <==>
      NormalizeAll(old(disk.files[ChatFile].items)).Ok? && !Classify(response).ok
      && Classify(response).text.JStr? && old(disk.files[LogFile]).Doc?
    ensures result.AgentError? ==>
      result.detail == Classify(response).text
      && disk.files[ChatFile] == old(disk.files[ChatFile])
      && disk.files[LogFile] == Doc(old(disk.files[LogFile].items) + [ErrorLog(result.detail, t2)])
    ensures result.Crashed? && old(disk.files[LogFile]).Doc? ==> disk.files == old(disk.files)
    ensures NormalizeAll(old(disk.files[ChatFile].items)).Err? ==>
      result == Crashed(Raised(NormalizeAll(old(disk.files[ChatFile].items)).error)) && disk.files == old(disk.files)
    ensures NormalizeAll(old(disk.files[ChatFile].items)).Ok? && !Classify(response).ok && !Classify(response).text.JStr? ==>
      result == Crashed(Raised(ConcatNonStr(TypeName(Classify(response).text)))) && disk.files == old(disk.files)
    ensures (NormalizeAll(old(disk.files[ChatFile].items)).Ok? && !old(disk.files[LogFile]).Doc?
      && (Classify(response).ok || Classify(response).text.JStr?)) ==>
      result == Crashed(StoreFailed(Undecodable(LogFile)))
      && disk.files == if Classify(response).ok
                       then old(disk.files)[ChatFile := Doc(old(disk.files[ChatFile].items) + [AssistantEntry(Classify(response).text, t2)])]
                       else old(disk.files)
  {
    var stored := ReadChat(disk);
    assert disk.files == old(disk.files);
    var history := NormalizeHistory(stored.value);
    if history.Err? {
      result, sent := Crashed(Raised(history.error)), None;
      return;
    }
    var request := BuildRequest(txt, history.value);
    sent := Some(request);
    var outcome := Classify(response);
    result := RecordOutcome(disk, txt, outcome, t2, t3);
  }

  /** The chat history as the Chat page shows it above the form
      (app.py:83-91), on every run: `read_chat()`, then
      `msg.get("role", "user")` and `msg.get("content", "")` on each entry
      (the same calls as the normalisation, so the same loop). A file that
      does not read, or an entry that is not a dict, stops the page here. */
  method ShowHistory(disk: Disk) returns (r: Result<seq<Json>, Failure>)
    modifies disk
    ensures disk.files == Ensured(old(disk.files))
    ensures r.Ok? <==> Displayable(old(disk.files))
    ensures r.Ok? ==> r.value == NormalizeAll(ChatOf(old(disk.files)).value).value
    ensures ChatOf(old(disk.files)).Err? ==> r == Err(StoreFailed(ChatOf(old(disk.files)).error))
    ensures ChatOf(old(disk.files)).Ok? && r.Err? ==>
      r == Err(Raised(NormalizeAll(ChatOf(old(disk.files)).value).error))
  {
    var chat := ReadChat(disk);
    if chat.Err? {
      r := Err(StoreFailed(chat.error));
      return;
    }
    var shown := NormalizeHistory(chat.value);
    if shown.Err? {
      r := Err(Raised(shown.error));
      return;
    }
    r := Ok(shown.value);
  }

  /** The stored chat reads and every entry of it can be shown. */
  predicate Displayable(fs: FileMap) {
    ChatOf(fs).Ok? && NormalizeAll(ChatOf(fs).value).Ok?
  }

  /** The form's non-blank branch (app.py:100-118), on a disk where the
      display read has run: store the user entry, then ask and record. */
  method SendPrompt(disk: Disk, txt: string, response: Response, t1: string, t2: string, t3: string)
    returns (result: SubmitResult, sent: Option<Request>)
    requires Present(disk.files) && Displayable(disk.files)
    modifies disk
    ensures !result.Ignored?
    ensures var h := HistoryAfterPrompt(old(disk.files), txt, t1);
      ChatOf(disk.files).Ok? && h <= ChatOf(disk.files).value
    ensures sent == Some(BuildRequest(txt, NormalizeAll(ChatOf(old(disk.files)).value).value + [UserMessage(txt)]))
    ensures result.Replied? <==> LogsOf(old(disk.files)).Ok? && Classify(response).ok
    ensures result.Replied? ==>
      result.reply == Classify(response).text
      && ChatOf(disk.files) == Ok(HistoryAfterPrompt(old(disk.files), txt, t1) + [AssistantEntry(result.reply, t2)])
      && LogsOf(disk.files) == Ok(LogsOf(old(disk.files)).value + [ChatLog(txt, t3)])
    ensures result.AgentError? <==>
      LogsOf(old(disk.files)).Ok? && !Classify(response).ok && Classify(response).text.JStr?
    ensures result.AgentError? ==>
      result.detail == Classify(response).text
      && ChatOf(disk.files) == Ok(HistoryAfterPrompt(old(disk.files), txt, t1))
      && LogsOf(disk.files) == Ok(LogsOf(old(disk.files)).value + [ErrorLog(result.detail, t2)])
    ensures !Classify(response).ok && !Classify(response).text.JStr? ==>
      result == Crashed(Raised(ConcatNonStr(TypeName(Classify(response).text))))
      && ChatOf(disk.files) == Ok(HistoryAfterPrompt(old(disk.files), txt, t1))
      && LogsOf(disk.files) == LogsOf(old(disk.files))
    ensures (LogsOf(old(disk.files)).Err? && (Classify(response).ok || Classify(response).text.JStr?)) ==>
      result == Crashed(StoreFailed(LogsOf(old(disk.files)).error))
      && ChatOf(disk.files) == Ok(HistoryAfterPrompt(old(disk.files), txt, t1)
           + if Classify(response).ok then [AssistantEntry(Classify(response).text, t2)] else [])
      && LogsOf(disk.files) == LogsOf(old(disk.files))
    ensures disk.files.Keys == old(disk.files).Keys
    ensures forall p :: p in old(disk.files) && !IsStoreFile(p) ==> disk.files[p] == old(disk.files)[p]
  {
    ghost var fs0 := disk.files;
    var user := UserEntry(txt, t1);
    var appended := AppendChat(disk, user);
    assert appended.Ok?;
    AppendKeepsOther(fs0, ChatFile, LogFile, user);
    NormalizeAppend(ChatOf(fs0).value, user);
    assert disk.files[ChatFile] == Doc(HistoryAfterPrompt(fs0, txt, t1));
    assert disk.files[LogFile].Doc? <==> LogsOf(fs0).Ok?;
    result, sent := AskAndRecord(disk, txt, response, t2, t3);
    assert HistoryAfterPrompt(fs0, txt, t1) + [] == HistoryAfterPrompt(fs0, txt, t1);
  }

  /** One run of the Chat page in which "Send" was pressed with text `txt`
      (app.py:83-118): the history is shown, then the form is handled.
      `t1`, `t2` and `t3` are the values of successive `datetime.utcnow()`
      calls; `response` is the endpoint's answer to the request returned
      in `sent`. */
  method Submit(disk: Disk, txt: string, response: Response, t1: string, t2: string, t3: string)
    returns (result: SubmitResult, sent: Option<Request>)
    modifies disk
    // a history that cannot be shown stops the page before the form
    ensures ChatOf(old(disk.files)).Err? ==>
      result == Crashed(StoreFailed(ChatOf(old(disk.files)).error)) && sent == None
      && disk.files == Ensured(old(disk.files))
    ensures ChatOf(old(disk.files)).Ok? && NormalizeAll(ChatOf(old(disk.files)).value).Err? ==>
      result == Crashed(Raised(NormalizeAll(ChatOf(old(disk.files)).value).error)) && sent == None
      && disk.files == Ensured(old(disk.files))
    // blank input writes nothing and sends nothing
    ensures result.Ignored? <==> IsBlank(txt) && Displayable(old(disk.files))
    ensures result.Ignored? ==> sent == None && disk.files == Ensured(old(disk.files))
    // the user entry is stored before the call and is never rolled back
    ensures !IsBlank(txt) && Displayable(old(disk.files)) ==>
      var h := HistoryAfterPrompt(old(disk.files), txt, t1);
      ChatOf(disk.files).Ok? && h <= ChatOf(disk.files).value
    // the request carries the history as shown, then the new prompt from
    // the store, then the prompt again
    ensures !IsBlank(txt) && Displayable(old(disk.files)) ==>
      sent == Some(BuildRequest(txt, NormalizeAll(ChatOf(old(disk.files)).value).value + [UserMessage(txt)]))
    // success: the assistant's reply follows the user entry, one chat log
    ensures result.Replied? <==>
      !IsBlank(txt) && Displayable(old(disk.files)) && LogsOf(old(disk.files)).Ok? && Classify(response).ok
    ensures result.Replied? ==>
      result.reply == Classify(response).text
      && ChatOf(disk.files) == Ok(HistoryAfterPrompt(old(disk.files), txt, t1) + [AssistantEntry(result.reply, t2)])
      && LogsOf(disk.files) == Ok(LogsOf(old(disk.files)).value + [ChatLog(txt, t3)])
    // failure: no assistant entry, one groq_error log
    ensures result.AgentError? <==>
      !IsBlank(txt) && Displayable(old(disk.files)) && LogsOf(old(disk.files)).Ok?
      && !Classify(response).ok && Classify(response).text.JStr?
    ensures result.AgentError? ==>
      result.detail == Classify(response).text
      && ChatOf(disk.files) == Ok(HistoryAfterPrompt(old(disk.files), txt, t1))
      && LogsOf(disk.files) == Ok(LogsOf(old(disk.files)).value + [ErrorLog(result.detail, t2)])
    // a failure text that is not a string raises before anything is logged
    ensures !IsBlank(txt) && Displayable(old(disk.files)) && !Classify(response).ok && !Classify(response).text.JStr? ==>
      result == Crashed(Raised(ConcatNonStr(TypeName(Classify(response).text))))
      && ChatOf(disk.files) == Ok(HistoryAfterPrompt(old(disk.files), txt, t1))
      && LogsOf(disk.files) == LogsOf(old(disk.files))
    // an event log that does not read raises at its append, after a reply
    // has been stored
    ensures (!IsBlank(txt) && Displayable(old(disk.files)) && LogsOf(old(disk.files)).Err?
      && (Classify(response).ok || Classify(response).text.JStr?)) ==>
      result == Crashed(StoreFailed(LogsOf(old(disk.files)).error))
      && ChatOf(disk.files) == Ok(HistoryAfterPrompt(old(disk.files), txt, t1)
           + if Classify(response).ok then [AssistantEntry(Classify(response).text, t2)] else [])
      && LogsOf(disk.files) == LogsOf(old(disk.files))
    // no other file is touched
    ensures disk.files.Keys == Ensured(old(disk.files)).Keys
    ensures forall p :: p in old(disk.files) && !IsStoreFile(p) ==> disk.files[p] == old(disk.files)[p]
  {
    sent := None;
    ghost var fs0 := disk.files;
    var shown := ShowHistory(disk);
    if shown.Err? {
      result := Crashed(shown.error);
      return;
    }
    if IsBlank(txt) {
      result := Ignored;
      return;
    }
    EnsureIdempotent(fs0);
    ReadTwiceSame(fs0, ChatFile);
    ReadTwiceSame(fs0, LogFile);
    assert HistoryAfterPrompt(disk.files, txt, t1) == HistoryAfterPrompt(fs0, txt, t1);
    result, sent := SendPrompt(disk, txt, response, t1, t2, t3);
  }

  // ---------------------------------------------------------------------
  // Sidebar: "Clear local history (storage)" (app.py:39-44)
  // ---------------------------------------------------------------------

  /** Log the request, then overwrite the chat file with `[]`. An event log
      that does not read raises first, and the chat is then not cleared. */
  method ClearHistory(disk: Disk, time: string) returns (r: Result<(), LoadError>)
    modifies disk
    ensures LogsOf(old(disk.files)).Ok? ==>
      r == Ok(()) && ChatOf(disk.files) == Ok([])
      && LogsOf(disk.files) == Ok(LogsOf(old(disk.files)).value + [ClearLog(time)])
    ensures LogsOf(old(disk.files)).Err? ==>
      r == Err(LogsOf(old(disk.files)).error) && disk.files == Ensured(old(disk.files))
    ensures disk.files.Keys == Ensured(old(disk.files)).Keys
    ensures forall p :: p in old(disk.files) && !IsStoreFile(p) ==> disk.files[p] == old(disk.files)[p]
  {
    ghost var fs0 := disk.files;
    var logged := AppendLog(disk, ClearLog(time));
    if logged.Err? {
      r := Err(logged.error);
      return;
    }
    disk.files := disk.files[ChatFile := Doc([])];
    r := Ok(());
  }

  // ---------------------------------------------------------------------
  // Admin Dashboard page (app.py:170-178)
  // ---------------------------------------------------------------------

  /** `s[::-1]`: the stored list newest first. */
  function NewestFirst(s: seq<Json>): (r: seq<Json>)
    ensures |r| == |s|
    ensures forall i :: 0 <= i < |s| ==> r[i] == s[|s| - 1 - i]
  {
    seq(|s|, i requires 0 <= i < |s| => s[|s| - 1 - i])
  }

  /** The entry appended last is shown first, above the older ones in their
      reversed order. */
  lemma NewestFirstAfterAppend(s: seq<Json>, e: Json)
    ensures NewestFirst(s + [e]) == [e] + NewestFirst(s)
  {
  }

  /** Reversing the view gives the stored order back. */
  lemma NewestFirstInvolution(s: seq<Json>)
    ensures NewestFirst(NewestFirst(s)) == s
  {
  }

  /** `st.secrets.get("ADMIN_PASSWORD", "admin")`. */
  function AdminPassword(secrets: map<string, string>): (pw: string)
    ensures "ADMIN_PASSWORD" in secrets ==> pw == secrets["ADMIN_PASSWORD"]
    ensures "ADMIN_PASSWORD" !in secrets ==> pw == "admin"
  {
    if "ADMIN_PASSWORD" in secrets then secrets["ADMIN_PASSWORD"] else "admin"
  }

  /** What pressing "Unlock Admin" shows. */
  datatype AdminView =
    | WrongPassword
    | Unlocked(logs: seq<Json>, chat: seq<Json>)
    | ViewCrashed(error: LoadError)

  /** The logs, then the chat history, each newest first, and only for the
      right password; a wrong one reads nothing. */
  method AdminUnlock(disk: Disk, pw: string, secrets: map<string, string>) returns (view: AdminView)
    modifies disk
    ensures pw != AdminPassword(secrets) ==> view == WrongPassword && disk.files == old(disk.files)
    ensures pw == AdminPassword(secrets) ==> disk.files == Ensured(old(disk.files))
    ensures pw == AdminPassword(secrets) && Readable(old(disk.files)) ==>
      view == Unlocked(NewestFirst(LogsOf(old(disk.files)).value), NewestFirst(ChatOf(old(disk.files)).value))
    ensures pw == AdminPassword(secrets) && LogsOf(old(disk.files)).Err? ==>
      view == ViewCrashed(LogsOf(old(disk.files)).error)
    ensures pw == AdminPassword(secrets) && LogsOf(old(disk.files)).Ok? && ChatOf(old(disk.files)).Err? ==>
      view == ViewCrashed(ChatOf(old(disk.files)).error)
  {
    var adminPw := AdminPassword(secrets);
    if pw != adminPw {
      view := WrongPassword;
      return;
    }
    ghost var fs0 := disk.files;
    var logs := ReadLogs(disk);
    if logs.Err? {
      view := ViewCrashed(logs.error);
      return;
    }
    var chat := ReadChat(disk);
    ReadTwiceSame(fs0, ChatFile);
    EnsureIdempotent(fs0);
    if chat.Err? {
      view := ViewCrashed(chat.error);
      return;
    }
    view := Unlocked(NewestFirst(logs.value), NewestFirst(chat.value));
  }
}
