/** `run_groq_chat` in `app.py`: the completion request it assembles from
    a prompt and the history, and how it turns the endpoint's answer into
    an `(ok, text)` pair. The HTTP exchange itself is a parameter: the model
    takes the answer as given. */
module Completion {
  import opened PyText
  import opened PyValues

  // The URL and the timeout of `requests.post`, kept for reference: the
  // exchange itself is the `Response` parameter.
  const Endpoint := "https://api.groq.com/openai/v1/chat/completions"
  const TimeoutSeconds: nat := 30

  const ModelName := "llama3-8b-8192"
  const MaxTokens: nat := 300
  const SystemPrompt := "You are Jade, a helpful customer support assistant."

  const SystemMessage: Json := Message(JStr("system"), JStr(SystemPrompt))

  function UserMessage(prompt: string): Json {
    Message(JStr("user"), JStr(prompt))
  }

  /** The JSON body posted to the endpoint. */
  datatype Request = Request(model: string, messages: seq<Json>, maxTokens: nat)

  /** The request for `prompt` after `history`: one fixed system message,
      then the whole history unchanged and in order (no window, no trim),
      then the prompt as a user message. */
  function BuildRequest(prompt: string, history: seq<Json>): (r: Request)
    ensures r.model == ModelName && r.maxTokens == MaxTokens
    ensures |r.messages| == |history| + 2
    ensures r.messages[0] == SystemMessage
    ensures forall i :: 0 <= i < |history| ==> r.messages[i + 1] == history[i]
    ensures r.messages[|history| + 1] == UserMessage(prompt)
  {
    Request(ModelName, [SystemMessage] + history + [UserMessage(prompt)], MaxTokens)
  }

  /** What `r.json()` gives: a decoded value together with `str()` of it
      (Python's own rendering, which the model takes as given), or the text
      of the exception raised by a body that is not JSON. */
  datatype Body = Decoded(data: Json, shown: string) | NotJson(message: string)

  /** The HTTP exchange as the code sees it: `requests.post` raised (with
      the exception's text), or an answer with its status code, raw text and
      body. */
  datatype Response =
    | TransportFailed(message: string)
    | Answered(status: nat, text: string, body: Body)

  /** The `(ok, text)` pair `run_groq_chat` returns. */
  datatype Outcome = Outcome(ok: bool, text: Json)

  /** `data["choices"][0]["message"]["content"]` */
  const ContentPath: seq<Key> := [Name("choices"), Pos(0), Name("message"), Name("content")]

  /** The text of a non-200 answer. */
  function HttpErrorText(status: nat, text: string): string {
    "Groq HTTP " + Decimal(status) + ": " + text
  }

  /** An exception caught by the `except` clause becomes `(False, str(e))`. */
  function Caught(e: PyError): Outcome {
    Outcome(false, JStr(ErrorText(e)))
  }

  /** `data["error"].get("message", str(data))`, or the exception that
      raises. */
  function UpstreamMessage(data: Json, shown: string): Result<Json, PyError> {
    match Subscript(data, Name("error"))
    case Err(e) => Err(e)
    case Ok(JObj(m)) => Ok(Get(m, "message", JStr(shown)))
    case Ok(v) => Err(NoAttribute(TypeName(v), "get"))
  }

  /** The classification on lines 60-71 of `app.py`. */
  function Classify(resp: Response): Outcome {
    match resp
    case TransportFailed(m) => Outcome(false, JStr(m))
    case Answered(status, text, body) =>
      if status != 200 then Outcome(false, JStr(HttpErrorText(status, text)))
      else
        match body
        case NotJson(m) => Outcome(false, JStr(m))
        case Decoded(data, shown) =>
          match Contains(data, "error")
          case Err(e) => Caught(e)
          case Ok(true) =>
            (match UpstreamMessage(data, shown)
             case Ok(t) => Outcome(false, t)
             case Err(e) => Caught(e))
          case Ok(false) =>
            (match Walk(data, ContentPath)
             case Ok(c) => Outcome(true, c)
             case Err(e) => Caught(e))
  }

  // ---------------------------------------------------------------------
  // What the classification promises
  // ---------------------------------------------------------------------

  /** Any status other than 200 fails with "Groq HTTP <code>: <text>", and
      the numeral right after "Groq HTTP " reads back as the code. */
  lemma StatusNot200Fails(status: nat, text: string, body: Body)
    requires status != 200
    ensures var o := Classify(Answered(status, text, body));
      !o.ok && o.text.JStr? && o.text.s[..10] == "Groq HTTP "
      && o.text.s == "Groq HTTP " + Decimal(status) + ": " + text
      && |Decimal(status)| + 12 <= |o.text.s|
      && DecimalValue(o.text.s[10..10 + |Decimal(status)|]) == status
  {
    var d := Decimal(status);
    assert ("Groq HTTP " + d + ": " + text)[10..10 + |d|] == d;
    DecimalRoundTrip(status);
  }

  /** A transport exception, or a body that is not JSON, fails with the
      exception's text. */
  lemma ExceptionsFail(resp: Response)
    requires resp.TransportFailed? || (resp.Answered? && resp.status == 200 && resp.body.NotJson?)
    ensures Classify(resp) == Outcome(false, JStr(if resp.TransportFailed? then resp.message else resp.body.message))
  {
  }

  /** A 200 answer whose object has an "error" member fails; the text is the
      error's "message", or `str(data)` when it has none. */
  lemma UpstreamErrorFails(fields: map<string, Json>, shown: string, text: string)
    requires "error" in fields && fields["error"].JObj?
    ensures Classify(Answered(200, text, Decoded(JObj(fields), shown)))
         == Outcome(false, Get(fields["error"].fields, "message", JStr(shown)))
  {
  }

  /** A 200 answer of the documented shape succeeds with the content of the
      first choice's message. */
  lemma WellFormedReplySucceeds(fields: map<string, Json>, shown: string, text: string,
                                choices: seq<Json>, message: map<string, Json>, content: Json)
    requires "error" !in fields
    requires "choices" in fields && fields["choices"] == JArr(choices)
    requires |choices| > 0 && choices[0].JObj? && "message" in choices[0].fields
    requires choices[0].fields["message"] == JObj(message) && "content" in message
    requires message["content"] == content
    ensures Classify(Answered(200, text, Decoded(JObj(fields), shown))) == Outcome(true, content)
  {
  }

  /** The converse of `WellFormedReplySucceeds`: a successful answer has
      exactly the documented shape (`choices` a non-empty list whose first
      element holds a `message` object with a `content` member), and the
      text is that content. */
  lemma OkMeansDocumentedShape(resp: Response)
    ensures Classify(resp).ok ==>
      resp.Answered? && resp.status == 200 && resp.body.Decoded? && resp.body.data.JObj?
      && var f := resp.body.data.fields;
      "error" !in f && "choices" in f && f["choices"].JArr? && |f["choices"].items| > 0
      && f["choices"].items[0].JObj? && "message" in f["choices"].items[0].fields
      && f["choices"].items[0].fields["message"].JObj?
      && "content" in f["choices"].items[0].fields["message"].fields
      && Classify(resp).text == f["choices"].items[0].fields["message"].fields["content"]
  {
    OkOnlyForWellFormed(resp);
  }

  /** Success happens only for a 200 answer whose body is a JSON object
      without an "error" member, and the text is then exactly the content
      at `choices[0].message.content`. Every other path reports failure. */
  lemma OkOnlyForWellFormed(resp: Response)
    ensures Classify(resp).ok <==>
      resp.Answered? && resp.status == 200 && resp.body.Decoded?
      && resp.body.data.JObj? && "error" !in resp.body.data.fields
      && Walk(resp.body.data, ContentPath).Ok?
    ensures Classify(resp).ok ==> Classify(resp).text == Walk(resp.body.data, ContentPath).value
  {
  }
}
