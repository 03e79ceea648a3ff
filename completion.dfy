/** `callOpenAI` (script.js:83-120) without the network: the credential
    guard, the request body built from the history, and the guard on the
    shape of the parsed response. What `fetch` brings back is an input. */
module Completion {
  import opened Wrappers

  datatype Role = System | User | Assistant

  /** One conversation entry, `{role, content}`. */
  datatype Message = Message(role: Role, content: string)

  /** A message as it is sent: the role is spelled out, as in JSON. */
  datatype WireMessage = WireMessage(role: string, content: string)

  /** The request body; `temperature` (a float) is not modelled. */
  datatype Request = Request(model: string, messages: seq<WireMessage>, maxCompletionTokens: nat)

  /** The parts of the parsed response body that the guard looks at; a
      missing field or a `null` entry is `None`. */
  datatype Completion = Completion(choices: Option<seq<Option<Choice>>>)
  datatype Choice = Choice(message: Option<ChatMessage>)
  datatype ChatMessage = ChatMessage(content: string)

  /** What the network step gives back: `fetch` rejected with a message, or
      a response with its status, status text, body text, and the outcome of
      `resp.json()` (the parsed body or the parser's error message). */
  datatype Fetched =
    | NetworkError(message: string)
    | Response(status: nat, statusText: string, text: string, json: Result<Completion, string>)

  const Model: string := "gpt-4o"
  const MaxCompletionTokens: nat := 300
  const MissingKeyMessage: string := "OPENAI_API_KEY is missing. Put it in secrets.js for this demo."
  const FormatMessage: string := "Unexpected API response format"

  function RoleName(r: Role): string {
    match r
    case System => "system"
    case User => "user"
    case Assistant => "assistant"
  }

  function ParseRole(name: string): (r: Option<Role>)
    ensures r.Some? ==> RoleName(r.value) == name
  {
    if name == "system" then Some(System)
    else if name == "user" then Some(User)
    else if name == "assistant" then Some(Assistant)
    else None
  }

  /** `resp.ok`: a status in the range 200-299. */
  predicate Ok(status: nat) {
    200 <= status <= 299
  }

  /** The decimal digits of `n`, as `${n}` writes a status code. */
  function Decimal(n: nat): (s: string)
    ensures |s| >= 1
    ensures forall i :: 0 <= i < |s| ==> '0' <= s[i] <= '9'
    ensures n != 0 ==> s[0] != '0'
    decreases n
  {
    if n < 10 then [Digit(n)] else Decimal(n / 10) + [Digit(n % 10)]
  }

  function Digit(d: nat): (c: char)
    requires d < 10
    ensures '0' <= c <= '9'
  {
    (48 + d) as char
  }

  /** The value of a string of decimal digits. */
  function DecimalValue(s: string): nat
    requires forall i :: 0 <= i < |s| ==> '0' <= s[i] <= '9'
  {
    if s == [] then 0 else 10 * DecimalValue(s[..|s| - 1]) + (s[|s| - 1] as nat - 48)
  }

  /** The status code can be read back from its decimal form. */
  lemma {:induction false} DecimalRoundTrip(n: nat)
    ensures DecimalValue(Decimal(n)) == n
    decreases n
  {
    if n >= 10 {
      DecimalRoundTrip(n / 10);
      var s := Decimal(n);
      assert s[..|s| - 1] == Decimal(n / 10);
    }
  }

  /** The message of the error thrown for a non-OK response. */
  function StatusMessage(status: nat, statusText: string, text: string): string {
    StatusPrefix + Decimal(status) + " " + statusText + " - " + text
  }

  const StatusPrefix: string := "API request failed: "

  /** The message names the failure, gives back the status code and ends
      with the response's body text. */
  lemma StatusMessageParts(status: nat, statusText: string, text: string)
    ensures var m := StatusMessage(status, statusText, text);
      var n := |Decimal(status)|;
      && |StatusPrefix| + n <= |m| && m[..|StatusPrefix|] == StatusPrefix
      && DecimalValue(m[|StatusPrefix|..|StatusPrefix| + n]) == status
      && |text| <= |m| && m[|m| - |text|..] == text
  {
    var m := StatusMessage(status, statusText, text);
    var d := Decimal(status);
    var rest := " " + statusText + " - " + text;
    assert m == StatusPrefix + d + rest;
    assert m[|StatusPrefix|..|StatusPrefix| + |d|] == d;
    DecimalRoundTrip(status);
  }

  /** `OPENAI_API_KEY` undefined, or defined but falsy (the empty string). */
  predicate KeyMissing(key: Option<string>) {
    key.None? || key.value == ""
  }

  /** `messageHistory.map(m => ({ role: m.role, content: m.content }))`. */
  function Payload(history: seq<Message>): (p: seq<WireMessage>)
    ensures |p| == |history|
    ensures forall i :: 0 <= i < |p| ==> p[i].content == history[i].content
    ensures forall i :: 0 <= i < |p| ==> ParseRole(p[i].role) == Some(history[i].role)
  {
    seq(|history|, i requires 0 <= i < |history| => WireMessage(RoleName(history[i].role), history[i].content))
  }

  /** Reads a sent message list back as a conversation. */
  function FromWire(p: seq<WireMessage>): (h: Option<seq<Message>>)
    ensures h.Some? ==> |h.value| == |p|
    ensures h.Some? ==> forall i :: 0 <= i < |p| ==> Payload(h.value)[i] == p[i]
  {
    if p == [] then Some([])
    else
      match (ParseRole(p[0].role), FromWire(p[1..]))
      case (Some(r), Some(rest)) =>
        var h := [Message(r, p[0].content)] + rest;
        assert forall i :: 1 <= i < |p| ==> Payload(h)[i] == Payload(rest)[i - 1];
        Some(h)
      case _ => None
  }

  /** The payload is a faithful, in-order copy: reading it back gives the
      history itself. */
  lemma {:induction false} PayloadRoundTrip(history: seq<Message>)
    ensures FromWire(Payload(history)) == Some(history)
  {
    if history != [] {
      PayloadRoundTrip(history[1..]);
      assert Payload(history)[1..] == Payload(history[1..]);
      assert [history[0]] + history[1..] == history;
    }
  }

  /** The synchronous part of `callOpenAI`: the credential check comes before
      anything else, so with no key no request exists. */
  function BuildRequest(key: Option<string>, history: seq<Message>): (r: Result<Request, string>)
    ensures r.Failure? <==> KeyMissing(key)
    ensures r.Failure? ==> r.error == MissingKeyMessage
    ensures r.Success? ==> r.value.model == Model && r.value.maxCompletionTokens == MaxCompletionTokens
    ensures r.Success? ==> FromWire(r.value.messages) == Some(history)
  {
    if KeyMissing(key) then Failure(MissingKeyMessage)
    else
      PayloadRoundTrip(history);
      Success(Request(Model, Payload(history), MaxCompletionTokens))
  }

  /** The shape guard: the reply is `choices[0].message.content`, and a body
      without `choices`, without a first choice or without its `message` is a
      format error. */
  function ReadReply(body: Completion): (r: Result<string, string>)
    ensures r.Success? <==>
      body.choices.Some? && |body.choices.value| > 0 && body.choices.value[0].Some?
      && body.choices.value[0].value.message.Some?
    ensures r.Success? ==> r.value == body.choices.value[0].value.message.value.content
    ensures r.Failure? ==> r.error == FormatMessage
  {
    match body.choices
    case None => Failure(FormatMessage)
    case Some(choices) =>
      if |choices| == 0 then Failure(FormatMessage)
      else match choices[0]
        case None => Failure(FormatMessage)
        case Some(choice) =>
          match choice.message
          case None => Failure(FormatMessage)
          case Some(message) => Success(message.content)
  }

  /** How `await callOpenAI()` settles: rejected with the missing-key error
      before any request; rejected with `fetch`'s error; for a non-OK status,
      rejected with the status line and the body text; rejected with the
      JSON parser's error; rejected with the format error; or resolved with
      the first choice's content. */
  function CallOpenAI(key: Option<string>, history: seq<Message>, fetched: Fetched): (r: Result<string, string>)
    ensures KeyMissing(key) ==> r == Failure(MissingKeyMessage)
    ensures !KeyMissing(key) && fetched.NetworkError? ==> r == Failure(fetched.message)
    ensures !KeyMissing(key) && fetched.Response? && !Ok(fetched.status) ==>
      r == Failure(StatusMessage(fetched.status, fetched.statusText, fetched.text))
    ensures !KeyMissing(key) && fetched.Response? && Ok(fetched.status) ==>
      r == if fetched.json.Failure? then Failure(fetched.json.error) else ReadReply(fetched.json.value)
  {
    match BuildRequest(key, history)
    case Failure(e) => Failure(e)
    case Success(_) =>
      match fetched
      case NetworkError(m) => Failure(m)
      case Response(status, statusText, text, json) =>
        if !Ok(status) then Failure(StatusMessage(status, statusText, text))
        else
          match json
          case Failure(e) => Failure(e)
          case Success(body) => ReadReply(body)
  }

  /** The call resolves exactly when there is a key, the response is OK and
      parses, and it has the expected shape; it then resolves with the first
      choice's content. */
  lemma CallOpenAISucceedsIff(key: Option<string>, history: seq<Message>, fetched: Fetched)
    ensures CallOpenAI(key, history, fetched).Success? <==>
      && !KeyMissing(key) && fetched.Response? && Ok(fetched.status) && fetched.json.Success?
      && ReadReply(fetched.json.value).Success?
    ensures CallOpenAI(key, history, fetched).Success? ==>
      CallOpenAI(key, history, fetched).value == fetched.json.value.choices.value[0].value.message.value.content
  {
  }

  /** With no key the outcome does not depend on the network at all: no
      request is made. */
  lemma MissingKeyIgnoresNetwork(key: Option<string>, history: seq<Message>, f1: Fetched, f2: Fetched)
    requires KeyMissing(key)
    ensures CallOpenAI(key, history, f1) == CallOpenAI(key, history, f2) == Failure(MissingKeyMessage)
  {
  }
}
