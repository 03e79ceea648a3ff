/** `messageHistory` and `sendCurrentMessage` (script.js:31-48, 122-165):
    the conversation, the input field, the send button's `disabled` flag and
    the rendered bubbles, changed step by step as a turn goes idle -> sending
    -> idle. The `await` is the gap between `BeginSend` and the `Resolve` or
    `Fail` of the same turn; the interval callback is `Tick`. */
module Conversation {
  import opened Wrappers
  import opened Text
  import opened BubbleContent
  import opened Completion

  /** Stand-in for the fixed system instruction; its wording is content,
      not behaviour. */
  const SystemPrompt: string := "WayChat system instructions"
  const SystemMessage: Message := Message(System, SystemPrompt)

  const Thinking: string := "Thinking"
  const SorryText: string := "Sorry, something went wrong."
  const ErrorPrefix: string := "Error: "

  /** A bubble in the messages container: the role of its wrapper, the text
      `appendMessage` built its paragraphs from, and the text later written
      into its first paragraph (`textNodeTarget.textContent = ...`), if any. */
  datatype ChatBubble = ChatBubble(role: Role, text: string, firstParagraph: Option<string>)

  /** `appendMessage(role, text)`: the bubble that call adds. */
  function Append(role: Role, text: string): ChatBubble {
    ChatBubble(role, text, None)
  }

  /** The paragraph texts the bubble shows: the trimmed sections of its text,
      the first one replaced when it has been written. */
  function Shown(b: ChatBubble): (ps: seq<string>)
    ensures |ps| >= 1
    ensures b.firstParagraph.Some? ==> ps[0] == b.firstParagraph.value
    ensures b.firstParagraph.None? ==> ps == Paragraphs(b.text)
    ensures ps[1..] == Paragraphs(b.text)[1..]
  {
    var ps := Paragraphs(b.text);
    match b.firstParagraph
    case None => ps
    case Some(t) => ps[0 := t]
  }

  /** A bubble `appendMessage` has just added shows what
      `createBubbleContent` built from its text: one trimmed paragraph per
      section of the split. */
  lemma AppendShows(role: Role, text: string)
    ensures Append(role, text).role == role
    ensures Shown(Append(role, text)) == Paragraphs(text)
  {
  }

  /** `'.'.repeat(n)`. */
  function Dots(n: nat): (d: string)
    ensures |d| == n && forall i :: 0 <= i < n ==> d[i] == '.'
  {
    seq(n, _ => '.')
  }

  /** The placeholder text for a dot count: `Thinking` and that many dots. */
  function ThinkingText(dotCount: nat): string {
    Thinking + Dots(dotCount)
  }

  /** One tick of the counter: `(dotCount + 1) % 4`. */
  function NextDotCount(d: nat): (r: nat)
    ensures r < 4
  {
    (d + 1) % 4
  }

  /** The counter after `n` ticks. */
  function DotCountAfter(d: nat, n: nat): nat
    decreases n
  {
    if n == 0 then d else NextDotCount(DotCountAfter(d, n - 1))
  }

  /** From a count in 0..3, `n` ticks move it `n` steps round 0..3. */
  lemma {:induction false} DotCountAfterIs(d: nat, n: nat)
    requires d < 4
    ensures DotCountAfter(d, n) == (d + n) % 4
    decreases n
  {
    if n > 0 {
      DotCountAfterIs(d, n - 1);
      ModStep(d + n - 1);
    }
  }

  /** One step round 0..3 after reducing is one step before reducing. */
  lemma ModStep(x: nat)
    ensures (x + 1) % 4 == (x % 4 + 1) % 4
  {
    var q, r := x / 4, x % 4;
    assert x == 4 * q + r && 0 <= r < 4;
    if r < 3 {
      assert x + 1 == 4 * q + (r + 1);
    } else {
      assert x + 1 == 4 * (q + 1);
    }
  }

  /** Four more ticks land on the same count. */
  lemma DotCountAfterMod(d: nat, n: nat)
    requires d < 4
    ensures DotCountAfter(d, n) == DotCountAfter(d, n % 4)
  {
    DotCountAfterIs(d, n);
    DotCountAfterIs(d, n % 4);
    ModAdd(d, n);
  }

  /** Adding `n` round 0..3 is adding `n % 4`. */
  lemma ModAdd(d: nat, n: nat)
    ensures (d + n) % 4 == (d + n % 4) % 4
  {
    ModShift(d + n % 4, n / 4);
    assert d + n == (d + n % 4) + 4 * (n / 4);
  }

  /** Whole turns round 0..3 do not move the count. */
  lemma {:induction false} ModShift(x: nat, q: nat)
    ensures (x + 4 * q) % 4 == x % 4
    decreases q
  {
    if q > 0 {
      ModShift(x, q - 1);
      assert x + 4 * q == (x + 4 * (q - 1)) + 4;
    }
  }

  /** The counter has period exactly 4: `n` ticks bring a count in 0..3
      back to itself exactly when `n` is a multiple of 4. */
  lemma DotCountPeriod(d: nat, n: nat)
    requires d < 4
    ensures DotCountAfter(d, n) == d <==> n % 4 == 0
  {
    DotCountAfterMod(d, n);
    DotCountAfterIs(d, n % 4);
  }

  /** A trimmed text without line feeds is rendered as one paragraph
      holding exactly that text. */
  lemma OneLineOneParagraph(text: string)
    requires forall k :: 0 <= k < |text| ==> text[k] != '\n'
    requires IsTrimmed(text)
    ensures Paragraphs(text) == [text]
  {
    SingleLineIsOneParagraph(text);
    TrimOfPadded([], text, []);
    assert [] + text + [] == text;
  }

  /** The text a placeholder shows: what was last written into its first
      paragraph, or `Thinking` before that. */
  function PlaceholderText(b: ChatBubble): string {
    if b.firstParagraph.Some? then b.firstParagraph.value else Thinking
  }

  /** A placeholder, appended as `Thinking`, shows exactly one paragraph: its
      placeholder text. So writing the first paragraph rewrites the whole
      bubble, and the text written is shown unsplit. */
  lemma PlaceholderShows(b: ChatBubble)
    requires b.text == Thinking
    ensures Shown(b) == [PlaceholderText(b)]
  {
    assert IsTrimmed(Thinking) && forall k :: 0 <= k < |Thinking| ==> Thinking[k] != '\n';
    OneLineOneParagraph(b.text);
    assert Shown(b)[1..] == [];
  }

  /** The history starts with the one system message, and no later entry
      is a system message. */
  ghost predicate ValidHistory(history: seq<Message>) {
    && |history| >= 1 && history[0] == SystemMessage
    && (forall i :: 1 <= i < |history| ==> history[i].role != System)
  }

  /** Every awaited turn owns an assistant placeholder appended as
      `Thinking` that shows `Thinking` plus the turn's dot count, and the
      count is in 0..3. The placeholder indices all lie within the bubbles. */
  ghost predicate Placeholders(bubbles: seq<ChatBubble>, pending: map<nat, nat>) {
    && (forall k :: k in pending ==> k < |bubbles|)
    && (forall k {:trigger PlaceholderAt(bubbles, k, pending[k])} :: k in pending ==> PlaceholderAt(bubbles, k, pending[k]))
  }

  /** Bubble `k` is an assistant placeholder appended as `Thinking` that
      shows `Thinking` and `dotCount` dots, with `dotCount` in 0..3. */
  ghost predicate PlaceholderAt(bubbles: seq<ChatBubble>, k: nat, dotCount: nat) {
    && k < |bubbles| && dotCount < 4
    && bubbles[k].role == Assistant && bubbles[k].text == Thinking
    && PlaceholderText(bubbles[k]) == ThinkingText(dotCount)
  }

  /** The placeholder of one awaited turn. */
  lemma PlaceholderOf(bubbles: seq<ChatBubble>, pending: map<nat, nat>, k: nat)
    requires Placeholders(bubbles, pending) && k in pending
    ensures k < |bubbles| && pending[k] < 4
    ensures bubbles[k].role == Assistant && bubbles[k].text == Thinking
    ensures PlaceholderText(bubbles[k]) == ThinkingText(pending[k])
  {
    assert PlaceholderAt(bubbles, k, pending[k]);
  }

  /** Adding bubbles at the end leaves every placeholder in place. */
  lemma PlaceholdersGrow(bubbles: seq<ChatBubble>, pending: map<nat, nat>, more: seq<ChatBubble>)
    requires Placeholders(bubbles, pending)
    ensures Placeholders(bubbles + more, pending)
  {
    forall k | k in pending
      ensures PlaceholderAt(bubbles + more, k, pending[k])
    {
      assert PlaceholderAt(bubbles, k, pending[k]);
      assert (bubbles + more)[k] == bubbles[k];
    }
  }

  /** A fresh `Thinking` bubble becomes the placeholder of a new turn whose
      count starts at 0. */
  lemma PlaceholdersAdd(bubbles: seq<ChatBubble>, pending: map<nat, nat>, t: nat)
    requires Placeholders(bubbles, pending)
    requires t < |bubbles| && bubbles[t] == Append(Assistant, Thinking)
    ensures Placeholders(bubbles, pending[t := 0])
  {
    assert ThinkingText(0) == Thinking by {
      assert Dots(0) == [];
    }
    var added := pending[t := 0];
    forall k | k in added
      ensures PlaceholderAt(bubbles, k, added[k])
    {
      if k != t {
        assert PlaceholderAt(bubbles, k, pending[k]);
      }
    }
  }

  /** A tick moves one turn's count to `d` and shows it in that turn's
      placeholder; every placeholder stays in place. */
  lemma PlaceholdersTick(bubbles: seq<ChatBubble>, pending: map<nat, nat>, t: nat, d: nat)
    requires Placeholders(bubbles, pending) && t in pending && t < |bubbles| && d < 4
    ensures Placeholders(bubbles[t := bubbles[t].(firstParagraph := Some(ThinkingText(d)))], pending[t := d])
  {
    var after := bubbles[t := bubbles[t].(firstParagraph := Some(ThinkingText(d)))];
    var moved := pending[t := d];
    forall k | k in moved
      ensures PlaceholderAt(after, k, moved[k])
    {
      assert PlaceholderAt(bubbles, k, pending[k]);
    }
  }

  /** A settled turn leaves the awaited turns; the others keep their
      placeholders. */
  lemma PlaceholdersDrop(bubbles: seq<ChatBubble>, pending: map<nat, nat>, t: nat, first: Option<string>)
    requires Placeholders(bubbles, pending) && t < |bubbles|
    ensures Placeholders(bubbles[t := bubbles[t].(firstParagraph := first)], pending - {t})
  {
    var after := bubbles[t := bubbles[t].(firstParagraph := first)];
    var rest := pending - {t};
    forall k | k in rest
      ensures PlaceholderAt(after, k, rest[k])
    {
      assert PlaceholderAt(bubbles, k, pending[k]);
    }
  }

  /** What the settled turn writes into its placeholder: the reply, or the
      apology. */
  function PlaceholderWrite(result: Result<string, string>): Option<string> {
    if result.Success? then Some(result.value) else Some(SorryText)
  }

  /** The bubbles a settled turn adds: none for a reply, the `Error: `
      bubble for an error. */
  function ErrorBubbles(result: Result<string, string>): seq<ChatBubble> {
    if result.Success? then [] else [Append(Assistant, ErrorPrefix + result.error)]
  }

  /** Settling the only awaited turn leaves none awaited. */
  lemma OnlyTurn(pending: map<nat, nat>, t: nat)
    requires |pending| == 1 && t in pending
    ensures pending - {t} == map[]
  {
    var rest := pending - {t};
    assert rest.Keys == pending.Keys - {t};
    assert |pending.Keys - {t}| == |pending.Keys| - 1;
    assert rest.Keys == {};
  }

  class Chat {
    /** `messageHistory`. */
    var history: seq<Message>
    /** `chatbotInput.value`. */
    var input: string
    /** `chatbotSendBtn.disabled`. */
    var sendDisabled: bool
    /** The bubbles in the messages container, oldest first. */
    var bubbles: seq<ChatBubble>
    /** Turns awaiting their reply: the index of each turn's placeholder
        bubble, mapped to that turn's `dotCount`. */
    var pending: map<nat, nat>

    /** The history is well formed, every awaited turn has its placeholder,
        and the button is disabled only while some turn is awaited. */
    ghost predicate Valid()
      reads this
    {
      && ValidHistory(history)
      && Placeholders(bubbles, pending)
      && (sendDisabled ==> pending != map[])
    }

    constructor ()
      ensures Valid()
      ensures history == [SystemMessage] && input == "" && !sendDisabled
      ensures bubbles == [] && pending == map[]
    {
      history := [SystemMessage];
      input := "";
      sendDisabled := false;
      bubbles := [];
      pending := map[];
    }

    /** The user types into the input field. */
    method SetInput(text: string)
      requires Valid()
      modifies this
      ensures Valid()
      ensures input == text
      ensures history == old(history) && sendDisabled == old(sendDisabled)
      ensures bubbles == old(bubbles) && pending == old(pending)
    {
      input := text;
    }

    /** `sendCurrentMessage` up to the `await`. Empty or all-space input does
        nothing. Otherwise the trimmed input becomes a user bubble and a user
        entry, the input is cleared, an assistant placeholder reading
        `Thinking` is added, the button is disabled and the turn's dot count
        starts at 0. The turn is named by its placeholder's index. */
    method BeginSend() returns (turn: Option<nat>)
      requires Valid()
      modifies this
      ensures Valid()
      ensures AllSpace(old(input)) ==>
        && turn == None && input == old(input) && history == old(history)
        && sendDisabled == old(sendDisabled) && bubbles == old(bubbles) && pending == old(pending)
      ensures !AllSpace(old(input)) ==>
        && turn == Some(|old(bubbles)| + 1)
        && history == old(history) + [Message(User, Trim(old(input)))]
        && input == ""
        && bubbles == old(bubbles) + [Append(User, Trim(old(input))), Append(Assistant, Thinking)]
        && sendDisabled
        && turn.value !in old(pending) && pending == old(pending)[turn.value := 0]
    {
      TrimEmptyIff(input);
      if input == "" {
        return None;
      }
      var text := Trim(input);
      if text == [] {
        return None;
      }
      var placeholder := |bubbles| + 1;
      PlaceholdersGrow(bubbles, pending, [Append(User, text), Append(Assistant, Thinking)]);
      bubbles := bubbles + [Append(User, text), Append(Assistant, Thinking)];
      PlaceholdersAdd(bubbles, pending, placeholder);
      history := history + [Message(User, text)];
      input := "";
      sendDisabled := true;
      pending := pending[placeholder := 0];
      assert placeholder in pending;
      turn := Some(placeholder);
    }

    /** One run of the interval callback of an awaited turn: the count moves
        on by one, modulo 4, and the placeholder reads `Thinking` and that many
        dots. */
    method Tick(turn: nat)
      requires Valid() && turn in pending
      modifies this
      ensures Valid()
      ensures old(OneTurnAtATime()) ==> OneTurnAtATime()
      ensures pending == old(pending)[turn := NextDotCount(old(pending)[turn])]
      ensures bubbles == old(bubbles)[turn := old(bubbles)[turn].(firstParagraph := Some(ThinkingText(pending[turn])))]
      ensures history == old(history) && input == old(input) && sendDisabled == old(sendDisabled)
    {
      var d := NextDotCount(pending[turn]);
      PlaceholdersTick(bubbles, pending, turn, d);
      pending := pending[turn := d];
      bubbles := bubbles[turn := bubbles[turn].(firstParagraph := Some(ThinkingText(d)))];
    }

    /** The `await` resolved with `reply`: the timer stops, the placeholder
        shows the reply, the history gains the assistant entry and the button
        is enabled again. */
    method Resolve(turn: nat, reply: string)
      requires Valid() && turn in pending
      modifies this
      ensures Valid()
      ensures old(OneTurnAtATime()) ==> OneTurnAtATime()
      ensures history == old(history) + [Message(Assistant, reply)]
      ensures bubbles == old(bubbles)[turn := old(bubbles)[turn].(firstParagraph := Some(reply))]
      ensures pending == old(pending) - {turn}
      ensures !sendDisabled && input == old(input)
    {
      PlaceholdersDrop(bubbles, pending, turn, Some(reply));
      if sendDisabled && |pending| == 1 {
        OnlyTurn(pending, turn);
      }
      pending := pending - {turn};
      bubbles := bubbles[turn := bubbles[turn].(firstParagraph := Some(reply))];
      history := history + [Message(Assistant, reply)];
      sendDisabled := false;
    }

    /** The `await` threw `message`: the timer stops, the placeholder shows
        the apology, an `Error: ` bubble with the message is added, the history
        is left as it is and the button is enabled again. */
    method Fail(turn: nat, message: string)
      requires Valid() && turn in pending
      modifies this
      ensures Valid()
      ensures old(OneTurnAtATime()) ==> OneTurnAtATime()
      ensures history == old(history)
      ensures bubbles == old(bubbles)[turn := old(bubbles)[turn].(firstParagraph := Some(SorryText))]
                         + [Append(Assistant, ErrorPrefix + message)]
      ensures pending == old(pending) - {turn}
      ensures !sendDisabled && input == old(input)
    {
      PlaceholdersDrop(bubbles, pending, turn, Some(SorryText));
      if sendDisabled && |pending| == 1 {
        OnlyTurn(pending, turn);
      }
      pending := pending - {turn};
      bubbles := bubbles[turn := bubbles[turn].(firstParagraph := Some(SorryText))];
      PlaceholdersGrow(bubbles, pending, [Append(Assistant, ErrorPrefix + message)]);
      bubbles := bubbles + [Append(Assistant, ErrorPrefix + message)];
      sendDisabled := false;
    }

    /** `sendCurrentMessage` from start to finish, when the `await` settles
        before any other event: `fetched` is what the network gives back.
        Blank input changes nothing. Otherwise the request carries the history
        with the new user entry, and the turn ends with the button enabled and
        no turn of its own left awaited: a reply is shown in the placeholder
        and kept in the history; an error leaves the history as it was, shows
        the apology and adds the error bubble. */
    method SendCurrentMessage(key: Option<string>, fetched: Fetched) returns (outcome: Option<Result<string, string>>)
      requires Valid()
      modifies this
      ensures Valid()
      ensures AllSpace(old(input)) ==>
        && outcome == None && input == old(input) && history == old(history)
        && sendDisabled == old(sendDisabled) && bubbles == old(bubbles) && pending == old(pending)
      ensures !AllSpace(old(input)) ==>
        var text := Trim(old(input));
        var sent := old(history) + [Message(User, text)];
        && outcome == Some(CallOpenAI(key, sent, fetched))
        && input == "" && !sendDisabled && pending == old(pending)
        && (outcome.value.Success? ==> history == sent + [Message(Assistant, outcome.value.value)])
        && (outcome.value.Failure? ==> history == sent)
        && bubbles == old(bubbles) + [Append(User, text), ChatBubble(Assistant, Thinking, PlaceholderWrite(outcome.value))]
                      + ErrorBubbles(outcome.value)
    {
      ghost var text := Trim(input);
      var turn := BeginSend();
      if turn == None {
        return None;
      }
      var t := turn.value;
      ghost var before := pending;
      var result := CallOpenAI(key, history, fetched);
      Settle(t, result);
      assert (old(bubbles) + [Append(User, text), Append(Assistant, Thinking)])
               [|old(bubbles)| + 1 := Append(Assistant, Thinking).(firstParagraph := PlaceholderWrite(result))]
          == old(bubbles) + [Append(User, text), Append(Assistant, Thinking).(firstParagraph := PlaceholderWrite(result))];
      assert pending == old(pending) by {
        assert before == old(pending)[t := 0] && t !in old(pending);
      }
      outcome := Some(result);
    }

    /** The `try`/`catch`/`finally` after the `await` settled with `result`:
        `Resolve` on a reply, `Fail` on an error. */
    method Settle(turn: nat, result: Result<string, string>)
      requires Valid() && turn in pending
      modifies this
      ensures Valid()
      ensures pending == old(pending) - {turn} && !sendDisabled && input == old(input)
      ensures result.Success? ==> history == old(history) + [Message(Assistant, result.value)]
      ensures result.Failure? ==> history == old(history)
      ensures bubbles == old(bubbles)[turn := old(bubbles)[turn].(firstParagraph := PlaceholderWrite(result))]
                         + ErrorBubbles(result)
    {
      if result.Success? {
        Resolve(turn, result.value);
      } else {
        Fail(turn, result.error);
      }
    }

    /** A click on the send button. A disabled button receives no clicks, so
        this does nothing then; otherwise it sends as `BeginSend` does. */
    method ClickSend() returns (turn: Option<nat>)
      requires Valid()
      modifies this
      ensures Valid()
      ensures old(OneTurnAtATime()) ==> OneTurnAtATime()
      ensures old(sendDisabled) || AllSpace(old(input)) ==>
        && turn == None && input == old(input) && history == old(history)
        && sendDisabled == old(sendDisabled) && bubbles == old(bubbles) && pending == old(pending)
      ensures !old(sendDisabled) && !AllSpace(old(input)) ==>
        && turn == Some(|old(bubbles)| + 1)
        && history == old(history) + [Message(User, Trim(old(input)))]
        && input == ""
        && bubbles == old(bubbles) + [Append(User, Trim(old(input))), Append(Assistant, Thinking)]
        && sendDisabled && pending == old(pending)[turn.value := 0]
    {
      if sendDisabled {
        return None;
      }
      turn := BeginSend();
    }

    /** A key press in the input field, as written: Enter without Shift sends,
        whether or not the button is disabled. */
    method PressEnter(shift: bool) returns (turn: Option<nat>)
      requires Valid()
      modifies this
      ensures Valid()
      ensures shift || AllSpace(old(input)) ==>
        && turn == None && input == old(input) && history == old(history)
        && sendDisabled == old(sendDisabled) && bubbles == old(bubbles) && pending == old(pending)
      ensures !shift && !AllSpace(old(input)) ==>
        && turn == Some(|old(bubbles)| + 1)
        && history == old(history) + [Message(User, Trim(old(input)))]
        && input == ""
        && bubbles == old(bubbles) + [Append(User, Trim(old(input))), Append(Assistant, Thinking)]
        && sendDisabled && pending == old(pending)[turn.value := 0]
    {
      if shift {
        return None;
      }
      turn := BeginSend();
    }

    /** At most one turn is awaited, and exactly one while the button is
        disabled: the one-call-in-flight discipline the disabled button is
        meant to keep. */
    ghost predicate OneTurnAtATime()
      reads this
    {
      if sendDisabled then |pending| == 1 else pending == map[]
    }

    /** The Enter handler with the button's guard: Enter without Shift sends
        only while the button is enabled, as a click does. It keeps one turn
        at a time. */
    method PressEnterGuarded(shift: bool) returns (turn: Option<nat>)
      requires Valid()
      modifies this
      ensures Valid()
      ensures old(OneTurnAtATime()) ==> OneTurnAtATime()
      ensures shift || old(sendDisabled) || AllSpace(old(input)) ==>
        && turn == None && input == old(input) && history == old(history)
        && sendDisabled == old(sendDisabled) && bubbles == old(bubbles) && pending == old(pending)
      ensures !shift && !old(sendDisabled) && !AllSpace(old(input)) ==>
        && turn == Some(|old(bubbles)| + 1)
        && history == old(history) + [Message(User, Trim(old(input)))]
        && input == ""
        && bubbles == old(bubbles) + [Append(User, Trim(old(input))), Append(Assistant, Thinking)]
        && sendDisabled && pending == old(pending)[turn.value := 0]
    {
      if shift || sendDisabled {
        return None;
      }
      turn := BeginSend();
      if turn.Some? {
        assert |pending| == |old(pending)| + 1;
      }
    }
  }

  /** The Enter handler as written, while turn `t` is awaited and the
      button is disabled: typing `b` and pressing Enter starts a second turn,
      and once `t` settles with `reply` the button is enabled again although
      that second turn is still awaited. The text of `b` went out before the
      reply it follows was in the history. */
  method EnterWhileAwaiting(chat: Chat, t: nat, b: string, reply: string)
    requires chat.Valid() && chat.sendDisabled && t in chat.pending && !AllSpace(b)
    modifies chat
    ensures chat.Valid()
    ensures !chat.sendDisabled && |old(chat.bubbles)| + 1 in chat.pending && !chat.OneTurnAtATime()
    ensures chat.history == old(chat.history) + [Message(User, Trim(b))] + [Message(Assistant, reply)]
  {
    chat.SetInput(b);
    var second := chat.PressEnter(false);
    chat.Resolve(t, reply);
  }
}
