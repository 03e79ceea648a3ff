# WayChat widget core in Dafny

A model of the chat widget in `script.js`, with proofs about it. The widget is
a browser panel that opens and closes. It sends the user's text, with the
conversation so far, to a chat-completion endpoint. While the reply is
awaited it animates a "Thinking" placeholder, then writes in the reply or an
error. The model covers:

- **Text** (`text.dfy`): ECMAScript white space and `String.prototype.trim`.
- **BubbleContent** (`bubble.dfy`): `createBubbleContent`. A bubble's text is
  cut with `split(/\n\s*\n/)` and each section, trimmed, becomes a paragraph.
  The split follows ECMAScript's algorithm for a regular-expression
  separator. It cuts out the leftmost match, and the greedy `\s*` with
  backtracking makes each cut the longest one. Then it goes on after the
  match.
- **Completion** (`completion.dfy`): `callOpenAI`. It covers the key check,
  the request body copied from the history and the guard on the response's
  shape. The network gives an input value: a `fetch` error or a response
  with its status, text and parsed body.
- **Conversation** (`conversation.dfy`): `messageHistory`, the input field,
  the send button's disabled flag, the bubbles and the awaited turns, as the
  class `Chat`. `sendCurrentMessage` is split at its `await`:
  - `BeginSend` runs up to the call;
  - `Tick` is the interval callback;
  - `Resolve`, `Fail` and `Settle` are the `try`/`catch`/`finally` after it;
  - `SendCurrentMessage` is the whole turn when nothing happens in between;
  - `ClickSend` and `PressEnter` are the two listeners.
- **PanelToggle** (`panel.dfy`): the panel's `open` class as the class
  `Panel`, with the button's click and keydown listeners and the document's
  click listener.
- **Wrappers** (`wrappers.dfy`): `Option` and `Result`.

A bubble is stored as its role, the text it was built from, and the text
later written into its first paragraph, if any. `Shown` gives the paragraphs
it displays.

The model follows the code where the code differs from what its comments (script.js:57-58) and the disabled button (script.js:135) suggest:

- The reply is written as the text of the placeholder's first paragraph
  (script.js:139-140, 154). It is therefore never cut into sections, though
  the comment at script.js:57-58 says replies are. `PlaceholderShows` proves
  that the placeholder shows exactly one paragraph, holding the reply.
- The send button is disabled while a reply is awaited, but the Enter key
  does not check it (see Findings). So more than one turn can be awaited at
  a time. `Chat.pending` maps each awaited turn's placeholder bubble to its
  dot count.

## Model

| member | source | states |
|---|---|---|
| Text.IsSpace | script.js:61 | the white space of `\s` and `trim()`: ECMAScript's WhiteSpace (tab, vertical tab, form feed, space, no-break space, byte order mark, the space separators) and LineTerminator (line feed, carriage return, line and paragraph separators) |
| Text.LeadingSpace | script.js:64 | the white space before the first other character: its length, that it is all white space, and that the next character is not |
| Text.TrailingSpace | script.js:64 | the white space after the last other character, in the same terms |
| Text.Trim | script.js:64 | the result is the part of the input between its leading and trailing white space, and is itself trimmed |
| Text.TrimOfPadded | script.js:64 | trimming white space + trimmed text + white space gives back exactly the trimmed text |
| Text.LeadingSpaceOfPadded | script.js:64 | white space in front of text that starts with another character is counted exactly |
| Text.TrailingSpaceOfPadded | script.js:64 | white space behind text that ends with another character is counted exactly |
| Text.TrimIdempotent | script.js:64 | trimming twice is trimming once |
| Text.TrimEmptyIff | script.js:125-126 | the trimmed input is empty exactly when the input is all white space |
| BubbleContent.SeparatorScan | script.js:61 | the greedy `\s*` scan after a line feed ends within the text, on no match or on a match of at least two characters |
| BubbleContent.SeparatorScanFinds | script.js:61 | the scan ends on the longest prefix matching `\n\s*\n`, and no longer prefix matches; 0 when none does |
| BubbleContent.SeparatorLength | script.js:61 | the length of the `\n\s*\n` match at the start of a text: within the text, and 0 for no match or at least 2 |
| BubbleContent.SeparatorLengthIsLongestMatch | script.js:61 | the match of `\n\s*\n` at a position is a separator, the longest one starting there, as the regular expression's greedy `\s*` finds it |
| BubbleContent.FindSeparator | script.js:61 | the search returns a position at or after `q` where a match starts, or the end of the text |
| BubbleContent.FindSeparatorIsFirst | script.js:61 | no match starts between `q` and the position the search returns: the split takes the leftmost match |
| BubbleContent.NoSeparatorBefore | script.js:61 | text before the first match holds no separator anywhere |
| BubbleContent.MatchAt | script.js:61 | a match found at a position lies inside the text and is a separator |
| BubbleContent.Cut | script.js:61 | the split gives one more section than separators |
| BubbleContent.CutRejoins | script.js:61 | the sections and the separators cut out, laid back together, give the input: the split loses nothing |
| BubbleContent.CutSeparatorsAreSeparators | script.js:61 | every piece the split cuts out matches `\n\s*\n` |
| BubbleContent.CutSectionsHoldNone | script.js:61 | no section the split keeps contains a match |
| BubbleContent.CutSeparatesIff | script.js:61 | the split cuts something exactly when the text holds a match, and without one gives the text as its only section |
| BubbleContent.MatchIsSeparator | script.js:61 | a match found anywhere means the text holds a separator |
| BubbleContent.Split | script.js:61 | `split` always gives at least one section, even for the empty string |
| BubbleContent.Paragraphs | script.js:59-66 | one paragraph per section of the split, so at least one paragraph for any text |
| BubbleContent.ParagraphsTrimmed | script.js:62-65 | every paragraph is trimmed, and it is empty exactly when its section is all white space |
| BubbleContent.NoSeparatorOneParagraph | script.js:59-66 | text without a blank line renders as exactly one paragraph, the trimmed text |
| BubbleContent.NoLineFeedNoSeparator | script.js:61 | text without a line feed holds no separator |
| BubbleContent.SingleLineIsOneParagraph | script.js:59-66 | a one-line text renders as one paragraph, itself trimmed |
| BubbleContent.FindSeparatorAt | script.js:61 | the search stops at the first position with a match |
| BubbleContent.CutAtBlankLine | script.js:61 | a line, `"\n\n"`, then text not starting with white space: the line is the first section and the split goes on with the rest |
| BubbleContent.ParagraphsOfTrimmedSections | script.js:62-65 | when every section is trimmed already, the paragraphs are the sections |
| BubbleContent.OneSection | script.js:61 | a line without line feeds is a single section |
| BubbleContent.TwoSections | script.js:61 | two lines joined by a blank line split into those two lines |
| BubbleContent.ThreeSections | script.js:61 | three lines joined by blank lines split into those three lines |
| BubbleContent.ThreeParagraphs | script.js:59-66 | three trimmed non-empty lines joined by blank lines (as in "A\n\nB\n\nC") render as those three paragraphs |
| Completion.ParseRole | script.js:90 | reading a role name back gives a role that is spelled with that name |
| Completion.Payload | script.js:90 | the copied messages keep the history's length, order, contents and roles |
| Completion.FromWire | script.js:90 | a message list read back as a history copies to that same list again |
| Completion.PayloadRoundTrip | script.js:89-90 | reading the payload back gives the history itself, so the copy loses and reorders nothing |
| Completion.BuildRequest | script.js:84-98 | fails exactly when the key is undefined or empty, with the missing-key message; otherwise the request has model `gpt-4o`, 300 completion tokens and the history's messages |
| Completion.Decimal | script.js:111 | the status code written in decimal: digits only, no leading zero |
| Completion.DecimalRoundTrip | script.js:111 | the decimal digits read back give the status code |
| Completion.StatusMessageParts | script.js:109-112 | the non-OK error starts with "API request failed: ", gives back the status code and ends with the response text |
| Completion.ReadReply | script.js:115-119 | succeeds exactly when `choices`, `choices[0]` and its `message` are present, with that message's content; otherwise the format error |
| Completion.KeyMissing | script.js:84 | the key is missing when it is undefined or the empty string |
| Completion.Ok | script.js:109 | `resp.ok`: the status is in 200..299 |
| Completion.StatusMessage | script.js:111 | the non-OK message: the prefix, the status code in decimal, the status text, and the body text |
| Completion.CallOpenAI | script.js:83-120 | the missing-key error comes before any request; then the `fetch` error, the status error for a non-OK status, the JSON error, or the shape guard's outcome |
| Completion.CallOpenAISucceedsIff | script.js:84-119 | the call succeeds exactly when there is a key, the status is OK, the body parses and has the expected shape; the reply is `choices[0].message.content` |
| Completion.MissingKeyIgnoresNetwork | script.js:84-86 | with no key, the outcome is the same whatever the network would give |
| Conversation.Append | script.js:51-75 | `appendMessage` adds a bubble with the given role, built from the given text, with nothing written into it yet |
| Conversation.AppendShows | script.js:59-66 | a bubble just appended shows exactly the trimmed sections of its text, one paragraph each |
| Conversation.Shown | script.js:138-140 | a bubble shows at least one paragraph; an unwritten bubble shows exactly its own paragraphs; a written one shows the text written into it first, and its own paragraphs after that |
| Conversation.Dots | script.js:144 | `'.'.repeat(n)` is exactly `n` dots |
| Conversation.NextDotCount | script.js:143 | the count after a tick is in 0..3 |
| Conversation.ThinkingText | script.js:144-145 | the placeholder text for a count: `Thinking` followed by that many dots |
| Conversation.DotCountAfter | script.js:142-143 | the count after `n` ticks of the interval callback |
| Conversation.DotCountAfterIs | script.js:142-143 | after `n` ticks a count in 0..3 has moved `n` steps round 0..3 |
| Conversation.DotCountAfterMod | script.js:143 | `n` ticks land where `n mod 4` ticks do |
| Conversation.DotCountPeriod | script.js:143 | `n` ticks bring the count back to where it was exactly when `n` is a multiple of 4 |
| Conversation.OneLineOneParagraph | script.js:59-66 | a trimmed line without line feeds renders as one paragraph holding exactly it |
| Conversation.PlaceholderShows | script.js:134-159 | the placeholder shows exactly one paragraph: "Thinking", the dotted text, the reply or the apology, whichever was written last; the reply is never split |
| Conversation.PlaceholderOf | script.js:138-140 | an awaited turn's bubble is an assistant "Thinking" placeholder showing its dot count |
| Conversation.PlaceholdersGrow | script.js:129-134 | appending bubbles keeps every placeholder in place |
| Conversation.PlaceholdersAdd | script.js:134-141 | a new "Thinking" bubble becomes the placeholder of a turn counting from 0 |
| Conversation.PlaceholdersTick | script.js:142-145 | a tick keeps every awaited turn's placeholder in step with its count |
| Conversation.PlaceholdersDrop | script.js:153-159 | settling a turn keeps the other turns' placeholders |
| Conversation.OnlyTurn | script.js:153-157 | settling the only awaited turn leaves none awaited |
| Conversation.Chat.constructor | script.js:31-48 | the history holds only the system message; no bubble, no awaited turn, button enabled |
| Conversation.Chat.SetInput | script.js:27 | typing changes the input field and nothing else |
| Conversation.Chat.BeginSend | script.js:123-141 | blank or all-space input changes nothing; otherwise the trimmed text is appended as a user bubble and history entry, the input is cleared, a "Thinking" placeholder is added, the button is disabled and the turn's count starts at 0 |
| Conversation.Chat.Tick | script.js:142-148 | the turn's count moves on modulo 4 and its placeholder shows "Thinking" and that many dots; nothing else changes |
| Conversation.Chat.Resolve | script.js:151-162 | the timer stops, the placeholder shows the reply, the history gains the assistant entry, the button is enabled; one turn at a time is kept |
| Conversation.Chat.Fail | script.js:156-162 | the timer stops, the placeholder shows the apology, an "Error: " bubble with the message is added, the history is unchanged, the button is enabled |
| Conversation.Chat.Settle | script.js:150-164 | a reply resolves the turn, an error fails it |
| Conversation.Chat.SendCurrentMessage | script.js:123-165 | over a whole turn, the request carries the history with the new user entry; afterwards the button is enabled and no turn of its own is awaited; a reply is in the placeholder and history; an error leaves the history as it was and adds the error bubble |
| Conversation.Chat.ClickSend | script.js:169-172 | a click sends only while the button is enabled, and keeps one turn at a time |
| Conversation.Chat.PressEnter | script.js:174-179 | Enter without Shift sends whether or not the button is disabled; Shift+Enter does nothing |
| Conversation.Chat.PressEnterGuarded | script.js:174-179 | Enter without Shift sends only while the button is enabled, and keeps one turn at a time |
| Conversation.EnterWhileAwaiting | script.js:174-179 | with a turn awaited, Enter starts a second one; when the first settles, the button is enabled while the second is still awaited |
| PanelToggle.AfterDocumentClick | script.js:12-19 | the document listener only ever closes the panel, and leaves an open panel open for a click inside the panel or the button |
| PanelToggle.AfterClick | script.js:7-19 | a click is seen first by the button's listener, when it hit the button, and then by the document's |
| PanelToggle.ClickOnToggleFlips | script.js:7-19 | a click on the button flips the panel, and the document listener does not undo it |
| PanelToggle.ClickElsewhere | script.js:12-19 | a click outside both closes the panel; a click inside the panel leaves it as it was |
| PanelToggle.ToggleTwice | script.js:7-9 | two clicks on the button restore the panel's state |
| PanelToggle.Panel.constructor | script.js:3 | the panel starts in the given state |
| PanelToggle.Panel.Toggle | script.js:7-9 | the button's listener flips `open` |
| PanelToggle.Panel.DocumentClick | script.js:12-19 | the document's listener sets the state `AfterDocumentClick` gives |
| PanelToggle.Panel.Click | script.js:7-19 | a click runs the button's listener, if it hit the button, and then the document's |
| PanelToggle.Panel.KeyDownOnToggle | script.js:183-186 | Enter on the button flips the panel, and any other key leaves it alone |

## Left out

- The key: `!OPENAI_API_KEY` (script.js:84) also rejects `null`, `false`, `0` and `NaN`. The model takes the key to be a string or undefined (`Option<string>`), so only undefined and the empty string can be missing.
- The network: the URL, headers, `Authorization`, the JSON body text and the `fetch` itself. What the network gives back is a `Fetched` value passed in.
- `temperature: 0.8`: floating point is not modelled; the request keeps only the model, messages and token limit.
- Completion.ReadReply: a `message` without a `content` field, or a parsed body that is `null`, is not modelled. The model's message always has string content.
- The DOM: looking up elements, creating them, class names and `scrollTop`/`scrollHeight`. Bubbles are values of `ChatBubble`. Every element is taken to exist, so the guards for missing elements (script.js:5, 52, 124, 168, 183) are not modelled.
- Timers: `setInterval` with 400 ms and `clearInterval` become the awaited-turn map. `Tick` applies only to an awaited turn. When ticks run relative to the reply is left to the caller.
- Conversation.Chat.SendCurrentMessage: covers the turn when nothing else happens during the `await`. Events that interleave with a turn are modelled by calling `BeginSend`, `Tick`, `Resolve` and `Fail` separately instead.
- `console.error` and `preventDefault`: no effect on the modelled state.
- The system prompt: its wording is a stand-in constant, because it is content, not behaviour.
- Text.IsSpace: characters are Unicode code points, not UTF-16 code units, and the white-space list is that of the ECMAScript standard (the WhiteSpace and LineTerminator productions). Characters outside the Basic Multilingual Plane are not modelled.
- PanelToggle.Panel.KeyDownOnToggle: any default activation the browser itself gives the toggle element on Enter is not modelled, since the element's type is not part of this model.

## Findings

| source | as written | input that shows it | evidently intended | confidence | as-written member | corrected member |
|---|---|---|---|---|---|---|
| script.js:174-179 | The Enter listener calls `sendCurrentMessage` without checking that the send button is disabled | send "a" with a click, then type "b" and press Enter before the reply arrives: a second request starts, and once the first settles the button is enabled while "b" is still awaited | no message is sent while a reply is awaited, as the disabled button (script.js:135, 162) does for clicks | not executed; high | Conversation.EnterWhileAwaiting | Conversation.Chat.PressEnterGuarded |
