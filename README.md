# CBAg chat clients: the trial gate, the turn lifecycle and the reply parsers

CBAg is a chat assistant for the EU Carbon Border Adjustment Mechanism. Its
clients talk to one agent webhook and let anonymous visitors try it for a few
turns before they must register. This project models the client-side core in
Dafny and proves properties of it:

- **The standalone widget** (`cbag-simple/script.js`, module `SimpleWidget`).
  Module-level `user` and `usesCount` are loaded from local storage. A visitor
  gets `MAX_FREE_USES = 2` anonymous turns, counted upward. `sendMessage`
  guards the turn, counts it and persists the count before the request, calls
  the webhook, pulls the reply text out of `data.output` (a string, or an array
  of blocks joined by a blank line) and settles the input: locked exactly when
  the trial is used up. The class `Widget` carries the script's state; each DOM
  write becomes a field.
- **The web app's authentication context** (`cbag-web/src/context/AuthContext.tsx`,
  module `AuthContext`). `freeUsesLeft` counts downward from 1 and only
  decrements while positive. It also holds `login`, `logout` and the restore on
  mount. The class `AuthProvider` carries the provider's state.
- **The web app's chat page** (`cbag-web/src/app/chat/page.tsx`, module
  `WebChat`). It holds the send guard, the append-only message list opened by a
  greeting, the `isLoading` flag and the condition that disables the input and
  the button. The class `ChatPage` carries the page's state.
- **`parse_output`** (`test_moat.py`, module `MoatTest`): the Python reading of
  the same reply shape. It joins with a single newline and keeps only dicts that
  have a `text` key.

Shared modules model the platform the code relies on:

- `Wrappers`: Option and Result.
- `Seqs`: the array `filter`, `map` and `join`.
- `Decimal`: `String(n)` for integers, and digit values.
- `JsValues`: decoded JSON values, JavaScript truthiness, property reads that
  may give `undefined`, `ToString`, `String.prototype.trim`, and `parseInt` as
  section 19.2.5 of ECMAScript defines it.
- `Browser`: local storage, the router, the webhook request and its outcome,
  and the JSON codec.

Platform and remote code is passed in as parameters:

- `JSON.parse` and `JSON.stringify` are the functions of a `JsonCodec`.
- `marked.parse` is the widget's `markdown` function.
- A `fetch` of the webhook is a `FetchOutcome`: it rejects, or it gives an `ok`
  flag and a body that `response.json()` may fail to decode.
- `Date.now()` is a `now: nat` argument.

Each event handler is one atomic step that runs to settlement. The chat page
splits `handleSend` at its `await` into `BeginSend` and `FinishSend`, so the
loading state between the two is visible.

How the code behaves at its edges, as the model states it:

- A stored user that is not JSON makes `JSON.parse` throw at script.js:10
  and stops the script, so the `Widget` constructor requires
  `LoadState(...).Success?`. In the web app the mount effect stops at the same
  call at AuthContext.tsx:32 (`Mount` returns `crashed`) before the count is read.
- A stored count that is not a number reads as 0 in the widget
  (`parseInt(...) || 0` at script.js:11) but as NaN in the web app
  (AuthContext.tsx:33). A NaN count is never refused and never decremented, so
  the web trial never runs out.
- `isAuthenticated` is `!!user` (AuthContext.tsx:64). For the null and object
  values that `login` and `logout` write this means "a user is present", but a
  stored user that parses to `0`, `""` or `false` counts as signed out.
- A failed widget turn appends "Connection error. Please try again." as an
  agent bubble, rendered as HTML (script.js:153).
- `handleSend` does not check `isLoading`; only the disabled controls
  (page.tsx:148 and 153) stop a second send.
- An array `output` without any text block gives the empty reply, not the
  fallback text (script.js:130-135).

## Model

| member | source | states |
|---|---|---|
| Seqs.Filter | cbag-simple/script.js:133 | the kept elements satisfy the predicate and come from the input; never more than the input |
| Seqs.Map | cbag-simple/script.js:134 | one result per element, each the function applied to the element at the same index |
| Seqs.FilterConcat | cbag-simple/script.js:133 | filtering distributes over concatenation, keeping order |
| Seqs.MapConcat | cbag-simple/script.js:134 | mapping distributes over concatenation |
| Seqs.Join | cbag-simple/script.js:135 | definition of `join`, also `'\n'.join` at test_moat.py:18; its properties in MoatTest.JoinTextsCons, MoatTest.JoinTwoTexts and SimpleWidget.ExtractTextAroundOther |
| Decimal.DigitOf | cbag-web/src/context/AuthContext.tsx:33 | a digit's value is below the radix |
| Decimal.DigitChar | cbag-simple/script.js:101 | the digit `String(n)` writes for a value below ten is a decimal digit of that value |
| Decimal.NatToString | cbag-simple/script.js:101 | the numeral is nonempty, all decimal digits, with no leading zero unless it is "0" |
| Decimal.IntToString | cbag-web/src/context/AuthContext.tsx:53 | the written number is never empty |
| Decimal.LeadingDigits | cbag-web/src/context/AuthContext.tsx:33 | the digit prefix parseInt reads is no longer than the text |
| Decimal.LeadingDigitsLongest | cbag-web/src/context/AuthContext.tsx:33 | the digits read are the values of the first characters, and the scan stops exactly at the first non-digit |
| Decimal.ValueOf | cbag-web/src/context/AuthContext.tsx:33 | definition of the number parseInt makes of its digits, most significant first; its round trip in ValueOfNumeral |
| Decimal.DecimalDigits | cbag-simple/script.js:11 | one digit value per character of a numeral |
| Decimal.LeadingDigitsOfNumeral | cbag-simple/script.js:11 | on a decimal numeral the digit scan reads the whole string |
| Decimal.ValueOfNumeral | cbag-simple/script.js:11 | reading back the numeral of n gives n |
| Decimal.NatToStringInjective | cbag-simple/script.js:101 | different naturals are written differently |
| JsValues.Lookup | cbag-simple/script.js:127 | a found member is in the object under that key; `undefined` means no member has the key |
| JsValues.Prop | cbag-simple/script.js:127 | definition of a property read, also `data.output` at page.tsx:67; its cases in SimpleWidget.TextBlockText, WebChat.DecodedBodyKeepsOutput and WebChat.MissingOutputIsUndefined |
| JsValues.Truthy | cbag-web/src/context/AuthContext.tsx:64 | definition of truthiness; its meaning for users in AuthContext.AuthenticatedIffPresent |
| JsValues.TruthyValue | cbag-simple/script.js:127 | definition of truthiness of a property read, `undefined` falsy, also `item.text` at script.js:133-134; its cases in SimpleWidget.ExtractFallback and SimpleWidget.ReplyPartsOne |
| JsValues.ToString | cbag-simple/script.js:113 | definition of the string a template or `join` makes of a value; used in SessionIds and WebSessionIdWithoutEmail |
| JsValues.ToStringValue | cbag-simple/script.js:113 | definition of `${v}` on a property read, "undefined" for a missing member, also page.tsx:60; its cases in SimpleWidget.SessionIds and WebChat.WebSessionIdWithoutEmail |
| JsValues.TrimStartDropsWhiteSpace | cbag-simple/script.js:87 | the result is a suffix that starts with a non-white-space character, and only white space was dropped |
| JsValues.TrimEndDropsWhiteSpace | cbag-simple/script.js:87 | the result is a prefix that ends with a non-white-space character, and only white space was dropped |
| JsValues.TrimKeeps | cbag-simple/script.js:87 | text that neither starts nor ends with white space is its own trim |
| JsValues.Trim | cbag-simple/script.js:87 | definition of `trim`; its properties in TrimStartDropsWhiteSpace, TrimEndDropsWhiteSpace, TrimKeeps and TrimEmptyIffBlank |
| JsValues.TrimStart | cbag-simple/script.js:87 | definition of the leading half of `trim`; its properties in TrimStartDropsWhiteSpace |
| JsValues.TrimEnd | cbag-simple/script.js:87 | definition of the trailing half of `trim`; its properties in TrimEndDropsWhiteSpace |
| JsValues.IsJsWhiteSpace | cbag-simple/script.js:87 | definition of the WhiteSpace and LineTerminator characters `trim` (also page.tsx:37) and `parseInt` (AuthContext.tsx:33) skip; used by TrimStartDropsWhiteSpace, TrimEndDropsWhiteSpace and TrimEmptyIffBlank |
| JsValues.TrimEmptyIffBlank | cbag-simple/script.js:87-88 | the input trims to empty exactly when every character is white space (both directions) |
| JsValues.ParseIntRoundTrip | cbag-simple/script.js:11 | parseInt reads back exactly the integer that `String(n)` wrote, negatives included |
| JsValues.ParseInt | cbag-web/src/context/AuthContext.tsx:33 | definition of `parseInt`; its properties in ParseIntRoundTrip and ParseIntNoDigits |
| JsValues.IntToStringInjective | cbag-web/src/context/AuthContext.tsx:53 | different integers are stored as different texts |
| JsValues.ParseIntNoDigits | cbag-web/src/context/AuthContext.tsx:33 | a stored value of lower-case letters parses to NaN |
| JsValues.Positive | cbag-web/src/context/AuthContext.tsx:50 | definition of `n > 0`, false on NaN; its use in AuthContext.DecrementsStopAtZero and AuthContext.DecrementsKeepNaN |
| JsValues.AtMostZero | cbag-web/src/app/chat/page.tsx:40 | definition of `n <= 0`, false on NaN; its use in WebChat.NaNCountNeverRunsOut and WebChat.NegativeCountEnabledButRefused |
| JsValues.IsZero | cbag-web/src/app/chat/page.tsx:148 | definition of `n === 0`, false on NaN; its use in WebChat.DisabledIdleIsRefused |
| Browser.ItemOf | cbag-simple/script.js:10-11 | definition of what `getItem` reads; its meaning in ItemAfterSet and ItemAfterRemove |
| Browser.LocalStorage.GetItem | cbag-web/src/context/AuthContext.tsx:29-30 | definition of `getItem` on the stored map, also script.js:10-11; it reads ItemOf, whose properties are in ItemAfterSet and ItemAfterRemove |
| Browser.ItemAfterSet | cbag-simple/script.js:101 | after `setItem(k, v)` the key reads back v and every other key reads as before |
| Browser.ItemAfterRemove | cbag-web/src/context/AuthContext.tsx:45 | after `removeItem(k)` the key reads as null and every other key reads as before |
| Browser.LocalStorage.SetItem | cbag-simple/script.js:101 | the key now maps to the value; every other key is unchanged |
| Browser.LocalStorage.RemoveItem | cbag-web/src/context/AuthContext.tsx:45 | the key is gone; every other key is unchanged |
| Browser.Router.Push | cbag-web/src/context/AuthContext.tsx:40 | the path is appended to the navigation history |
| SimpleWidget.LoadFresh | cbag-simple/script.js:10-11 | empty storage loads an anonymous visitor with count 0 |
| SimpleWidget.LoadState | cbag-simple/script.js:10-11 | definition of the load; its cases in LoadFresh, UsesCountSurvivesReload and TamperedCountReadsAsZero |
| SimpleWidget.UsesCountSurvivesReload | cbag-simple/script.js:11-101 | the count written after a turn is the count read after a reload, and writing it never makes loading fail |
| SimpleWidget.TamperedCountReadsAsZero | cbag-simple/script.js:11 | a stored count that is not a number loads as 0 |
| SimpleWidget.OrZero | cbag-simple/script.js:11 | definition of a count that falls back to 0 when `parseInt` gives NaN; its cases in TamperedCountReadsAsZero and UsesCountSurvivesReload |
| SimpleWidget.Remaining | cbag-simple/script.js:77 | the shown count is never negative, is 0 exactly when the trial is used up, and otherwise adds up with the count to MAX_FREE_USES |
| SimpleWidget.TrialExhausted | cbag-simple/script.js:90 | definition of the gate `!user && usesCount >= MAX_FREE_USES`; bounds in AllowedTurnStaysInBounds and TurnsAllowedFrom |
| SimpleWidget.CountAfterTurn | cbag-simple/script.js:99-100 | definition of the count after a turn; bounds in AllowedTurnStaysInBounds and TurnsAllowedFrom |
| SimpleWidget.TurnStarts | cbag-simple/script.js:87-93 | definition of "the input is not blank and the gate lets it through"; the turn branch of Widget.SendMessage and Widget.FillInput |
| SimpleWidget.AllowedTurnStaysInBounds | cbag-simple/script.js:90-100 | an allowed turn from a count at most MAX_FREE_USES stays at most MAX_FREE_USES; a registered user is never locked out |
| SimpleWidget.TurnsAllowedFrom | cbag-simple/script.js:90-100 | from count c an anonymous visitor gets exactly max(0, MAX_FREE_USES - c) of any number of attempted turns |
| SimpleWidget.SessionIds | cbag-simple/script.js:113 | a registered id is stable across turns; an anonymous id changes whenever the clock moved |
| SimpleWidget.SessionId | cbag-simple/script.js:113 | definition of the session id; its properties in SessionIds and SessionIdKindsDiffer |
| SimpleWidget.SessionIdKindsDiffer | cbag-simple/script.js:113 | `client-` and `prospect-` ids never coincide |
| SimpleWidget.ExtractStringReply | cbag-simple/script.js:127-129 | a nonempty string output is the reply unchanged; an empty one gives the fallback text |
| SimpleWidget.IsTextBlock | cbag-simple/script.js:133 | definition of the filter; its cases in ReplyPartsOne, TextBlockText and TypedBlockWithoutText |
| SimpleWidget.BlockText | cbag-simple/script.js:134 | definition of the map; its cases in ReplyPartsOne and TextBlockText |
| SimpleWidget.ReplyParts | cbag-simple/script.js:132-135 | definition of the parts joined; its properties in ReplyPartsConcat, ReplyPartsOne and ReplyPartsAroundOther |
| SimpleWidget.ExtractReply | cbag-simple/script.js:124-137 | definition of the extraction; its cases in ExtractStringReply, ExtractFallback, ExtractThrows, ExtractBlockList and ExtractNoTextBlocks |
| SimpleWidget.ReplyOf | cbag-simple/script.js:117-137 | definition of the reply for a fetch outcome; used by Settle, Turn and SendMessage |
| SimpleWidget.ExtractFallback | cbag-simple/script.js:124-137 | a missing or falsy output, or one that is neither a string nor an array, gives exactly the fallback text |
| SimpleWidget.ExtractThrows | cbag-simple/script.js:119-133 | the extraction throws exactly when the body is null or the array holds a null block |
| SimpleWidget.ReplyPartsConcat | cbag-simple/script.js:132-135 | the parts of a + b are the parts of a followed by those of b |
| SimpleWidget.ReplyPartsOne | cbag-simple/script.js:133-134 | one block adds its `text || ''` when it is a text block, and nothing otherwise |
| SimpleWidget.ExtractBlockList | cbag-simple/script.js:130-135 | an array output gives its parts joined by a blank line, or a TypeError on a null block |
| SimpleWidget.ExtractNoTextBlocks | cbag-simple/script.js:130-135 | a block list without a text block, the empty list included, reads as "" rather than the fallback text |
| SimpleWidget.ExtractSkipsOtherBlocks | cbag-simple/script.js:133 | a block that is neither a text block nor null changes nothing, wherever it stands |
| SimpleWidget.TextBlockText | cbag-simple/script.js:133-134 | `{type: "text", text: s}` passes the filter and contributes s |
| SimpleWidget.ReplyPartsAroundOther | cbag-simple/script.js:132-135 | two text blocks around a non-text block give exactly their two texts |
| SimpleWidget.ExtractTextAroundOther | cbag-simple/script.js:124-137 | two text blocks around any other non-null block read `a + "\n\n" + b` |
| SimpleWidget.ExtractExample | cbag-simple/script.js:130-135 | the text, image, text example reads "A\n\nB" |
| SimpleWidget.BubbleFor | cbag-simple/script.js:165-181 | a bubble is HTML exactly when the sender is the agent; user and system text stay plain |
| SimpleWidget.WithoutElement | cbag-simple/script.js:205-208 | removing an element takes away at most one child |
| SimpleWidget.WithoutElementRestores | cbag-simple/script.js:120-152 | removing the indicator just appended restores the list, and a second removal changes nothing |
| SimpleWidget.FailureAddsOnlyConnectionError | cbag-simple/script.js:150-153 | a failed turn adds exactly the connection-error bubble and never the trial-limit notice |
| SimpleWidget.SettlementBubbles | cbag-simple/script.js:141-153 | definition of the bubbles a settled turn adds; its cases in FailureAddsOnlyConnectionError and SettledTurnKeepsTranscript |
| SimpleWidget.SettledTurnKeepsTranscript | cbag-simple/script.js:95-153 | after a settled turn the list holds no indicator and no visitor text rendered as markup |
| SimpleWidget.Widget.constructor | cbag-simple/script.js:9-19 | the state loaded from storage, an empty list and an unlocked input |
| SimpleWidget.Widget.LockShown | cbag-simple/script.js:155-161 | definition of "the input is locked exactly when the trial is used up"; kept by Widget.SendMessage and Widget.FillInput |
| SimpleWidget.Widget.UpdateUI | cbag-simple/script.js:76-83 | the shown remaining count; the panel hidden for a registered user |
| SimpleWidget.Widget.Init | cbag-simple/script.js:22-31 | the count refreshed; the input locked with the limit placeholder exactly when the trial is used up at load |
| SimpleWidget.Widget.AppendMessage | cbag-simple/script.js:165-187 | exactly one bubble appended, rendered by sender |
| SimpleWidget.Widget.AppendLoading | cbag-simple/script.js:189-203 | the indicator `loading-<now>` appended and its id returned |
| SimpleWidget.Widget.RemoveMessage | cbag-simple/script.js:205-208 | the first element with the id removed |
| SimpleWidget.Widget.ShowAuthModal | cbag-simple/script.js:210-213 | the auth modal shown |
| SimpleWidget.Widget.StartTurn | cbag-simple/script.js:95-115 | the user bubble and indicator appended; input cleared and locked; an anonymous count raised by one and persisted before the one request |
| SimpleWidget.Widget.Settle | cbag-simple/script.js:116-153 | the indicator removed; the rendered reply, plus the notice and the modal once the trial is used up; or exactly the connection error |
| SimpleWidget.Widget.SettleInput | cbag-simple/script.js:154-162 | the input locked with the limit placeholder exactly when the trial is used up, enabled otherwise |
| SimpleWidget.Widget.Turn | cbag-simple/script.js:95-162 | one whole turn: count, storage, shown count, one request, the bubbles, the modal, the lock; the count stays within bounds |
| SimpleWidget.Widget.SendMessage | cbag-simple/script.js:86-163 | blank input changes nothing; an exhausted trial only opens the modal (no bubble, count or request); otherwise a whole turn; the count stays within MAX_FREE_USES and the lock matches the trial |
| SimpleWidget.Widget.FillInput | cbag-simple/script.js:215-218 | the suggestion is put in the input and sent: the blank, refused and turn outcomes of `sendMessage` with the whole new state, storage included |
| SimpleWidget.TrialScenario | cbag-simple/script.js:86-162 | a fresh visitor's first two suggestions are answered, then the input is locked and a third opens only the modal; the stored count ends at 2 |
| AuthContext.DisplayName | cbag-web/src/context/AuthContext.tsx:37 | the name is the prefix of the address before the first '@', or all of it |
| AuthContext.DisplayNameOfAddress | cbag-web/src/context/AuthContext.tsx:37 | the display name of `local@domain` is `local` |
| AuthContext.NewUser | cbag-web/src/context/AuthContext.tsx:37 | the new user is truthy, with the address as `email` and its display name as `name` |
| AuthContext.AuthenticatedIffPresent | cbag-web/src/context/AuthContext.tsx:64 | `!!user` is "a user is present" for null and objects; 0, "" and false count as signed out |
| AuthContext.DecrementsStopAtZero | cbag-web/src/context/AuthContext.tsx:50-51 | from a non-negative count, k decrements give max(0, count - k): never negative |
| AuthContext.AfterDecrement | cbag-web/src/context/AuthContext.tsx:49-55 | definition of one decrement; its properties in DecrementsStopAtZero, DecrementsKeepNaN and DecrementsKeepNegative |
| AuthContext.Decrements | cbag-web/src/context/AuthContext.tsx:49-55 | definition of k decrements in a row; its closed forms in DecrementsStopAtZero, DecrementsKeepNaN and DecrementsKeepNegative |
| AuthContext.DecrementsKeepNaN | cbag-web/src/context/AuthContext.tsx:50 | a NaN count is never decremented |
| AuthContext.DecrementsKeepNegative | cbag-web/src/context/AuthContext.tsx:50 | a negative count is never decremented |
| AuthContext.MountFresh | cbag-web/src/context/AuthContext.tsx:23-34 | empty storage keeps the initial state: signed out, one free use |
| AuthContext.Mounted | cbag-web/src/context/AuthContext.tsx:28-34 | definition of the mount effect; its cases in MountFresh, MountRestoresLogin, MountAfterLogout, MountRestoresCount and MountTamperedCount |
| AuthContext.StoredText | cbag-web/src/context/AuthContext.tsx:32-33 | definition of "`getItem` gives a truthy text"; its cases in MountFresh, MountAfterLogout and MountRestoresCount |
| AuthContext.MountRestoresLogin | cbag-web/src/context/AuthContext.tsx:32-39 | what login stores, the next mount restores (for a codec that reads back what it writes) |
| AuthContext.MountAfterLogout | cbag-web/src/context/AuthContext.tsx:32-45 | after logout a fresh mount is signed out |
| AuthContext.MountRestoresCount | cbag-web/src/context/AuthContext.tsx:33-53 | the count decrement stores is the count the next mount reads, and storing it never makes the mount fail |
| AuthContext.MountTamperedCount | cbag-web/src/context/AuthContext.tsx:33 | a stored count "abc" mounts as NaN |
| AuthContext.AuthProvider.constructor | cbag-web/src/context/AuthContext.tsx:23-24 | the provider starts with no user and one free use |
| AuthContext.AuthProvider.Mount | cbag-web/src/context/AuthContext.tsx:28-34 | stored values override the state only when present and nonempty; a stored user JSON.parse rejects crashes the effect before the count is read |
| AuthContext.AuthProvider.IsAuthenticated | cbag-web/src/context/AuthContext.tsx:64 | definition of `!!user`; its meaning in AuthenticatedIffPresent |
| AuthContext.AuthProvider.Login | cbag-web/src/context/AuthContext.tsx:36-41 | the new user in state and storage, then a push of /chat; free uses unchanged |
| AuthContext.AuthProvider.Logout | cbag-web/src/context/AuthContext.tsx:43-47 | no user in state or storage, then a push of /; free uses unchanged, so logging out does not restore the trial |
| AuthContext.AuthProvider.DecrementFreeUse | cbag-web/src/context/AuthContext.tsx:49-55 | a positive count goes down by exactly one and is stored; any other count changes nothing and writes nothing |
| WebChat.DisabledIdleIsRefused | cbag-web/src/app/chat/page.tsx:40-153 | when idle, disabled controls imply a refused send; a refused send with enabled controls needs a negative count |
| WebChat.SendRefused | cbag-web/src/app/chat/page.tsx:40 | definition of the send guard; its properties in DisabledIdleIsRefused, AuthenticatedNeverRefused, FreeSendsFrom and NaNCountNeverRunsOut |
| WebChat.ControlsDisabled | cbag-web/src/app/chat/page.tsx:148-153 | definition of the disabled condition; its relation to the guard in DisabledIdleIsRefused and NegativeCountEnabledButRefused |
| WebChat.NegativeCountEnabledButRefused | cbag-web/src/app/chat/page.tsx:40-148 | a negative count leaves the controls enabled while every send is refused |
| WebChat.AuthenticatedNeverRefused | cbag-web/src/app/chat/page.tsx:40-148 | a signed-in user is never refused and never disabled while idle |
| WebChat.FreeSendsFrom | cbag-web/src/app/chat/page.tsx:40-52 | from m >= 0 free uses an anonymous visitor gets exactly m sends |
| WebChat.OneFreeSend | cbag-web/src/app/chat/page.tsx:40-52 | the initial count allows one anonymous send, then refuses and disables |
| WebChat.NaNCountNeverRunsOut | cbag-web/src/app/chat/page.tsx:40-148 | a NaN count is never refused, never disabled and never decremented |
| WebChat.WebSessionIds | cbag-web/src/app/chat/page.tsx:60 | `user-<email>` for a logged-in user, `guest-<now>` for a guest |
| WebChat.WebSessionId | cbag-web/src/app/chat/page.tsx:60 | definition of the session id; its cases in WebSessionIds and WebSessionIdWithoutEmail |
| WebChat.WebSessionIdWithoutEmail | cbag-web/src/app/chat/page.tsx:60 | a stored user without `email` sends the session "user-undefined" |
| WebChat.Settlement | cbag-web/src/app/chat/page.tsx:64-72 | definition; its cases in ConnectionTroubleOnAnyFailure, DecodedBodyKeepsOutput, BlockListKeptRaw and MissingOutputIsUndefined |
| WebChat.ConnectionTroubleOnAnyFailure | cbag-web/src/app/chat/page.tsx:64-72 | a rejected fetch, a non-ok status, an undecodable or a null body all give the same connection-trouble agent message with id now |
| WebChat.DecodedBodyKeepsOutput | cbag-web/src/app/chat/page.tsx:66-67 | any decoded body but null gives an agent message with `data.output` as it is and id now+1; `undefined` for a non-object body |
| WebChat.SettlementIdAgainstUserId | cbag-web/src/app/chat/page.tsx:45-72 | a reply never takes the user message's id, while the connection-trouble message does when the clock has not moved |
| WebChat.BlockListKeptRaw | cbag-web/src/app/chat/page.tsx:67 | a block list is stored as the array itself, while the widget joins its texts |
| WebChat.MissingOutputIsUndefined | cbag-web/src/app/chat/page.tsx:67 | a body without `output` is stored as `undefined`, not as an error |
| WebChat.ChatPage.constructor | cbag-web/src/app/chat/page.tsx:21-25 | exactly the greeting with id "1", an empty input, not loading; the page pushes to the same router as the auth provider |
| WebChat.ChatPage.SetInput | cbag-web/src/app/chat/page.tsx:145 | the input holds the typed value |
| WebChat.ChatPage.Disabled | cbag-web/src/app/chat/page.tsx:148-153 | definition on the page state; BeginSend states it holds while a send is loading |
| WebChat.ChatPage.BeginSend | cbag-web/src/app/chat/page.tsx:37-62 | blank: nothing changes; refused: push /register only; allowed: the untrimmed user message, input cleared, loading and disabled, a decrement only for a guest, one request |
| WebChat.ChatPage.FinishSend | cbag-web/src/app/chat/page.tsx:64-75 | exactly one settlement message appended, then not loading |
| WebChat.ChatPage.HandleSend | cbag-web/src/app/chat/page.tsx:36-76 | blank, refused and allowed sends as BeginSend states them, the stored count included, ending not loading; the list only grows, by at most two messages |
| MoatTest.HexByte | test_moat.py:19 | the `\x` escape is two lower-case hexadecimal digits whose value is the code |
| MoatTest.QuoteFor | test_moat.py:19 | repr picks single or double quotes; the chosen quote occurs in the text only when both kinds do, and double quotes exactly for text with a single quote and no double quote |
| MoatTest.EscapeAllPlain | test_moat.py:19 | text with no quote, backslash or control character is written unchanged inside the quotes |
| MoatTest.QuotePlain | test_moat.py:19 | repr of such text is the text in single quotes |
| MoatTest.EscapeChar | test_moat.py:19 | definition of one character inside `repr`; plain characters in EscapeAllPlain |
| MoatTest.PlainChar | test_moat.py:19 | definition of the characters `repr` leaves unescaped; EscapeAllPlain shows they pass through unchanged |
| MoatTest.EscapeAll | test_moat.py:19 | definition of the escaped text inside `repr`; its plain case in EscapeAllPlain |
| MoatTest.QuoteString | test_moat.py:19 | definition of `repr` of a `str`; its plain case in QuotePlain |
| MoatTest.StrOfScalars | test_moat.py:19 | str of None, True, False and integers |
| MoatTest.PyRepr | test_moat.py:19 | definition of `repr`; its cases in StrOfScalars, StrOfDict and QuotePlain |
| MoatTest.PyStr | test_moat.py:19 | definition of `str`; its cases in StrOfScalars and StrOfDict |
| MoatTest.ReprPair | test_moat.py:19 | definition of one `'k': v` member of a dict's `repr`; its case in StrOfDict |
| MoatTest.StrOfDict | test_moat.py:19 | str of a one-member dict is `{'k': n}` |
| MoatTest.TextValues | test_moat.py:14-17 | the loop never collects more texts than there are items |
| MoatTest.TextOf | test_moat.py:17 | definition of `item['text']`; its use in TextValuesOne and NonStringTextRaises |
| MoatTest.JoinTexts | test_moat.py:18 | definition of `'\n'.join`; its meaning in JoinTextsCons, JoinTextsRaises and JoinTwoTexts |
| MoatTest.JoinTextsCons | test_moat.py:18 | the join read one text at a time: a string, one newline, the join of the rest; a non-string anywhere fails it |
| MoatTest.JoinTextsRaises | test_moat.py:18 | a single non-string text makes the join raise |
| MoatTest.ParseOutput | test_moat.py:8-19 | a string comes back unchanged; a list gives the joined texts of its text dicts, in order; anything else gives str(output) |
| MoatTest.TextValuesConcat | test_moat.py:14-17 | the texts of a + b are those of a followed by those of b |
| MoatTest.TextValuesOne | test_moat.py:16-17 | one item adds its `text` when it is a dict with that key, and nothing otherwise |
| MoatTest.IsTextDict | test_moat.py:16 | definition of the dict filter; its cases in TextValuesOne, TextValuesSkip and TypedBlockWithoutText |
| MoatTest.TextValuesSkip | test_moat.py:16 | non-dicts and dicts without `text` contribute nothing, wherever they stand |
| MoatTest.NoTextDictsGiveEmpty | test_moat.py:14-18 | a list with no text dict, the empty list included, gives "" |
| MoatTest.NonStringTextRaises | test_moat.py:17-18 | a non-string `text` makes the join raise instead of being skipped |
| MoatTest.TextAroundOther | test_moat.py:12-18 | two text dicts around any other item read `a + "\n" + b` |
| MoatTest.MoatExample | test_moat.py:12-18 | `[{"text": "A"}, 5, {"text": "B"}]` reads "A\nB" |
| MoatTest.JoinTwoTexts | test_moat.py:18 | joining two strings puts one newline between them |
| MoatTest.WidgetTwoTexts | cbag-simple/script.js:130-135 | the widget reads two text blocks joined by a blank line |
| MoatTest.MoatTwoTexts | test_moat.py:12-18 | parse_output reads the same two blocks joined by one newline |
| MoatTest.TypedBlockWithoutText | test_moat.py:16 | a `{type: "text"}` block without `text` passes the widget's filter but not parse_output's |

## Left out

- Floating-point numbers: JSON numbers are integers, so a number such as 1.5 in a decoded body, `str` of a float, numbers beyond 2^53 and the exponent form `String(n)` writes from 1e21 up are not modelled. `parseInt` of text such as "1.5" is modelled and reads 1.
- Repeated keys in a JSON object: a property read returns the first member, while `JSON.parse` and Python's `json` keep the last; and MoatTest.PyRepr prints every member of such an object, while Python's dict holds one entry per key (the last value, at the first key's position), so `str(output)` differs on that input.
- MoatTest.EscapeChar: characters above U+00A0 that Python's `repr` would escape as not printable are written as themselves.
- The DOM, CSS classes, scrolling, `lucide.createIcons`, framer-motion and React rendering.
- `detectLocation` and its greeting table: a network lookup that writes only to a banner.
- The 2-second `setTimeout` before the trial-limit notice: the notice and the modal are added when the turn settles.
- Interleaving of React state updates and stale closures: each handler is one atomic step that sees the current state.
- A second widget turn while one is in flight: `fillInput` (script.js:215-218) calls `sendMessage` even while the input is disabled, so two turns can overlap; the model runs each turn to settlement before the next starts.
- Each step reads the clock once. `Date.now()` calls in the same synchronous block are taken to agree, such as the loading id at script.js:190 and the session id at script.js:113, or the message id at page.tsx:45 and the guest session at page.tsx:60.
- Storage that throws (quota, disabled storage): `getItem` and `setItem` always succeed.
- `marked.parse` is an opaque function, so whether it sanitises the agent's markup is not modelled.
- `useAuth` outside a provider (AuthContext.tsx:71-77) always finds the context.
- The "Please register to continue..." placeholder and banner (page.tsx:147, 159-165): display only. The disabled condition they share is modelled.
- The server side (agent.py, cbam_agent/agent.py, server.py), the home page, and the `test_moat` driver with the other live-network scripts are not part of this model.
