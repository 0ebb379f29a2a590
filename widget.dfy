/**
 * The standalone chat widget (cbag-simple/script.js): module-level `user` and
 * `usesCount` loaded from local storage, a free trial of MAX_FREE_USES turns
 * counted upward for anonymous visitors, and a `sendMessage` that appends the
 * user's bubble, counts the turn, calls the webhook and settles the input.
 */
module SimpleWidget {
  import opened Wrappers
  import opened Seqs
  import opened Decimal
  import opened JsValues
  import opened Browser

  const MAX_FREE_USES: int := 2
  const STORAGE_KEY_USES: string := "cbag_uses_v2"
  const STORAGE_KEY_USER: string := "cbag_user_v2"
  const FALLBACK_REPLY: string := "Sorry, I couldn't understand the response."
  const CONNECTION_ERROR: string := "Connection error. Please try again."
  const TRIAL_LIMIT_NOTICE: string := "Trial limit reached. Please register to continue."
  const TRIAL_LIMIT_PLACEHOLDER: string := "Trial limit reached."
  const BLOCK_SEPARATOR: string := "\n\n"

  // ---------------------------------------------------------------------------
  // Loading the module state (lines 10-11)

  datatype Loaded = Loaded(user: Json, usesCount: int)

  /** `parseInt(...) || 0`: NaN and zero are falsy and give 0. */
  function OrZero(n: JsNumber): int
  {
    match n
    case Num(k) => k
    case NaN => 0
  }

  /**
   * The module-level state read when the script loads. A missing key reads as
   * `null`; a stored user that is not JSON makes `JSON.parse` throw, which stops
   * the script (Failure); a falsy parsed user becomes `null`.
   */
  function LoadState(items: map<string, string>, parse: string -> Option<Json>): Result<Loaded, JsError>
  {
    var parsed := if STORAGE_KEY_USER in items then parse(items[STORAGE_KEY_USER]) else Some(JNull);
    match parsed
    case None => Failure(SyntaxError)
    case Some(v) =>
      var uses := if STORAGE_KEY_USES in items then items[STORAGE_KEY_USES] else "null";
      Success(Loaded(if Truthy(v) then v else JNull, OrZero(ParseInt(uses))))
  }

  /** Nothing stored: an anonymous visitor who has used no turn. */
  lemma LoadFresh(parse: string -> Option<Json>)
    ensures LoadState(map[], parse) == Success(Loaded(JNull, 0))
  {
    assert ParseInt("null") == NaN by {
      assert TrimStart("null") == "null";
    }
  }

  /** The count written at line 101 is the count read at line 11 after a reload. */
  lemma UsesCountSurvivesReload(items: map<string, string>, parse: string -> Option<Json>, n: int)
    ensures LoadState(items[STORAGE_KEY_USES := IntToString(n)], parse).Success? == LoadState(items, parse).Success?
    ensures LoadState(items[STORAGE_KEY_USES := IntToString(n)], parse).Success? ==>
              LoadState(items[STORAGE_KEY_USES := IntToString(n)], parse).value.usesCount == n
  {
    ParseIntRoundTrip(n);
  }

  /** A stored count that is not a number reads as 0: clearing or corrupting it restores the trial. */
  lemma TamperedCountReadsAsZero(items: map<string, string>, parse: string -> Option<Json>)
    requires LoadState(items, parse).Success?
    ensures LoadState(items[STORAGE_KEY_USES := "abc"], parse).value.usesCount == 0
  {
    ParseIntNoDigits("abc");
  }

  // ---------------------------------------------------------------------------
  // The trial gate (lines 26, 77, 90, 143, 155)

  /** `!user && usesCount >= MAX_FREE_USES`: the anonymous trial is used up. */
  predicate TrialExhausted(user: Json, usesCount: int)
  {
    !Truthy(user) && usesCount >= MAX_FREE_USES
  }

  /** The count shown to the visitor, `Math.max(0, MAX_FREE_USES - usesCount)`. */
  function Remaining(usesCount: int): (r: nat)
    ensures r == 0 <==> usesCount >= MAX_FREE_USES
    ensures r > 0 ==> usesCount + r == MAX_FREE_USES
    ensures usesCount >= 0 ==> r <= MAX_FREE_USES
  {
    if MAX_FREE_USES - usesCount > 0 then MAX_FREE_USES - usesCount else 0
  }

  /** The counter after an allowed turn: one more for an anonymous visitor, untouched for a registered one. */
  function CountAfterTurn(user: Json, usesCount: int): int
  {
    if Truthy(user) then usesCount else usesCount + 1
  }

  /** An allowed turn never takes the counter past the limit, and a registered user is never refused. */
  lemma AllowedTurnStaysInBounds(user: Json, usesCount: int)
    requires usesCount <= MAX_FREE_USES && !TrialExhausted(user, usesCount)
    ensures CountAfterTurn(user, usesCount) <= MAX_FREE_USES
    ensures Truthy(user) ==> !TrialExhausted(user, CountAfterTurn(user, usesCount))
  {
  }

  /** A fresh anonymous visitor gets exactly MAX_FREE_USES turns. */
  function TurnsAllowedFrom(usesCount: int, turns: nat): (allowed: nat)
    ensures allowed <= turns
    ensures allowed == if usesCount >= MAX_FREE_USES then 0
                       else if turns <= MAX_FREE_USES - usesCount then turns
                       else MAX_FREE_USES - usesCount
    decreases turns
  {
    if turns == 0 || TrialExhausted(JNull, usesCount) then 0
    else 1 + TurnsAllowedFrom(CountAfterTurn(JNull, usesCount), turns - 1)
  }

  // ---------------------------------------------------------------------------
  // The request and the reply (lines 108-137)

  /** `client-<email>` for a registered user, `prospect-<Date.now()>` for an anonymous one (line 113). */
  function SessionId(user: Json, now: nat): string
  {
    if Truthy(user) then "client-" + ToStringValue(Prop(user, "email")) else "prospect-" + IntToString(now)
  }

  /** A registered user's id is the same on every turn; an anonymous one is new whenever the clock moved. */
  lemma SessionIds(user: Json, now1: nat, now2: nat)
    ensures Truthy(user) ==> SessionId(user, now1) == SessionId(user, now2)
    ensures !Truthy(user) && now1 != now2 ==> SessionId(user, now1) != SessionId(user, now2)
    ensures SessionId(user, now1) != SessionId(JNull, now2) ==> Truthy(user) || now1 != now2
  {
    if !Truthy(user) && now1 != now2 && SessionId(user, now1) == SessionId(user, now2) {
      var p := "prospect-";
      assert IntToString(now1) == SessionId(user, now1)[|p|..];
      assert IntToString(now2) == SessionId(user, now2)[|p|..];
      IntToStringInjective(now1, now2);
    }
  }

  /** The ids of the two kinds of visitor never coincide. */
  lemma SessionIdKindsDiffer(user: Json, now1: nat, now2: nat)
    requires Truthy(user)
    ensures SessionId(user, now1) != SessionId(JNull, now2)
  {
    assert SessionId(user, now1)[0] == 'c';
    assert SessionId(JNull, now2)[0] == 'p';
  }

  /** The filter of line 133, `item.type === 'text' || item.text`, on an item that is not null. */
  function IsTextBlock(item: Json): bool
  {
    Prop(item, "type") == Value(JStr("text")) || TruthyValue(Prop(item, "text"))
  }

  /** The map of line 134, `item.text || ''`, with the ToString that `join` applies. */
  function BlockText(item: Json): string
  {
    var t := Prop(item, "text");
    if TruthyValue(t) then ToStringValue(t) else ""
  }

  /** The strings `join` concatenates for a block list. */
  function ReplyParts(items: seq<Json>): seq<string>
  {
    Map(BlockText, Filter(IsTextBlock, items))
  }

  /**
   * Lines 124-137: the reply text for the decoded body `data`. Reading
   * `data.output` on null, or `item.type` on a null block, throws a TypeError
   * that the catch block of line 150 receives.
   */
  function ExtractReply(data: Json): Result<string, JsError>
  {
    if data.JNull? then Failure(TypeError)
    else
      var out := Prop(data, "output");
      if !TruthyValue(out) then Success(FALLBACK_REPLY)
      else match out.v
        case JStr(s) => Success(s)
        case JArr(items) => if JNull in items then Failure(TypeError) else Success(Join(ReplyParts(items), BLOCK_SEPARATOR))
        case _ => Success(FALLBACK_REPLY)
  }

  /** A body `{output: v}`. */
  function OutputBody(v: Json): Json
  {
    JObj([("output", v)])
  }

  /** A non-empty string reply is shown as it is; an empty one gets the fallback text. */
  lemma ExtractStringReply(s: string)
    ensures ExtractReply(OutputBody(JStr(s))) == Success(if s == "" then FALLBACK_REPLY else s)
  {
  }

  /** Missing, falsy, and neither-string-nor-array outputs give exactly the fallback text. */
  lemma ExtractFallback(data: Json)
    requires data.JObj?
    requires !TruthyValue(Prop(data, "output")) || !(Prop(data, "output").v.JStr? || Prop(data, "output").v.JArr?)
    ensures ExtractReply(data) == Success(FALLBACK_REPLY)
  {
  }

  /** The reply throws exactly when the body is null or the output is an array holding a null block. */
  lemma ExtractThrows(data: Json)
    ensures ExtractReply(data).Failure? <==>
              data.JNull? || (Prop(data, "output").Value? && Prop(data, "output").v.JArr? && JNull in Prop(data, "output").v.items)
  {
  }

  /** Block lists are read block by block, in order: the parts of `a + b` are the parts of `a`, then of `b`. */
  lemma ReplyPartsConcat(a: seq<Json>, b: seq<Json>)
    ensures ReplyParts(a + b) == ReplyParts(a) + ReplyParts(b)
  {
    FilterConcat(IsTextBlock, a, b);
    MapConcat(BlockText, Filter(IsTextBlock, a), Filter(IsTextBlock, b));
  }

  /** One block contributes its text when it is a text block, and nothing otherwise. */
  lemma ReplyPartsOne(item: Json)
    ensures ReplyParts([item]) == if IsTextBlock(item) then [BlockText(item)] else []
  {
    assert [item][1..] == [];
  }

  /** A block list reply: a TypeError when a block is null, else the parts joined by a blank line. */
  lemma ExtractBlockList(items: seq<Json>)
    ensures ExtractReply(OutputBody(JArr(items)))
            == if JNull in items then Failure(TypeError) else Success(Join(ReplyParts(items), BLOCK_SEPARATOR))
  {
    assert Prop(OutputBody(JArr(items)), "output") == Value(JArr(items));
  }

  /**
   * A block list without any text block, the empty list included, reads as
   * the empty string: the fallback text is kept only for outputs that are not
   * strings or arrays.
   */
  lemma ExtractNoTextBlocks(items: seq<Json>)
    requires forall i :: 0 <= i < |items| ==> !IsTextBlock(items[i]) && !items[i].JNull?
    ensures ExtractReply(OutputBody(JArr(items))) == Success("")
  {
    ExtractBlockList(items);
    assert Filter(IsTextBlock, items) == [];
  }

  /** A block that is neither a text block nor null changes nothing, wherever it stands. */
  lemma ExtractSkipsOtherBlocks(a: seq<Json>, x: Json, b: seq<Json>)
    requires !IsTextBlock(x) && !x.JNull?
    ensures ExtractReply(OutputBody(JArr(a + [x] + b))) == ExtractReply(OutputBody(JArr(a + b)))
  {
    var with := a + [x] + b;
    var without := a + b;
    assert ReplyParts(with) == ReplyParts(without) by {
      ReplyPartsConcat(a + [x], b);
      ReplyPartsConcat(a, [x]);
      ReplyPartsConcat(a, b);
      ReplyPartsOne(x);
    }
    assert (JNull in with) == (JNull in without);
    ExtractBlockList(with);
    ExtractBlockList(without);
  }

  /** A block `{type: "text", text: s}`. */
  function TextBlock(s: string): Json
  {
    JObj([("type", JStr("text")), ("text", JStr(s))])
  }

  /** A text block contributes exactly its text. */
  lemma TextBlockText(s: string)
    ensures IsTextBlock(TextBlock(s)) && BlockText(TextBlock(s)) == s
    ensures Prop(TextBlock(s), "text") == Value(JStr(s))
  {
    var fields := TextBlock(s).fields;
    assert fields[0].0 == "type" != "text" && fields[0].1 == JStr("text");
    assert fields[1..] == [("text", JStr(s))];
    assert Lookup(fields[1..], "text") == Value(JStr(s));
    assert Prop(TextBlock(s), "type") == Value(JStr("text"));
    assert Prop(TextBlock(s), "text") == Value(JStr(s));
  }

  /** The parts of two text blocks around a block that is not a text block. */
  lemma ReplyPartsAroundOther(a: string, x: Json, b: string)
    requires !IsTextBlock(x)
    ensures ReplyParts([TextBlock(a), x, TextBlock(b)]) == [a, b]
  {
    TextBlockText(a);
    TextBlockText(b);
    assert [TextBlock(a), x, TextBlock(b)] == [TextBlock(a)] + [x] + [TextBlock(b)];
    ReplyPartsConcat([TextBlock(a)] + [x], [TextBlock(b)]);
    ReplyPartsConcat([TextBlock(a)], [x]);
    ReplyPartsOne(TextBlock(a));
    ReplyPartsOne(x);
    ReplyPartsOne(TextBlock(b));
  }

  /** Two text blocks around any other non-null block read as their texts joined by one blank line. */
  lemma ExtractTextAroundOther(a: string, x: Json, b: string)
    requires !IsTextBlock(x) && !x.JNull?
    ensures ExtractReply(OutputBody(JArr([TextBlock(a), x, TextBlock(b)]))) == Success(a + "\n\n" + b)
  {
    var blocks := [TextBlock(a), x, TextBlock(b)];
    ReplyPartsAroundOther(a, x, b);
    assert Join([a, b], BLOCK_SEPARATOR) == a + BLOCK_SEPARATOR + b by {
      assert [a, b][1..] == [b];
    }
    assert JNull !in blocks;
    ExtractBlockList(blocks);
  }

  /** The example reply `[{type:"text",text:"A"},{type:"image"},{type:"text",text:"B"}]` reads "A\n\nB". */
  lemma ExtractExample()
    ensures ExtractReply(OutputBody(JArr([TextBlock("A"), JObj([("type", JStr("image"))]), TextBlock("B")])))
            == Success("A\n\nB")
  {
    var image := JObj([("type", JStr("image"))]);
    assert !IsTextBlock(image) by {
      assert Prop(image, "type") == Value(JStr("image"));
    }
    ExtractTextAroundOther("A", image, "B");
    assert "A" + BLOCK_SEPARATOR + "B" == "A\n\nB";
  }

  /** How the request of lines 107-137 ends: the reply text, or what the catch block receives. */
  function ReplyOf(outcome: FetchOutcome): Result<string, JsError>
  {
    match outcome
    case NetworkError => Failure(FetchFailed)
    case Response(ok, body) =>
      if !ok then Failure(NotOk)
      else match body
        case None => Failure(SyntaxError)
        case Some(data) => ExtractReply(data)
  }

  // ---------------------------------------------------------------------------
  // The transcript (lines 165-208)

  datatype Sender = UserSender | SystemSender | AgentSender

  /** What a bubble shows: text set through `innerText`, or markup set through `innerHTML`. */
  datatype Content = PlainText(text: string) | Html(markup: string)

  /** A child of the message list: a message bubble, or the "thinking" indicator with its element id. */
  datatype Bubble = Message(sender: Sender, content: Content) | LoadingIndicator(id: string)

  /** appendMessage's bubble: user and system text stays plain text; only agent text becomes markup. */
  function BubbleFor(text: string, sender: Sender): (b: Bubble)
    ensures b.Message? && b.sender == sender
    ensures b.content.Html? <==> sender == AgentSender
    ensures b.content == PlainText(text) || b.content == Html(text)
  {
    if sender == AgentSender then Message(sender, Html(text)) else Message(sender, PlainText(text))
  }

  /** `document.getElementById(id)?.remove()`: the first element with that id leaves the list. */
  function WithoutElement(bubbles: seq<Bubble>, id: string): (r: seq<Bubble>)
    ensures |r| == |bubbles| || |r| == |bubbles| - 1
  {
    if |bubbles| == 0 then []
    else if bubbles[0] == LoadingIndicator(id) then bubbles[1..]
    else [bubbles[0]] + WithoutElement(bubbles[1..], id)
  }

  predicate OnlyMessages(bubbles: seq<Bubble>)
  {
    forall i :: 0 <= i < |bubbles| ==> bubbles[i].Message?
  }

  /** Removing the indicator just appended restores the list; removing an absent one changes nothing. */
  lemma {:induction false} WithoutElementRestores(bubbles: seq<Bubble>, id: string)
    requires OnlyMessages(bubbles)
    ensures WithoutElement(bubbles + [LoadingIndicator(id)], id) == bubbles
    ensures WithoutElement(bubbles, id) == bubbles
  {
    if |bubbles| > 0 {
      assert (bubbles + [LoadingIndicator(id)])[1..] == bubbles[1..] + [LoadingIndicator(id)];
      WithoutElementRestores(bubbles[1..], id);
    }
  }

  /** No user or system text is ever rendered as markup. */
  predicate NoMarkupFromVisitor(bubbles: seq<Bubble>)
  {
    forall i :: 0 <= i < |bubbles| ==> bubbles[i].Message? && bubbles[i].content.Html? ==> bubbles[i].sender == AgentSender
  }

  /** The bubbles a settled turn adds after the user's own and the indicator's removal (lines 141-153). */
  function SettlementBubbles(reply: Result<string, JsError>, markdown: string -> string, exhausted: bool): seq<Bubble>
  {
    match reply
    case Success(raw) =>
      [BubbleFor(markdown(raw), AgentSender)] + (if exhausted then [BubbleFor(TRIAL_LIMIT_NOTICE, SystemSender)] else [])
    case Failure(_) => [BubbleFor(CONNECTION_ERROR, AgentSender)]
  }

  /** A failed request adds exactly one bubble, the connection error, and never the trial-limit notice. */
  lemma FailureAddsOnlyConnectionError(e: JsError, markdown: string -> string, exhausted: bool)
    ensures SettlementBubbles(Failure(e), markdown, exhausted) == [Message(AgentSender, Html(CONNECTION_ERROR))]
    ensures BubbleFor(TRIAL_LIMIT_NOTICE, SystemSender) !in SettlementBubbles(Failure(e), markdown, exhausted)
  {
  }

  /** A settled turn keeps the transcript free of indicators and of visitor text rendered as markup. */
  lemma SettledTurnKeepsTranscript(before: seq<Bubble>, text: string, reply: Result<string, JsError>,
                                   markdown: string -> string, exhausted: bool)
    requires OnlyMessages(before) && NoMarkupFromVisitor(before)
    ensures var after := before + [BubbleFor(text, UserSender)] + SettlementBubbles(reply, markdown, exhausted);
            OnlyMessages(after) && NoMarkupFromVisitor(after)
  {
  }

  /** A turn may start when the input is not blank and the trial is not used up. */
  predicate TurnStarts(input: string, user: Json, usesCount: int)
  {
    Trim(input) != "" && !TrialExhausted(user, usesCount)
  }

  // ---------------------------------------------------------------------------
  // The page

  /**
   * The widget's state: the module variables `user` and `usesCount`, the
   * message list, the input box, the remaining-uses counter with its panel,
   * the auth modal, and the requests sent. `placeholder` and `usesDisplay`
   * are None while they still show the page's own markup.
   */
  class Widget {
    var user: Json
    var usesCount: int
    var bubbles: seq<Bubble>
    var inputValue: string
    var inputDisabled: bool
    var placeholder: Option<string>
    var usesDisplay: Option<string>
    var usesPanelHidden: bool
    var modalShown: bool
    var sent: seq<Request>
    const store: LocalStorage
    /** `marked.parse`, the Markdown renderer. */
    const markdown: string -> string

    ghost predicate Valid()
      reads this
    {
      && (Truthy(user) || user == JNull)
      && OnlyMessages(bubbles)
      && NoMarkupFromVisitor(bubbles)
    }

    /** The input is locked exactly when the trial is used up. */
    predicate LockShown()
      reads this
    {
      inputDisabled == TrialExhausted(user, usesCount)
    }

    /** Loading the script (lines 9-19): state from storage, an empty list and an enabled input. */
    constructor (store: LocalStorage, parse: string -> Option<Json>, markdown: string -> string)
      requires LoadState(store.items, parse).Success?
      ensures Valid()
      ensures user == LoadState(store.items, parse).value.user
      ensures usesCount == LoadState(store.items, parse).value.usesCount
      ensures bubbles == [] && inputValue == "" && !inputDisabled && placeholder == None
      ensures usesDisplay == None && !usesPanelHidden && !modalShown && sent == []
      ensures this.store == store && this.markdown == markdown
    {
      var loaded := LoadState(store.items, parse).value;
      user := loaded.user;
      usesCount := loaded.usesCount;
      bubbles := [];
      inputValue := "";
      inputDisabled := false;
      placeholder := None;
      usesDisplay := None;
      usesPanelHidden := false;
      modalShown := false;
      sent := [];
      this.store := store;
      this.markdown := markdown;
    }

    /** `updateUI` (lines 76-83): show the remaining count; hide the counter for a registered user. */
    method UpdateUI()
      modifies this`usesDisplay, this`usesPanelHidden
      ensures usesDisplay == Some(IntToString(Remaining(usesCount)))
      ensures usesPanelHidden == (old(usesPanelHidden) || Truthy(user))
    {
      usesDisplay := Some(IntToString(Remaining(usesCount)));
      if Truthy(user) {
        usesPanelHidden := true;
      }
    }

    /** `init` (lines 22-31): refresh the counter and lock the input when the trial is already used up. */
    method Init()
      modifies this`usesDisplay, this`usesPanelHidden, this`inputDisabled, this`placeholder
      ensures usesDisplay == Some(IntToString(Remaining(usesCount)))
      ensures usesPanelHidden == (old(usesPanelHidden) || Truthy(user))
      ensures inputDisabled == (old(inputDisabled) || TrialExhausted(user, usesCount))
      ensures placeholder == if TrialExhausted(user, usesCount) then Some(TRIAL_LIMIT_PLACEHOLDER) else old(placeholder)
      ensures !old(inputDisabled) ==> LockShown()
    {
      UpdateUI();
      if !Truthy(user) && usesCount >= MAX_FREE_USES {
        inputDisabled := true;
        placeholder := Some(TRIAL_LIMIT_PLACEHOLDER);
      }
    }

    /** `appendMessage` (lines 165-187). */
    method AppendMessage(text: string, sender: Sender)
      modifies this`bubbles
      ensures bubbles == old(bubbles) + [BubbleFor(text, sender)]
    {
      bubbles := bubbles + [BubbleFor(text, sender)];
    }

    /** `appendLoading` (lines 189-203): the indicator gets the id `loading-<Date.now()>`. */
    method AppendLoading(now: nat) returns (id: string)
      modifies this`bubbles
      ensures id == "loading-" + IntToString(now)
      ensures bubbles == old(bubbles) + [LoadingIndicator(id)]
    {
      id := "loading-" + IntToString(now);
      bubbles := bubbles + [LoadingIndicator(id)];
    }

    /** `removeMessage` (lines 205-208). */
    method RemoveMessage(id: string)
      modifies this`bubbles
      ensures bubbles == WithoutElement(old(bubbles), id)
    {
      bubbles := WithoutElement(bubbles, id);
    }

    /** `showAuthModal` (lines 210-213). */
    method ShowAuthModal()
      modifies this`modalShown
      ensures modalShown
    {
      modalShown := true;
    }

    /**
     * Lines 95-115 of `sendMessage`: the user's bubble, the cleared and locked
     * input, the anonymous count persisted and shown, the indicator, the request.
     */
    method StartTurn(text: string, now: nat) returns (loadingId: string)
      modifies this`bubbles, this`inputValue, this`inputDisabled, this`usesCount, this`usesDisplay,
               this`usesPanelHidden, this`sent, store
      ensures loadingId == "loading-" + IntToString(now)
      ensures bubbles == old(bubbles) + [BubbleFor(text, UserSender), LoadingIndicator(loadingId)]
      ensures inputValue == "" && inputDisabled
      ensures usesCount == CountAfterTurn(user, old(usesCount))
      ensures store.items == if Truthy(user) then old(store.items)
                             else old(store.items)[STORAGE_KEY_USES := IntToString(usesCount)]
      ensures usesDisplay == if Truthy(user) then old(usesDisplay) else Some(IntToString(Remaining(usesCount)))
      ensures usesPanelHidden == old(usesPanelHidden)
      ensures sent == old(sent) + [Request(text, SessionId(user, now))]
    {
      AppendMessage(text, UserSender);
      inputValue := "";
      inputDisabled := true;
      if !Truthy(user) {
        usesCount := usesCount + 1;
        store.SetItem(STORAGE_KEY_USES, IntToString(usesCount));
        UpdateUI();
      }
      loadingId := AppendLoading(now);
      sent := sent + [Request(text, SessionId(user, now))];
    }

    /**
     * Lines 116-153 of `sendMessage`: the try block and its catch. Whatever
     * throws, the indicator goes and one connection-error bubble comes; on a
     * reply, the rendered reply and, once the trial is used up, the notice.
     */
    method Settle(outcome: FetchOutcome, loadingId: string, ghost shown: seq<Bubble>)
      requires OnlyMessages(shown) && bubbles == shown + [LoadingIndicator(loadingId)]
      modifies this`bubbles, this`modalShown
      ensures bubbles == shown + SettlementBubbles(ReplyOf(outcome), markdown, TrialExhausted(user, usesCount))
      ensures modalShown == (old(modalShown) || (ReplyOf(outcome).Success? && TrialExhausted(user, usesCount)))
    {
      WithoutElementRestores(shown, loadingId);
      var failed := false;
      // a rejected fetch, a non-ok status or an undecodable body throws before any removal
      if outcome.NetworkError? || !outcome.ok || outcome.body.None? {
        failed := true;
      } else {
        RemoveMessage(loadingId);
        var reply := ExtractReply(outcome.body.value);
        if reply.Failure? {
          failed := true;
        } else {
          AppendMessage(markdown(reply.value), AgentSender);
          if !Truthy(user) && usesCount >= MAX_FREE_USES {
            // posted by the timer of lines 144-147
            AppendMessage(TRIAL_LIMIT_NOTICE, SystemSender);
            ShowAuthModal();
          }
        }
      }
      if failed {
        RemoveMessage(loadingId);
        AppendMessage(CONNECTION_ERROR, AgentSender);
      }
    }

    /** The finally block (lines 154-162): lock the input when the trial is used up, else re-enable it. */
    method SettleInput()
      modifies this`inputDisabled, this`placeholder
      ensures LockShown()
      ensures placeholder == if TrialExhausted(user, usesCount) then Some(TRIAL_LIMIT_PLACEHOLDER) else old(placeholder)
    {
      if !Truthy(user) && usesCount >= MAX_FREE_USES {
        inputDisabled := true;
        placeholder := Some(TRIAL_LIMIT_PLACEHOLDER);
      } else {
        inputDisabled := false;
      }
    }

    /** Lines 95-162 of `sendMessage`: one whole turn for the trimmed text `text`. */
    method Turn(text: string, outcome: FetchOutcome, now: nat)
      requires Valid() && !TrialExhausted(user, usesCount)
      modifies this`bubbles, this`inputValue, this`inputDisabled, this`usesCount, this`usesDisplay,
               this`usesPanelHidden, this`sent, this`modalShown, this`placeholder, store
      ensures Valid()
      ensures usesCount == CountAfterTurn(user, old(usesCount))
      ensures store.items == if Truthy(user) then old(store.items)
                             else old(store.items)[STORAGE_KEY_USES := IntToString(usesCount)]
      ensures usesDisplay == if Truthy(user) then old(usesDisplay) else Some(IntToString(Remaining(usesCount)))
      ensures usesPanelHidden == old(usesPanelHidden)
      ensures sent == old(sent) + [Request(text, SessionId(user, now))]
      ensures bubbles == old(bubbles) + [BubbleFor(text, UserSender)]
                                      + SettlementBubbles(ReplyOf(outcome), markdown, TrialExhausted(user, usesCount))
      ensures inputValue == ""
      ensures modalShown == (old(modalShown) || (ReplyOf(outcome).Success? && TrialExhausted(user, usesCount)))
      ensures LockShown()
      ensures placeholder == if TrialExhausted(user, usesCount) then Some(TRIAL_LIMIT_PLACEHOLDER) else old(placeholder)
      ensures old(usesCount) <= MAX_FREE_USES ==> usesCount <= MAX_FREE_USES
    {
      ghost var before := bubbles;
      SettledTurnKeepsTranscript(before, text, ReplyOf(outcome), markdown, TrialExhausted(user, CountAfterTurn(user, usesCount)));
      var loadingId := StartTurn(text, now);
      Settle(outcome, loadingId, before + [BubbleFor(text, UserSender)]);
      SettleInput();
    }

    /**
     * `sendMessage` (lines 86-163), run to settlement with the webhook's
     * `outcome` and the clock reading `now`.
     */
    method SendMessage(outcome: FetchOutcome, now: nat)
      requires Valid()
      modifies this, store
      ensures Valid()
      ensures user == old(user)
      // blank input: nothing happens
      ensures Trim(old(inputValue)) == "" ==> unchanged(this) && unchanged(store)
      // trial used up: only the auth modal opens; no bubble, no count, no request
      ensures Trim(old(inputValue)) != "" && TrialExhausted(user, old(usesCount)) ==>
                && modalShown && bubbles == old(bubbles) && usesCount == old(usesCount) && sent == old(sent)
                && inputValue == old(inputValue) && inputDisabled == old(inputDisabled) && placeholder == old(placeholder)
                && usesDisplay == old(usesDisplay) && usesPanelHidden == old(usesPanelHidden) && unchanged(store)
      // a turn: the user's bubble, the count and its persisting before the request, one request, the settlement
      ensures TurnStarts(old(inputValue), user, old(usesCount)) ==>
                && usesCount == CountAfterTurn(user, old(usesCount))
                && store.items == (if Truthy(user) then old(store.items)
                                   else old(store.items)[STORAGE_KEY_USES := IntToString(usesCount)])
                && usesDisplay == (if Truthy(user) then old(usesDisplay) else Some(IntToString(Remaining(usesCount))))
                && usesPanelHidden == old(usesPanelHidden)
                && sent == old(sent) + [Request(Trim(old(inputValue)), SessionId(user, now))]
                && bubbles == old(bubbles) + [BubbleFor(Trim(old(inputValue)), UserSender)]
                                           + SettlementBubbles(ReplyOf(outcome), markdown, TrialExhausted(user, usesCount))
                && inputValue == ""
                && modalShown == (old(modalShown) || (ReplyOf(outcome).Success? && TrialExhausted(user, usesCount)))
                && LockShown()
                && placeholder == (if TrialExhausted(user, usesCount) then Some(TRIAL_LIMIT_PLACEHOLDER) else old(placeholder))
      // the counter never passes the limit, and the lock keeps matching the trial state
      ensures old(usesCount) <= MAX_FREE_USES ==> usesCount <= MAX_FREE_USES
      ensures old(LockShown()) ==> LockShown()
    {
      var text := Trim(inputValue);
      if text == "" {
      } else if !Truthy(user) && usesCount >= MAX_FREE_USES {
        ShowAuthModal();
      } else {
        assert TurnStarts(inputValue, user, usesCount);
        Turn(text, outcome, now);
      }
    }

    /** `fillInput` (lines 215-218): put a suggestion into the input and send it, with the outcomes of `sendMessage`. */
    method FillInput(text: string, outcome: FetchOutcome, now: nat)
      requires Valid()
      modifies this, store
      ensures Valid() && user == old(user)
      // blank suggestion: only the input holds it
      ensures Trim(text) == "" ==>
                && inputValue == text && bubbles == old(bubbles) && usesCount == old(usesCount) && sent == old(sent)
                && inputDisabled == old(inputDisabled) && placeholder == old(placeholder) && modalShown == old(modalShown)
                && usesDisplay == old(usesDisplay) && usesPanelHidden == old(usesPanelHidden) && unchanged(store)
      // trial used up: the input holds it and only the auth modal opens
      ensures Trim(text) != "" && TrialExhausted(user, old(usesCount)) ==>
                && modalShown && inputValue == text && bubbles == old(bubbles) && usesCount == old(usesCount) && sent == old(sent)
                && inputDisabled == old(inputDisabled) && placeholder == old(placeholder)
                && usesDisplay == old(usesDisplay) && usesPanelHidden == old(usesPanelHidden) && unchanged(store)
      // a turn, as `sendMessage` takes it
      ensures TurnStarts(text, user, old(usesCount)) ==>
                && usesCount == CountAfterTurn(user, old(usesCount))
                && store.items == (if Truthy(user) then old(store.items)
                                   else old(store.items)[STORAGE_KEY_USES := IntToString(usesCount)])
                && usesDisplay == (if Truthy(user) then old(usesDisplay) else Some(IntToString(Remaining(usesCount))))
                && usesPanelHidden == old(usesPanelHidden)
                && sent == old(sent) + [Request(Trim(text), SessionId(user, now))]
                && bubbles == old(bubbles) + [BubbleFor(Trim(text), UserSender)]
                                           + SettlementBubbles(ReplyOf(outcome), markdown, TrialExhausted(user, usesCount))
                && inputValue == ""
                && modalShown == (old(modalShown) || (ReplyOf(outcome).Success? && TrialExhausted(user, usesCount)))
                && LockShown()
                && placeholder == (if TrialExhausted(user, usesCount) then Some(TRIAL_LIMIT_PLACEHOLDER) else old(placeholder))
      ensures old(usesCount) <= MAX_FREE_USES ==> usesCount <= MAX_FREE_USES
      ensures old(LockShown()) ==> LockShown()
    {
      inputValue := text;
      SendMessage(outcome, now);
    }
  }

  /**
   * A fresh anonymous session: two turns are allowed whatever the webhook
   * answers, after which the input is locked and a third message is refused
   * without a bubble, a count or a request.
   */
  method TrialScenario(w: Widget, m1: string, m2: string, m3: string,
                       o1: FetchOutcome, o2: FetchOutcome, o3: FetchOutcome)
    requires w.Valid() && w.user == JNull && w.usesCount == 0 && w.sent == []
    requires Trim(m1) != "" && Trim(m2) != "" && Trim(m3) != ""
    modifies w, w.store
    ensures w.usesCount == MAX_FREE_USES && |w.sent| == 2 && w.inputDisabled && w.modalShown
    ensures w.store.items == old(w.store.items)[STORAGE_KEY_USES := IntToString(MAX_FREE_USES)]
  {
    w.FillInput(m1, o1, 1000);
    assert w.usesCount == 1 && |w.sent| == 1;
    w.FillInput(m2, o2, 2000);
    assert w.usesCount == 2 && |w.sent| == 2 && w.inputDisabled;
    var shown := w.bubbles;
    w.FillInput(m3, o3, 3000);
    assert w.usesCount == 2 && |w.sent| == 2 && w.bubbles == shown && w.modalShown;
  }
}
