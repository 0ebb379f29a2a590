/**
 * The web app's chat page (cbag-web/src/app/chat/page.tsx): an append-only
 * message list opened by a greeting, the input box, the `isLoading` flag, the
 * send guard that counts free uses downward through the authentication
 * context, and the condition that disables the input and the send button.
 */
module WebChat {
  import opened Wrappers
  import opened Decimal
  import opened JsValues
  import opened Browser
  import opened AuthContext
  import SimpleWidget

  const GREETING: string :=
    "Hello! I am CBAg, your AI expert on the Carbon Border Adjustment Mechanism. How can I help you today?"
  const CONNECTION_TROUBLE: string := "I'm having trouble connecting to the server. Please try again later."
  const REGISTER_PATH: string := "/register"

  datatype Role = UserRole | AgentRole

  /** A message of the list; `content` is whatever was stored, `undefined` included. */
  datatype Message = Message(id: string, role: Role, content: JsValue)

  /** The list the page starts with (lines 21-23). */
  const INITIAL_MESSAGES: seq<Message> := [Message("1", AgentRole, Value(JStr(GREETING)))]

  // ---------------------------------------------------------------------------
  // The gate (lines 40 and 148/153)

  /** `!isAuthenticated && freeUsesLeft <= 0`: the send is turned away to registration. NaN is not `<= 0`. */
  predicate SendRefused(authenticated: bool, freeUsesLeft: JsNumber)
  {
    !authenticated && AtMostZero(freeUsesLeft)
  }

  /** `isLoading || (!isAuthenticated && freeUsesLeft === 0)`: the input and the button are disabled. */
  predicate ControlsDisabled(isLoading: bool, authenticated: bool, freeUsesLeft: JsNumber)
  {
    isLoading || (!authenticated && IsZero(freeUsesLeft))
  }

  /** When idle, disabled controls mean a send would be refused; the converse fails only on negative counts. */
  lemma DisabledIdleIsRefused(authenticated: bool, n: JsNumber)
    ensures ControlsDisabled(false, authenticated, n) ==> SendRefused(authenticated, n)
    ensures SendRefused(authenticated, n) && !ControlsDisabled(false, authenticated, n) ==> n.Num? && n.value < 0
  {
  }

  /** A negative stored count, such as "-1", leaves the controls enabled while every send is refused. */
  lemma NegativeCountEnabledButRefused(m: int)
    requires m < 0
    ensures !ControlsDisabled(false, false, Num(m)) && SendRefused(false, Num(m))
  {
  }

  /** A signed-in user is never refused and, when idle, never disabled, whatever the count. */
  lemma AuthenticatedNeverRefused(n: JsNumber)
    ensures !SendRefused(true, n) && !ControlsDisabled(false, true, n)
  {
  }

  /**
   * An anonymous visitor with `m >= 0` free uses gets exactly `m` sends: after
   * `k` allowed sends, each decrementing the count, the next one is refused
   * exactly when `k >= m`.
   */
  lemma FreeSendsFrom(m: int, k: nat)
    requires m >= 0
    ensures SendRefused(false, Decrements(Num(m), k)) <==> k >= m
  {
    DecrementsStopAtZero(m, k);
  }

  /** The provider's initial count allows one anonymous send, then locks the controls and refuses the next. */
  lemma OneFreeSend()
    ensures !SendRefused(false, Num(INITIAL_FREE_USES))
    ensures SendRefused(false, AfterDecrement(Num(INITIAL_FREE_USES)))
    ensures ControlsDisabled(false, false, AfterDecrement(Num(INITIAL_FREE_USES)))
  {
  }

  /** A stored count that reads back as NaN is never refused and never decremented: the trial never ends. */
  lemma NaNCountNeverRunsOut(k: nat)
    ensures !SendRefused(false, Decrements(NaN, k)) && !ControlsDisabled(false, false, Decrements(NaN, k))
  {
    DecrementsKeepNaN(k);
  }

  // ---------------------------------------------------------------------------
  // The request and its settlement (lines 54-75)

  /** `user ? \`user-${user.email}\` : \`guest-${Date.now()}\``. */
  function WebSessionId(user: Json, now: nat): string
  {
    if Truthy(user) then "user-" + ToStringValue(Prop(user, "email")) else "guest-" + IntToString(now)
  }

  /** A logged-in user's session is named by the address; a guest's by the clock. */
  lemma WebSessionIds(email: string, now: nat)
    ensures WebSessionId(NewUser(email), now) == "user-" + email
    ensures WebSessionId(JNull, now) == "guest-" + IntToString(now)
  {
  }

  /** A stored user without an `email` member still counts as signed in and sends the session "user-undefined". */
  lemma WebSessionIdWithoutEmail(now: nat)
    ensures WebSessionId(JObj([]), now) == "user-undefined"
  {
  }

  /**
   * The message a settled request appends at clock reading `now`: on a decoded
   * body that is not null, an agent message with `data.output` as it is and id
   * `now + 1`; on a rejected fetch, a non-ok status, an undecodable body or a
   * null body (reading `output` throws), the connection-trouble message with id `now`.
   */
  function Settlement(outcome: FetchOutcome, now: nat): Message
  {
    if outcome.NetworkError? || !outcome.ok || outcome.body.None? || outcome.body.value.JNull? then
      Message(IntToString(now), AgentRole, Value(JStr(CONNECTION_TROUBLE)))
    else
      Message(IntToString(now + 1), AgentRole, Prop(outcome.body.value, "output"))
  }

  /** Whatever way the request fails, the page appends the same connection-trouble text from the agent. */
  lemma ConnectionTroubleOnAnyFailure(outcome: FetchOutcome, now: nat)
    requires outcome.NetworkError? || !outcome.ok || outcome.body.None? || outcome.body.value.JNull?
    ensures Settlement(outcome, now) == Message(IntToString(now), AgentRole, Value(JStr(CONNECTION_TROUBLE)))
  {
  }

  /**
   * Any decoded body other than null settles as an agent message holding its
   * `output` member, which is `undefined` when the body is not an object or has none.
   */
  lemma DecodedBodyKeepsOutput(body: Json, now: nat)
    requires body != JNull
    ensures Settlement(Response(true, Some(body)), now) == Message(IntToString(now + 1), AgentRole, Prop(body, "output"))
    ensures !body.JObj? ==> Settlement(Response(true, Some(body)), now).content == Undefined
  {
  }

  /**
   * Against the user's message, sent with id `t0`: a reply settled at `t1 >= t0`
   * never takes the same id, while the connection-trouble message does when the
   * clock has not moved since the send.
   */
  lemma SettlementIdAgainstUserId(outcome: FetchOutcome, t0: nat, t1: nat)
    requires t0 <= t1
    ensures outcome.Response? && outcome.ok && outcome.body.Some? && outcome.body.value != JNull ==>
              Settlement(outcome, t1).id != IntToString(t0)
    ensures t1 == t0 && (outcome.NetworkError? || !outcome.ok) ==> Settlement(outcome, t1).id == IntToString(t0)
  {
    if outcome.Response? && outcome.ok && outcome.body.Some? && outcome.body.value != JNull {
      if IntToString(t1 + 1) == IntToString(t0) {
        IntToStringInjective(t1 + 1, t0);
      }
    }
  }

  /**
   * The two clients read the same reply differently: for a block list the
   * widget joins the texts, while the page stores the array itself as the
   * message content, which the page cannot render as text.
   */
  lemma BlockListKeptRaw(items: seq<Json>, now: nat)
    requires JNull !in items
    ensures Settlement(Response(true, Some(SimpleWidget.OutputBody(JArr(items)))), now).content == Value(JArr(items))
    ensures SimpleWidget.ReplyOf(Response(true, Some(SimpleWidget.OutputBody(JArr(items)))))
            == Success(Seqs.Join(SimpleWidget.ReplyParts(items), SimpleWidget.BLOCK_SEPARATOR))
  {
    SimpleWidget.ExtractBlockList(items);
    assert Prop(SimpleWidget.OutputBody(JArr(items)), "output") == Value(JArr(items));
  }

  /** A body without `output` is stored as `undefined`, not as an error message. */
  lemma MissingOutputIsUndefined(now: nat)
    ensures Settlement(Response(true, Some(JObj([]))), now).content == Undefined
  {
  }

  // ---------------------------------------------------------------------------
  // The page

  class ChatPage {
    var messages: seq<Message>
    var input: string
    var isLoading: bool
    /** The bodies POSTed to the webhook, oldest first. */
    var sent: seq<Request>
    const auth: AuthProvider
    /** `useRouter()`: the same router the auth provider pushes to. */
    const router: Router

    /** The first render: the greeting, an empty input, not loading. */
    constructor (auth: AuthProvider)
      ensures messages == INITIAL_MESSAGES && |messages| == 1 && messages[0].role == AgentRole && messages[0].id == "1"
      ensures input == "" && !isLoading && sent == []
      ensures this.auth == auth && this.router == auth.router
    {
      messages := INITIAL_MESSAGES;
      input := "";
      isLoading := false;
      sent := [];
      this.auth := auth;
      this.router := auth.router;
    }

    /** Whether the input and the send button are disabled (lines 148 and 153). */
    predicate Disabled()
      reads this, auth
    {
      ControlsDisabled(isLoading, auth.IsAuthenticated(), auth.freeUsesLeft)
    }

    /** `onChange` of the input (line 145). */
    method SetInput(value: string)
      modifies this`input
      ensures input == value
    {
      input := value;
    }

    /**
     * Lines 37-53 of `handleSend`, up to the awaited fetch: the guard, then the
     * user's message with the untrimmed input and id `now`, the cleared input,
     * the loading flag, the decrement for a guest, and the request. `started`
     * tells whether the send went ahead.
     */
    method BeginSend(now: nat) returns (started: bool)
      modifies this`messages, this`input, this`isLoading, this`sent, auth`freeUsesLeft, auth.store, router
      ensures started == (Trim(old(input)) != "" && !SendRefused(auth.IsAuthenticated(), old(auth.freeUsesLeft)))
      ensures Trim(old(input)) == "" ==>
                && messages == old(messages) && input == old(input) && isLoading == old(isLoading) && sent == old(sent)
                && auth.freeUsesLeft == old(auth.freeUsesLeft) && auth.store.items == old(auth.store.items)
                && router.pushed == old(router.pushed)
      ensures Trim(old(input)) != "" && SendRefused(auth.IsAuthenticated(), old(auth.freeUsesLeft)) ==>
                && router.pushed == old(router.pushed) + [REGISTER_PATH]
                && messages == old(messages) && input == old(input) && isLoading == old(isLoading) && sent == old(sent)
                && auth.freeUsesLeft == old(auth.freeUsesLeft) && auth.store.items == old(auth.store.items)
      ensures started ==>
                && messages == old(messages) + [Message(IntToString(now), UserRole, Value(JStr(old(input))))]
                && input == "" && isLoading && Disabled()
                && sent == old(sent) + [Request(old(input), WebSessionId(auth.user, now))]
                && router.pushed == old(router.pushed)
                && auth.freeUsesLeft == (if auth.IsAuthenticated() then old(auth.freeUsesLeft)
                                         else AfterDecrement(old(auth.freeUsesLeft)))
                && auth.store.items == (if auth.IsAuthenticated() || !Positive(old(auth.freeUsesLeft)) then old(auth.store.items)
                                        else old(auth.store.items)[STORAGE_KEY_FREE_USES := IntToString(auth.freeUsesLeft.value)])
    {
      started := false;
      if Trim(input) == "" {
        return;
      }
      if !auth.IsAuthenticated() && auth.freeUsesLeft.Num? && auth.freeUsesLeft.value <= 0 {
        router.Push(REGISTER_PATH);
        return;
      }
      var content := input;
      messages := messages + [Message(IntToString(now), UserRole, Value(JStr(content)))];
      input := "";
      isLoading := true;
      if !auth.IsAuthenticated() {
        auth.DecrementFreeUse();
      }
      sent := sent + [Request(content, WebSessionId(auth.user, now))];
      started := true;
    }

    /** Lines 64-75 of `handleSend`: one agent message for the outcome at clock reading `now`, then not loading. */
    method FinishSend(outcome: FetchOutcome, now: nat)
      modifies this`messages, this`isLoading
      ensures messages == old(messages) + [Settlement(outcome, now)]
      ensures !isLoading
    {
      var failed := outcome.NetworkError? || !outcome.ok || outcome.body.None? || outcome.body.value.JNull?;
      if failed {
        messages := messages + [Message(IntToString(now), AgentRole, Value(JStr(CONNECTION_TROUBLE)))];
      } else {
        var data := outcome.body.value;
        messages := messages + [Message(IntToString(now + 1), AgentRole, Prop(data, "output"))];
      }
      isLoading := false;
    }

    /**
     * `handleSend` (lines 36-76) with the webhook's `outcome`, the clock
     * reading `t0` before the await and `t1` after it.
     */
    method HandleSend(outcome: FetchOutcome, t0: nat, t1: nat)
      modifies this`messages, this`input, this`isLoading, this`sent, auth`freeUsesLeft, auth.store, router
      // blank input: nothing changes
      ensures Trim(old(input)) == "" ==>
                && messages == old(messages) && input == old(input) && isLoading == old(isLoading) && sent == old(sent)
                && auth.freeUsesLeft == old(auth.freeUsesLeft) && auth.store.items == old(auth.store.items)
                && router.pushed == old(router.pushed)
      // refused: off to registration; no message, no decrement, no request
      ensures Trim(old(input)) != "" && SendRefused(auth.IsAuthenticated(), old(auth.freeUsesLeft)) ==>
                && router.pushed == old(router.pushed) + [REGISTER_PATH]
                && messages == old(messages) && input == old(input) && isLoading == old(isLoading) && sent == old(sent)
                && auth.freeUsesLeft == old(auth.freeUsesLeft) && auth.store.items == old(auth.store.items)
      // allowed: the user's message and the settlement, the decrement for a guest, one request, not loading
      ensures Trim(old(input)) != "" && !SendRefused(auth.IsAuthenticated(), old(auth.freeUsesLeft)) ==>
                && messages == old(messages) + [Message(IntToString(t0), UserRole, Value(JStr(old(input)))),
                                                Settlement(outcome, t1)]
                && input == "" && !isLoading
                && sent == old(sent) + [Request(old(input), WebSessionId(auth.user, t0))]
                && router.pushed == old(router.pushed)
                && auth.freeUsesLeft == (if auth.IsAuthenticated() then old(auth.freeUsesLeft)
                                         else AfterDecrement(old(auth.freeUsesLeft)))
                && auth.store.items == (if auth.IsAuthenticated() || !Positive(old(auth.freeUsesLeft)) then old(auth.store.items)
                                        else old(auth.store.items)[STORAGE_KEY_FREE_USES := IntToString(auth.freeUsesLeft.value)])
      // the list only grows, and by at most two messages
      ensures old(messages) <= messages && |messages| <= |old(messages)| + 2
    {
      var started := BeginSend(t0);
      if started {
        FinishSend(outcome, t1);
      }
    }
  }
}
