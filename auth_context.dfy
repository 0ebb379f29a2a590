/**
 * The web app's authentication context (cbag-web/src/context/AuthContext.tsx):
 * the signed-in user and the count of free chats left, both mirrored in local
 * storage; `login`, `logout` and `decrementFreeUse`; and the restore on mount.
 */
module AuthContext {
  import opened Wrappers
  import opened Decimal
  import opened JsValues
  import opened Browser

  const STORAGE_KEY_USER: string := "cbag_user"
  const STORAGE_KEY_FREE_USES: string := "cbag_free_uses"
  /** The initial value of `freeUsesLeft` (line 24). */
  const INITIAL_FREE_USES: int := 1
  const CHAT_PATH: string := "/chat"
  const HOME_PATH: string := "/"

  // ---------------------------------------------------------------------------
  // The user record built by `login` (line 37)

  /** `email.split('@')[0]`: the text before the first '@', or all of it when there is none. */
  function DisplayName(email: string): (name: string)
    ensures '@' !in name
    ensures name <= email
    ensures name == email || email[|name|] == '@'
  {
    if |email| == 0 || email[0] == '@' then "" else [email[0]] + DisplayName(email[1..])
  }

  /** The local part of an address `local@domain` is its display name, whatever the domain holds. */
  lemma {:induction false} DisplayNameOfAddress(local: string, domain: string)
    requires '@' !in local
    ensures DisplayName(local + "@" + domain) == local
  {
    if |local| > 0 {
      assert (local + "@" + domain)[1..] == local[1..] + "@" + domain;
      DisplayNameOfAddress(local[1..], domain);
    }
  }

  /** `{ email, name: email.split('@')[0] }`. */
  function NewUser(email: string): (u: Json)
    ensures Truthy(u)
    ensures Prop(u, "email") == Value(JStr(email))
    ensures Prop(u, "name") == Value(JStr(DisplayName(email)))
  {
    var fields := [("email", JStr(email)), ("name", JStr(DisplayName(email)))];
    assert fields[0].0 == "email" != "name";
    assert fields[1..] == [("name", JStr(DisplayName(email)))];
    assert Lookup(fields[1..], "name") == Value(JStr(DisplayName(email)));
    JObj(fields)
  }

  /**
   * `!!user` is true exactly when a user is present, for the values `login`
   * and `logout` write; a stored user that parses to 0, "" or false counts as
   * signed out.
   */
  lemma AuthenticatedIffPresent(u: Json)
    ensures (u.JNull? || u.JObj?) ==> (Truthy(u) <==> u != JNull)
    ensures u in {JNum(0), JStr(""), JBool(false)} ==> !Truthy(u)
  {
  }

  // ---------------------------------------------------------------------------
  // The free-use counter (lines 49-55)

  /** The counter after one `decrementFreeUse`: only a positive count goes down; zero, negatives and NaN stay. */
  function AfterDecrement(n: JsNumber): JsNumber
  {
    if Positive(n) then Num(n.value - 1) else n
  }

  /** The counter after `k` calls of `decrementFreeUse`. */
  function Decrements(n: JsNumber, k: nat): JsNumber
    decreases k
  {
    if k == 0 then n else Decrements(AfterDecrement(n), k - 1)
  }

  /** Decrementing never takes a non-negative count below zero: it stops at zero. */
  lemma {:induction false} DecrementsStopAtZero(m: int, k: nat)
    requires m >= 0
    ensures Decrements(Num(m), k) == Num(if m - k > 0 then m - k else 0)
  {
    if k > 0 {
      DecrementsStopAtZero(if m > 0 then m - 1 else 0, k - 1);
    }
  }

  /** A count read back as NaN is never decremented, however often a turn asks for it. */
  lemma {:induction false} DecrementsKeepNaN(k: nat)
    ensures Decrements(NaN, k) == NaN
  {
    if k > 0 {
      DecrementsKeepNaN(k - 1);
    }
  }

  /** A negative count is never decremented either. */
  lemma {:induction false} DecrementsKeepNegative(m: int, k: nat)
    requires m < 0
    ensures Decrements(Num(m), k) == Num(m)
  {
    if k > 0 {
      DecrementsKeepNegative(m, k - 1);
    }
  }

  // ---------------------------------------------------------------------------
  // Restoring on mount (lines 28-34)

  /** The two pieces of provider state. */
  datatype Session = Session(user: Json, freeUsesLeft: JsNumber)

  /** `localStorage.getItem(key)` is truthy: present and not empty. */
  predicate StoredText(items: map<string, string>, key: string)
  {
    key in items && items[key] != ""
  }

  /**
   * The state after the mount effect runs on `current`. A stored user is
   * parsed when its text is truthy; when `JSON.parse` throws, the effect stops
   * there (Failure) and the count is not read. A truthy stored count replaces
   * the count with `parseInt` of it, which may be NaN.
   */
  function Mounted(items: map<string, string>, parse: string -> Option<Json>, current: Session): Result<Session, JsError>
  {
    var parsed := if StoredText(items, STORAGE_KEY_USER) then parse(items[STORAGE_KEY_USER]) else Some(current.user);
    match parsed
    case None => Failure(SyntaxError)
    case Some(u) =>
      var uses := if StoredText(items, STORAGE_KEY_FREE_USES) then ParseInt(items[STORAGE_KEY_FREE_USES])
                  else current.freeUsesLeft;
      Success(Session(u, uses))
  }

  /** The state a provider starts with before its mount effect. */
  const INITIAL_SESSION: Session := Session(JNull, Num(INITIAL_FREE_USES))

  /** Empty storage leaves the initial state: signed out, one free use. */
  lemma MountFresh(parse: string -> Option<Json>)
    ensures Mounted(map[], parse, INITIAL_SESSION) == Success(INITIAL_SESSION)
  {
  }

  /**
   * A login survives a reload: what `login` stores is what the next mount
   * restores, for any codec whose `parse` reads back what `stringify` writes
   * and whose text for the record is not empty.
   */
  lemma MountRestoresLogin(items: map<string, string>, json: JsonCodec, email: string, current: Session)
    requires json.parse(json.stringify(NewUser(email))) == Some(NewUser(email))
    requires json.stringify(NewUser(email)) != ""
    ensures var m := Mounted(items[STORAGE_KEY_USER := json.stringify(NewUser(email))], json.parse, current);
            m.Success? && m.value.user == NewUser(email)
  {
  }

  /** After a logout the stored user is gone, so a mount keeps the signed-out state of a fresh provider. */
  lemma MountAfterLogout(items: map<string, string>, parse: string -> Option<Json>)
    ensures var m := Mounted(items - {STORAGE_KEY_USER}, parse, INITIAL_SESSION);
            m.Success? && m.value.user == JNull
  {
  }

  /** The count `decrementFreeUse` writes with `toString` is the count the next mount reads with `parseInt`. */
  lemma MountRestoresCount(items: map<string, string>, parse: string -> Option<Json>, n: int, current: Session)
    ensures var m := Mounted(items[STORAGE_KEY_FREE_USES := IntToString(n)], parse, current);
            m.Success? ==> m.value.freeUsesLeft == Num(n)
    ensures Mounted(items[STORAGE_KEY_FREE_USES := IntToString(n)], parse, current).Success?
            == Mounted(items, parse, current).Success?
  {
    ParseIntRoundTrip(n);
  }

  /** A stored count that is not a number, such as "abc", mounts as NaN. */
  lemma MountTamperedCount(items: map<string, string>, parse: string -> Option<Json>, current: Session)
    ensures var m := Mounted(items[STORAGE_KEY_FREE_USES := "abc"], parse, current);
            m.Success? ==> m.value.freeUsesLeft == NaN
  {
    ParseIntNoDigits("abc");
  }

  // ---------------------------------------------------------------------------
  // The provider (lines 22-69)

  class AuthProvider {
    var user: Json
    var freeUsesLeft: JsNumber
    const store: LocalStorage
    const router: Router
    const json: JsonCodec

    /** The first render: `useState(null)` and `useState(1)`. */
    constructor (store: LocalStorage, router: Router, json: JsonCodec)
      ensures user == JNull && freeUsesLeft == Num(INITIAL_FREE_USES)
      ensures this.store == store && this.router == router && this.json == json
    {
      user := JNull;
      freeUsesLeft := Num(INITIAL_FREE_USES);
      this.store := store;
      this.router := router;
      this.json := json;
    }

    /** `isAuthenticated: !!user` (line 64). */
    predicate IsAuthenticated()
      reads this
    {
      Truthy(user)
    }

    /** The mount effect (lines 28-34); `crashed` when `JSON.parse` throws and the effect stops. */
    method Mount() returns (crashed: bool)
      modifies this`user, this`freeUsesLeft
      ensures var m := Mounted(store.items, json.parse, Session(old(user), old(freeUsesLeft)));
              && crashed == m.Failure?
              && (m.Success? ==> user == m.value.user && freeUsesLeft == m.value.freeUsesLeft)
              && (m.Failure? ==> user == old(user) && freeUsesLeft == old(freeUsesLeft))
    {
      var storedUser := store.GetItem(STORAGE_KEY_USER);
      var storedUses := store.GetItem(STORAGE_KEY_FREE_USES);
      crashed := false;
      if storedUser.Some? && storedUser.value != "" {
        var parsed := json.parse(storedUser.value);
        if parsed.None? {
          crashed := true;
          return;
        }
        user := parsed.value;
      }
      if storedUses.Some? && storedUses.value != "" {
        freeUsesLeft := ParseInt(storedUses.value);
      }
    }

    /** `login(email)` (lines 36-41): the new user in state and in storage, then off to the chat. */
    method Login(email: string)
      modifies this`user, store, router
      ensures user == NewUser(email) && IsAuthenticated()
      ensures freeUsesLeft == old(freeUsesLeft)
      ensures store.items == old(store.items)[STORAGE_KEY_USER := json.stringify(NewUser(email))]
      ensures router.pushed == old(router.pushed) + [CHAT_PATH]
    {
      var newUser := NewUser(email);
      user := newUser;
      store.SetItem(STORAGE_KEY_USER, json.stringify(newUser));
      router.Push(CHAT_PATH);
    }

    /** `logout()` (lines 43-47): no user in state or storage, then home; the counter is kept. */
    method Logout()
      modifies this`user, store, router
      ensures user == JNull && !IsAuthenticated()
      ensures freeUsesLeft == old(freeUsesLeft)
      ensures store.items == old(store.items) - {STORAGE_KEY_USER}
      ensures router.pushed == old(router.pushed) + [HOME_PATH]
    {
      user := JNull;
      store.RemoveItem(STORAGE_KEY_USER);
      router.Push(HOME_PATH);
    }

    /**
     * `decrementFreeUse()` (lines 49-55): a positive count goes down by one and
     * is stored with `toString`; any other count, NaN included, changes nothing.
     */
    method DecrementFreeUse()
      modifies this`freeUsesLeft, store
      ensures freeUsesLeft == AfterDecrement(old(freeUsesLeft))
      ensures Positive(old(freeUsesLeft)) ==>
                store.items == old(store.items)[STORAGE_KEY_FREE_USES := IntToString(freeUsesLeft.value)]
      ensures !Positive(old(freeUsesLeft)) ==> store.items == old(store.items)
    {
      if freeUsesLeft.Num? && freeUsesLeft.value > 0 {
        var newCount := freeUsesLeft.value - 1;
        freeUsesLeft := Num(newCount);
        store.SetItem(STORAGE_KEY_FREE_USES, IntToString(newCount));
      }
    }
  }
}
