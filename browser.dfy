/** The browser facilities both front ends use: local storage, the router, the webhook call and JSON text. */
module Browser {
  import opened Wrappers
  import opened JsValues

  /** `window.localStorage`: string values under string keys, kept across reloads. */
  class LocalStorage {
    var items: map<string, string>

    constructor (initial: map<string, string>)
      ensures items == initial
    {
      items := initial;
    }

    /** `getItem(key)`: None stands for `null`. */
    function GetItem(key: string): Option<string>
      reads this
    {
      ItemOf(items, key)
    }

    method SetItem(key: string, value: string)
      modifies this
      ensures items == old(items)[key := value]
    {
      items := items[key := value];
    }

    method RemoveItem(key: string)
      modifies this
      ensures items == old(items) - {key}
    {
      items := items - {key};
    }
  }

  /** The value `getItem(key)` reads from the stored `items`: None stands for `null`. */
  function ItemOf(items: map<string, string>, key: string): Option<string>
  {
    if key in items then Some(items[key]) else None
  }

  /** After `setItem(key, value)` the key reads back `value`, and every other key reads as before. */
  lemma ItemAfterSet(items: map<string, string>, key: string, value: string, other: string)
    ensures ItemOf(items[key := value], key) == Some(value)
    ensures other != key ==> ItemOf(items[key := value], other) == ItemOf(items, other)
  {
  }

  /** After `removeItem(key)` the key reads as `null`, and every other key reads as before. */
  lemma ItemAfterRemove(items: map<string, string>, key: string, other: string)
    ensures ItemOf(items - {key}, key) == None
    ensures other != key ==> ItemOf(items - {key}, other) == ItemOf(items, other)
  {
  }

  /** The Next.js router, reduced to the paths pushed onto it. */
  class Router {
    var pushed: seq<string>

    constructor ()
      ensures pushed == []
    {
      pushed := [];
    }

    method Push(path: string)
      modifies this
      ensures pushed == old(pushed) + [path]
    {
      pushed := pushed + [path];
    }
  }

  /** The JSON body `{input, sessionId}` POSTed to the agent webhook. */
  datatype Request = Request(input: string, sessionId: string)

  /**
   * How a `fetch` of the webhook settles: the promise rejects, or a response
   * arrives with its `ok` flag and its body, which `response.json()` decodes
   * (None: the body is not JSON and `json()` rejects).
   */
  datatype FetchOutcome = NetworkError | Response(ok: bool, body: Option<Json>)

  /** `JSON.parse` (None: it throws a SyntaxError) and `JSON.stringify`, both platform code. */
  datatype JsonCodec = JsonCodec(parse: string -> Option<Json>, stringify: Json -> string)
}
