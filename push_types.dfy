/**
  * Values exchanged with the Push Protocol SDK.
  *
  * The hooks build plain JavaScript object literals and merge them with object spread, so requests and
  * envelopes are modelled as JavaScript values: an object is a map from property names to values, and a
  * property that is absent reads as `undefined`.
  */
module PushTypes {
  import opened Wrappers

  /** The `MessageType` strings of the SDK that this client names. */
  const TEXT := "Text"
  const REACTION := "Reaction"
  const REPLY := "Reply"

  /** The fields of the SDK's `IMessageIPFS` that the client reads; `link` is `null` when absent. */
  datatype ChatMessage = ChatMessage(
    fromDID: string,
    toDID: string,
    messageType: string,
    messageContent: string,
    timestamp: Option<int>,
    link: Option<string>)

  datatype Value =
    | Undefined
    | Null
    | Str(s: string)
    | Num(n: int)
    | Bool(b: bool)
      /** An object the client passes along but never inspects (wallet signer, connected profile). */
    | Handle(id: nat)
      /** A chat message handed to the SDK as it is. */
    | Msg(ipfs: ChatMessage)
      /** `new Error(errorMessage)`. */
    | ErrorObj(errorMessage: string)
    | Arr(items: seq<Value>)
    | Obj(fields: map<string, Value>)

  /** The own properties of a value; a non-object has none. */
  function Fields(v: Value): map<string, Value>
  {
    if v.Obj? then v.fields else map[]
  }

  function Keys(v: Value): set<string>
  {
    Fields(v).Keys
  }

  /** Property access `v[key]`: a missing property reads as `undefined`. */
  function Get(v: Value, key: string): Value
  {
    if key in Fields(v) then Fields(v)[key] else Undefined
  }

  /** Nested property access `v[path[0]][path[1]]...`. */
  function At(v: Value, path: seq<string>): Value
    decreases |path|
  {
    if path == [] then v else At(Get(v, path[0]), path[1..])
  }

  /** Object spread `{...a, ...b}`: every property of both, and `b` wins where both have one. */
  function Spread(a: map<string, Value>, b: map<string, Value>): (r: map<string, Value>)
    ensures r.Keys == a.Keys + b.Keys
    ensures forall k :: k in b ==> r[k] == b[k]
    ensures forall k :: k in a && k !in b ==> r[k] == a[k]
  {
    a + b
  }
}
