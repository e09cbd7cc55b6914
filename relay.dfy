/**
 * The relay (the Notecard) as the controller sees it: requests are J* objects
 * built from a name and fields, and every request handed to the relay is
 * appended to a log. Responses are J* objects of the same shape.
 */
module Relay {
  import opened Wrappers

  /** A J* (cJSON) value. `OptStr` is a string item built from a pointer that may be null. */
  datatype Value =
    | Null
    | Bool(b: bool)
    | Int(i: int)
    | Num(x: real)
    | Str(s: string)
    | OptStr(o: Option<string>)
    | Arr(items: seq<Value>)
    | Obj(members: seq<Field>)

  datatype Field = Field(key: string, value: Value)

  /** newRequest (a reply is expected) or newCommand (no reply). */
  datatype Kind = Request | Command

  /** sendRequest, sendRequestWithRetry(req, seconds) or requestAndResponse. */
  datatype Via = Send | SendWithRetry(seconds: nat) | Transact

  /** One entry of the relay log. `EnvFetch` stands for the environment variable manager's fetch. */
  datatype Emitted =
    | Sent(kind: Kind, name: string, fields: seq<Field>, via: Via)
    | EnvFetch(vars: seq<string>)

  /** The value of the first member of `ms` whose key is `key`. */
  function FirstMember(ms: seq<Field>, key: string): (r: Option<Value>)
    ensures r.None? <==> forall j :: 0 <= j < |ms| ==> ms[j].key != key
    ensures r.Some? ==> exists j :: 0 <= j < |ms| && ms[j] == Field(key, r.value) &&
                                    forall i :: 0 <= i < j ==> ms[i].key != key
  {
    if ms == [] then None
    else if ms[0].key == key then Some(ms[0].value)
    else
      var r := FirstMember(ms[1..], key);
      assert forall j :: 1 <= j < |ms| ==> ms[j] == ms[1..][j - 1];
      r
  }

  /** JGetObjectItem(v, key): an object's first member with that key; nothing for any other value. */
  function Member(v: Value, key: string): (r: Option<Value>)
    ensures !v.Obj? ==> r.None?
  {
    if v.Obj? then FirstMember(v.members, key) else None
  }

  /**
   * JGetArrayItem(v, i): the i-th child. As in cJSON, the children of an
   * object are its members, so an object answers too.
   */
  function Item(v: Value, i: nat): (r: Option<Value>)
    ensures v.Arr? ==> (r.Some? <==> i < |v.items|)
    ensures v.Arr? && i < |v.items| ==> r == Some(v.items[i])
    ensures v.Obj? && i < |v.members| ==> r == Some(v.members[i].value)
    ensures r.Some? ==> v.Arr? || v.Obj?
  {
    match v
    case Arr(items) => if i < |items| then Some(items[i]) else None
    case Obj(members) => if i < |members| then Some(members[i].value) else None
    case _ => None
  }

  /** One step into a response tree: an object key or an array position. */
  datatype Step = Key(k: string) | Index(i: nat)

  /** Reference navigation: a key selects an object member, an index selects an array element only. */
  function At(v: Value, path: seq<Step>): (r: Option<Value>)
    decreases |path|
  {
    if path == [] then Some(v)
    else match path[0]
      case Key(k) =>
        (match Member(v, k)
         case None => None
         case Some(w) => At(w, path[1..]))
      case Index(i) =>
        if v.Arr? && i < |v.items| then At(v.items[i], path[1..]) else None
  }
}
