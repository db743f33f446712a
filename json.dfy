/** A parsed JSON document and the `System.Text.Json.JsonElement` accessors the realtime
    decoder uses. Parsing itself is not modelled: callers receive the parse result. */
module Json {
  import opened Wrappers

  datatype Json =
    | JNull
    | JBool(b: bool)
    | JNumber(literal: string)
    | JString(s: string)
    | JArray(items: seq<Json>)
    | JObject(members: seq<(string, Json)>)

  /** The exceptions the accessors throw: `InvalidOperationException` for a value of the
      wrong kind, `KeyNotFoundException` for a missing property. */
  datatype AccessError = NotAnObject | KeyNotFound(name: string) | NotAString

  /** The value of the last member called `name` (JsonDocument searches an object's
      members from the end, so a repeated name yields its last occurrence). */
  function LastMember(members: seq<(string, Json)>, name: string): (r: Option<Json>)
    ensures r.None? <==> forall i :: 0 <= i < |members| ==> members[i].0 != name
    ensures r.Some? ==> exists i :: 0 <= i < |members| && members[i] == (name, r.value)
                                    && forall j :: i < j < |members| ==> members[j].0 != name
  {
    if members == [] then None
    else if members[|members| - 1].0 == name then
      assert members[|members| - 1] == (name, members[|members| - 1].1);
      Some(members[|members| - 1].1)
    else
      var r := LastMember(members[..|members| - 1], name);
      if r.Some? then
        var init := members[..|members| - 1];
        var i :| 0 <= i < |init| && init[i] == (name, r.value)
                 && forall j :: i < j < |init| ==> init[j].0 != name;
        assert members[i] == (name, r.value);
        assert forall j :: i < j < |members| ==> members[j].0 != name by {
          forall j | i < j < |members|
            ensures members[j].0 != name
          {
            if j < |init| { assert init[j] == members[j]; }
          }
        }
        r
      else
        r
  }

  /** No two members share a name. */
  predicate DistinctNames(members: seq<(string, Json)>)
  {
    forall i, j :: 0 <= i < j < |members| ==> members[i].0 != members[j].0
  }

  /** Where names are distinct, every member is found under its own name. */
  lemma {:induction false} LastMemberOfDistinct(members: seq<(string, Json)>, i: int)
    requires DistinctNames(members) && 0 <= i < |members|
    ensures LastMember(members, members[i].0) == Some(members[i].1)
  {
    if i < |members| - 1 {
      var init := members[..|members| - 1];
      assert members[|members| - 1].0 != members[i].0;
      assert init[i] == members[i];
      LastMemberOfDistinct(init, i);
    }
  }

  /** `JsonElement.GetProperty(name)`: a member's value when the object has one of that name,
      `KeyNotFoundException` when it has none, `InvalidOperationException` on a non-object. */
  function GetProperty(e: Json, name: string): (r: Result<Json, AccessError>)
    ensures !e.JObject? ==> r == Failure(NotAnObject)
    ensures e.JObject? ==> r == (if LastMember(e.members, name).Some? then Success(LastMember(e.members, name).value)
                                 else Failure(KeyNotFound(name)))
  {
    match e
    case JObject(ms) =>
      (match LastMember(ms, name)
       case Some(v) => Success(v)
       case None => Failure(KeyNotFound(name)))
    case _ => Failure(NotAnObject)
  }

  /** `JsonElement.TryGetProperty(name, out value)`: `None` when absent; throws on a non-object. */
  function TryGetProperty(e: Json, name: string): (r: Result<Option<Json>, AccessError>)
    ensures r.Success? <==> e.JObject?
    ensures r.Success? ==> r.value == LastMember(e.members, name)
    ensures r.Success? && r.value.Some? ==> GetProperty(e, name) == Success(r.value.value)
  {
    match e
    case JObject(ms) => Success(LastMember(ms, name))
    case _ => Failure(NotAnObject)
  }

  /** `JsonElement.GetString()`: the text of a string, `None` (C# null) for JSON null,
      and an exception for any other kind. */
  function GetString(e: Json): (r: Result<Option<string>, AccessError>)
    ensures r.Failure? <==> !(e.JString? || e.JNull?)
    ensures r.Success? ==> (r.value.None? <==> e == JNull) && (r.value.Some? ==> e == JString(r.value.value))
  {
    match e
    case JString(s) => Success(Some(s))
    case JNull => Success(None)
    case _ => Failure(NotAString)
  }

  /** Follows a path of property names with GetProperty; `None` where a step throws. */
  function At(e: Json, path: seq<string>): Option<Json>
    decreases |path|
  {
    if path == [] then Some(e)
    else
      match GetProperty(e, path[0])
      case Success(child) => At(child, path[1..])
      case Failure(_) => None
  }

  /** The member names of an object, in order. */
  function Names(e: Json): seq<string>
  {
    match e
    case JObject(ms) => seq(|ms|, i requires 0 <= i < |ms| => ms[i].0)
    case _ => []
  }
}
