/** The request plumbing every resource client inherits: the descriptor of one
    HTTP call (verb, API version, controller path, optional JSON body) and the
    body serializer run with null values ignored. The transport that turns a
    descriptor into a network call is not part of this model. */
module RebillyRequest {
  import opened Wrappers

  /** The API version every v2.1 resource client sets at construction. */
  const ApiVersion: string := "v2.1"

  /** The three verbs the clients send. */
  datatype Verb = Get | Post | Put

  /** A JSON object body, as its set of keys and their (string) values; key
      order and indentation are not modelled. */
  type Body = map<string, string>

  /** One emitted request: what `sendGetRequest`, `sendPostRequest` or
      `sendPutRequest` would be called with. GET carries no body. */
  datatype Request = Request(verb: Verb, version: string, controller: string, body: Option<Body>)

  /** Why an operation refused to run. The exception message text is not modelled. */
  datatype Error = MissingId

  /** A successful operation: the client's state afterwards and the one request it emitted. */
  datatype Outcome<S> = Outcome(state: S, request: Request)

  /** The text a nullable string contributes to a C# string concatenation:
      `null` concatenates as the empty string. */
  function AsText(s: Option<string>): (t: string)
    ensures s.None? ==> t == ""
    ensures s.Some? ==> t == s.value
  {
    match s
    case None => ""
    case Some(v) => v
  }

  /** `String.IsNullOrEmpty`: true exactly for the strings that contribute
      nothing to a concatenation. */
  predicate IsNullOrEmpty(s: Option<string>)
    ensures IsNullOrEmpty(s) <==> AsText(s) == ""
  {
    s.None? || s.value == ""
  }

  /** One public field of a resource object: its JSON key and its nullable value. */
  datatype Field = Field(name: string, value: Option<string>)

  /** No two fields share a name, as the fields of one C# class cannot. */
  ghost predicate DistinctNames(fields: seq<Field>) {
    forall i, j :: 0 <= i < j < |fields| ==> fields[i].name != fields[j].name
  }

  /** The names of the fields that are set (non-null). */
  ghost function SetNames(fields: seq<Field>): set<string> {
    set i | 0 <= i < |fields| && fields[i].value.Some? :: fields[i].name
  }

  /** The field names, in declaration order. */
  function Names(fields: seq<Field>): (ns: seq<string>)
    ensures |ns| == |fields|
    ensures forall i :: 0 <= i < |fields| ==> ns[i] == fields[i].name
  {
    if |fields| == 0 then [] else [fields[0].name] + Names(fields[1..])
  }

  /** `JsonConvert.SerializeObject` with `NullValueHandling.Ignore`: one key per
      non-null field, carrying its value unchanged; null fields are omitted. */
  function Serialize(fields: seq<Field>): (b: Body)
    requires DistinctNames(fields)
    ensures b.Keys == SetNames(fields)
    ensures forall i :: 0 <= i < |fields| && fields[i].value.Some? ==>
              b[fields[i].name] == fields[i].value.value
    ensures forall i :: 0 <= i < |fields| && fields[i].value.None? ==>
              fields[i].name !in b
  {
    if |fields| == 0 then map[]
    else
      var rest := Serialize(fields[1..]);
      assert SetNames(fields[1..]) == set i | 1 <= i < |fields| && fields[i].value.Some? :: fields[i].name;
      match fields[0].value
      case None =>
        rest
      case Some(v) =>
        rest[fields[0].name := v]
  }

  /** Reading a body back into the named fields, as deserialization with null
      values ignored does: a missing key leaves its field null. */
  function Parse(names: seq<string>, b: Body): (fields: seq<Field>)
    ensures |fields| == |names|
    ensures forall i :: 0 <= i < |names| ==> fields[i].name == names[i]
    ensures forall i :: 0 <= i < |names| ==>
              (fields[i].value.Some? <==> names[i] in b)
    ensures forall i :: 0 <= i < |names| && names[i] in b ==>
              fields[i].value.value == b[names[i]]
  {
    if |names| == 0 then []
    else
      var v := if names[0] in b then Some(b[names[0]]) else None;
      [Field(names[0], v)] + Parse(names[1..], b)
  }

  /** Serializing and reading back restores every field, nulls included. */
  lemma {:induction false} ParseSerialize(fields: seq<Field>)
    requires DistinctNames(fields)
    ensures Parse(Names(fields), Serialize(fields)) == fields
  {
    var b := Serialize(fields);
    var back := Parse(Names(fields), b);
    forall i | 0 <= i < |fields|
      ensures back[i] == fields[i]
    {
    }
  }

  /** Reading a body and serializing the result keeps exactly the keys that
      name a field. */
  lemma {:induction false} SerializeParse(names: seq<string>, b: Body)
    requires forall i, j :: 0 <= i < j < |names| ==> names[i] != names[j]
    ensures DistinctNames(Parse(names, b))
    ensures Serialize(Parse(names, b)) == map k | k in b && k in names :: b[k]
  {
    var fields := Parse(names, b);
    var s := Serialize(fields);
    forall k | k in b && k in names
      ensures k in s && s[k] == b[k]
    {
      var i :| 0 <= i < |names| && names[i] == k;
      assert fields[i].value.Some?;
    }
    forall k | k in s
      ensures k in b && k in names
    {
      assert k in SetNames(fields);
      var i :| 0 <= i < |fields| && fields[i].value.Some? && fields[i].name == k;
    }
  }
}
