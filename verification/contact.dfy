/** The v2.1 contact client: a contact record (ten nullable strings), its
    private id, and the controller path it last set. Each operation validates
    the id where the client checks it, rewrites the controller, and emits one
    request; a thrown exception is a `Failure`, which leaves the caller's
    contact exactly as it was. */
module Contacts {
  import opened Wrappers
  import opened RebillyRequest

  /** The controller every contact starts from. */
  const EndPoint: string := "contacts/"

  /** The contact's public data fields; `None` is a field left null. */
  datatype Data = Data(
    firstName: Option<string>,
    lastName: Option<string>,
    organization: Option<string>,
    address: Option<string>,
    address2: Option<string>,
    city: Option<string>,
    region: Option<string>,
    country: Option<string>,
    phoneNumber: Option<string>,
    postalCode: Option<string>)

  /** Every field as a freshly constructed contact has it: null. */
  const NoData: Data := Data(None, None, None, None, None, None, None, None, None, None)

  /** A contact client: the private id, the API version and controller it
      set, and its data fields. */
  datatype Contact = Contact(id: Option<string>, version: string, controller: string, data: Data)

  /** The JSON keys of a contact body. `FieldNamesAgree` proves that they
      are exactly the names `Fields` lists. */
  const FieldNames: set<string> := {
    "firstName", "lastName", "organization", "address", "address2",
    "city", "region", "country", "phoneNumber", "postalCode" }

  /** The public fields in declaration order, as the serializer walks them. */
  function Fields(d: Data): (fs: seq<Field>)
    ensures |fs| == 10
    ensures DistinctNames(fs)
    ensures forall i :: 0 <= i < |fs| ==> fs[i].name in FieldNames
  {
    [ Field("firstName", d.firstName),
      Field("lastName", d.lastName),
      Field("organization", d.organization),
      Field("address", d.address),
      Field("address2", d.address2),
      Field("city", d.city),
      Field("region", d.region),
      Field("country", d.country),
      Field("phoneNumber", d.phoneNumber),
      Field("postalCode", d.postalCode) ]
  }

  /** The listed fields are named by exactly the keys in `FieldNames`,
      whatever the data. */
  lemma FieldNamesAgree(d: Data)
    ensures FieldNames == set i | 0 <= i < |Fields(d)| :: Fields(d)[i].name
  {
    var fs := Fields(d);
    var listed := set i | 0 <= i < |fs| :: fs[i].name;
    assert fs[0].name == "firstName" && fs[1].name == "lastName" && fs[2].name == "organization"
      && fs[3].name == "address" && fs[4].name == "address2" && fs[5].name == "city"
      && fs[6].name == "region" && fs[7].name == "country" && fs[8].name == "phoneNumber"
      && fs[9].name == "postalCode";
    assert FieldNames <= listed;
  }

  /** Key `name` is present in `b` exactly when the field is set, and then
      carries the field's value. */
  ghost predicate Carries(b: Body, name: string, v: Option<string>) {
    (name in b <==> v.Some?) && (v.Some? ==> b[name] == v.value)
  }

  /** `b` is the null-omitting JSON object of `d`, field by field. */
  ghost predicate IsBodyOf(b: Body, d: Data) {
    && b.Keys <= FieldNames
    && Carries(b, "firstName", d.firstName)
    && Carries(b, "lastName", d.lastName)
    && Carries(b, "organization", d.organization)
    && Carries(b, "address", d.address)
    && Carries(b, "address2", d.address2)
    && Carries(b, "city", d.city)
    && Carries(b, "region", d.region)
    && Carries(b, "country", d.country)
    && Carries(b, "phoneNumber", d.phoneNumber)
    && Carries(b, "postalCode", d.postalCode)
  }

  /** At most one body matches a contact's data. */
  lemma BodyOfUnique(b1: Body, b2: Body, d: Data)
    requires IsBodyOf(b1, d) && IsBodyOf(b2, d)
    ensures b1 == b2
  {
    forall k | k in b1 ensures k in b2 && b1[k] == b2[k] {
      assert k in FieldNames;
    }
    forall k | k in b2 ensures k in b1 {
      assert k in FieldNames;
    }
  }

  /** `buildRequest`: the contact serialized with null values ignored. */
  function Body(d: Data): (b: Body)
    ensures IsBodyOf(b, d)
  {
    var fs := Fields(d);
    var b := Serialize(fs);
    assert forall k :: k in b ==> k in FieldNames by {
      forall k | k in b ensures k in FieldNames {
        assert k in SetNames(fs);
      }
    }
    assert fs[0].name == "firstName" && fs[1].name == "lastName" && fs[2].name == "organization"
      && fs[3].name == "address" && fs[4].name == "address2" && fs[5].name == "city"
      && fs[6].name == "region" && fs[7].name == "country" && fs[8].name == "phoneNumber"
      && fs[9].name == "postalCode";
    b
  }

  /** The state every contact operation keeps: version "v2.1", an id that is
      null or non-empty, and a controller under "contacts/". */
  ghost predicate Valid(c: Contact) {
    && c.version == ApiVersion
    && (c.id.None? || c.id.value != "")
    && |EndPoint| <= |c.controller| && c.controller[..|EndPoint|] == EndPoint
  }

  /** The constructor: keeps the id only when it is neither null nor empty,
      sets version "v2.1" and controller "contacts/"; all fields start null. */
  function New(id: Option<string>): (c: Contact)
    ensures c.id == (if IsNullOrEmpty(id) then None else id)
    ensures c.version == "v2.1" && c.controller == "contacts/"
    ensures c.data == NoData
    ensures Valid(c)
  {
    Contact(if IsNullOrEmpty(id) then None else id, ApiVersion, EndPoint, NoData)
  }

  /** `create`: no id check; one POST of the body to the current controller. */
  function Create(c: Contact): (r: Result<Outcome<Contact>, Error>)
    ensures r.Success?
    ensures r.value.state == c
    ensures r.value.request.verb == Post
    ensures r.value.request.version == c.version
    ensures r.value.request.controller == c.controller
    ensures r.value.request.body.Some? && IsBodyOf(r.value.request.body.value, c.data)
  {
    Success(Outcome(c, Request(Post, c.version, c.controller, Some(Body(c.data)))))
  }

  /** `update`: fails on a null or empty id before touching anything;
      otherwise sets the controller to "contacts/" + id and emits one PUT of
      the body there. */
  function Update(c: Contact): (r: Result<Outcome<Contact>, Error>)
    ensures r.Failure? <==> c.id.None? || c.id.value == ""
    ensures r.Success? ==>
      && r.value.state == c.(controller := "contacts/" + c.id.value)
      && r.value.request.verb == Put
      && r.value.request.version == c.version
      && r.value.request.controller == "contacts/" + c.id.value
      && r.value.request.body.Some? && IsBodyOf(r.value.request.body.value, c.data)
  {
    if IsNullOrEmpty(c.id) then Failure(MissingId)
    else
      var controller := EndPoint + c.id.value;
      Success(Outcome(c.(controller := controller),
                      Request(Put, c.version, controller, Some(Body(c.data)))))
  }

  /** `retrieve`: fails on a null or empty id before touching anything;
      otherwise sets the controller to "contacts/" + id and emits one GET
      without a body there. */
  function Retrieve(c: Contact): (r: Result<Outcome<Contact>, Error>)
    ensures r.Failure? <==> c.id.None? || c.id.value == ""
    ensures r.Success? ==>
      && r.value.state == c.(controller := "contacts/" + c.id.value)
      && r.value.request == Request(Get, c.version, "contacts/" + c.id.value, None)
  {
    if IsNullOrEmpty(c.id) then Failure(MissingId)
    else
      var controller := EndPoint + c.id.value;
      Success(Outcome(c.(controller := controller), Request(Get, c.version, controller, None)))
  }

  /** `listAll`: no id check; one GET without a body to whatever controller
      the contact currently holds, which it leaves as it is. */
  function ListAll(c: Contact): (r: Result<Outcome<Contact>, Error>)
    ensures r.Success?
    ensures r.value.state == c
    ensures r.value.request == Request(Get, c.version, c.controller, None)
  {
    Success(Outcome(c, Request(Get, c.version, c.controller, None)))
  }

  /** The contact operations a caller can invoke. */
  datatype Op = CreateOp | UpdateOp | RetrieveOp | ListAllOp

  /** The operations that check the id before doing anything. */
  predicate NeedsId(op: Op) {
    op == UpdateOp || op == RetrieveOp
  }

  /** Dispatch to one operation; only the id-checking ones can fail, and
      they fail exactly on a null or empty id. */
  function Call(c: Contact, op: Op): (r: Result<Outcome<Contact>, Error>)
    ensures r.Failure? <==> NeedsId(op) && IsNullOrEmpty(c.id)
    ensures r.Success? ==>
      r.value.state == c.(controller := if NeedsId(op) then EndPoint + c.id.value else c.controller)
  {
    match op
    case CreateOp => Create(c)
    case UpdateOp => Update(c)
    case RetrieveOp => Retrieve(c)
    case ListAllOp => ListAll(c)
  }

  /** No operation touches the id or the data fields; every successful one
      keeps the client valid and sends its request with the client's version
      to the controller it leaves behind. */
  lemma CallPreserves(c: Contact, op: Op)
    requires Valid(c)
    ensures Call(c, op).Success? ==>
      var o := Call(c, op).value;
      && o.state.id == c.id
      && o.state.data == c.data
      && Valid(o.state)
      && o.request.version == ApiVersion
      && o.request.controller == o.state.controller
  {
    match op
    case UpdateOp =>
      if Update(c).Success? {
        var ctl := Update(c).value.state.controller;
        assert ctl[..|EndPoint|] == EndPoint;
      }
    case RetrieveOp =>
      if Retrieve(c).Success? {
        var ctl := Retrieve(c).value.state.controller;
        assert ctl[..|EndPoint|] == EndPoint;
      }
    case _ =>
  }

  /** A caller's sequence of calls on one contact: each call runs on the state
      the previous one left, and the first exception ends the sequence. */
  datatype Trace = Trace(state: Contact, sent: seq<Request>, failed: bool)

  function Run(c: Contact, ops: seq<Op>): (t: Trace)
    ensures |t.sent| <= |ops|
    ensures !t.failed ==> |t.sent| == |ops|
    ensures t.failed ==> |t.sent| < |ops| && NeedsId(ops[|t.sent|]) && IsNullOrEmpty(t.state.id)
    decreases |ops|
  {
    if |ops| == 0 then Trace(c, [], false)
    else
      match Call(c, ops[0])
      case Failure(_) => Trace(c, [], true)
      case Success(o) =>
        var t := Run(o.state, ops[1..]);
        assert t.failed ==> ops[1..][|t.sent|] == ops[|t.sent| + 1];
        assert t.failed ==> |[o.request] + t.sent| == |t.sent| + 1;
        Trace(t.state, [o.request] + t.sent, t.failed)
  }

  /** Over any sequence of calls the id, the data and validity persist, and
      every request sent carries version "v2.1". */
  lemma {:induction false} RunKeeps(c: Contact, ops: seq<Op>)
    requires Valid(c)
    ensures Run(c, ops).state.id == c.id && Run(c, ops).state.data == c.data
    ensures Valid(Run(c, ops).state)
    ensures forall r :: r in Run(c, ops).sent ==> r.version == ApiVersion
    decreases |ops|
  {
    if |ops| > 0 {
      CallPreserves(c, ops[0]);
      if Call(c, ops[0]).Success? {
        RunKeeps(Call(c, ops[0]).value.state, ops[1..]);
      }
    }
  }

  /** A sequence of calls fails exactly when the id is missing and some call
      needs it. */
  lemma {:induction false} RunFails(c: Contact, ops: seq<Op>)
    ensures Run(c, ops).failed <==>
              IsNullOrEmpty(c.id) && exists i :: 0 <= i < |ops| && NeedsId(ops[i])
    decreases |ops|
  {
    if |ops| > 0 {
      var rest := ops[1..];
      var r := Call(c, ops[0]);
      if r.Success? {
        var o := r.value;
        assert o.state.id == c.id;
        RunFails(o.state, rest);
        assert Run(c, ops).failed == Run(o.state, rest).failed;
        if !NeedsId(ops[0]) && exists i :: 0 <= i < |ops| && NeedsId(ops[i]) {
          var i :| 0 <= i < |ops| && NeedsId(ops[i]);
          assert NeedsId(rest[i - 1]);
        }
        if exists i :: 0 <= i < |rest| && NeedsId(rest[i]) {
          var i :| 0 <= i < |rest| && NeedsId(rest[i]);
          assert NeedsId(ops[i + 1]);
        }
      } else {
        assert NeedsId(ops[0]);
      }
    }
  }

  /** A failing sequence of calls sends the request of every call before
      the first one that needs the missing id, and nothing from that call on. */
  lemma {:induction false} RunFailsAtFirst(c: Contact, ops: seq<Op>)
    ensures Run(c, ops).failed ==>
              forall i :: 0 <= i < |Run(c, ops).sent| ==> !NeedsId(ops[i])
    decreases |ops|
  {
    if |ops| > 0 {
      var r := Call(c, ops[0]);
      if r.Success? {
        var o := r.value;
        RunFailsAtFirst(o.state, ops[1..]);
        assert o.state.id == c.id;
        RunFails(o.state, ops[1..]);
        var t := Run(o.state, ops[1..]);
        assert Run(c, ops).sent == [o.request] + t.sent;
        assert forall i :: 1 <= i < |ops| ==> ops[i] == ops[1..][i - 1];
      }
    }
  }

  /** With an id, a sequence of calls leaves the controller at
      "contacts/" + id once any update or retrieve has run, and where it was
      otherwise. */
  lemma {:induction false} RunController(c: Contact, ops: seq<Op>)
    requires Valid(c) && c.id.Some?
    ensures Run(c, ops).state.controller ==
              if exists i :: 0 <= i < |ops| && NeedsId(ops[i])
              then "contacts/" + c.id.value else c.controller
    decreases |ops|
  {
    if |ops| > 0 {
      CallPreserves(c, ops[0]);
      var o := Call(c, ops[0]).value;
      RunController(o.state, ops[1..]);
      assert forall i :: 1 <= i < |ops| ==> ops[i] == ops[1..][i - 1];
      if NeedsId(ops[0]) {
        assert o.state.controller == "contacts/" + c.id.value;
      }
    }
  }

  /** After a successful update or retrieve the controller stays at
      "contacts/" + id: a following `listAll` lists that path and a following
      `create` posts to it. */
  lemma ControllerPersists(c: Contact, op: Op)
    requires NeedsId(op) && Call(c, op).Success?
    ensures ListAll(Call(c, op).value.state).value.request.controller == "contacts/" + c.id.value
    ensures Create(Call(c, op).value.state).value.request.controller == "contacts/" + c.id.value
  {
  }

  /** On a freshly constructed contact, `listAll` lists the bare collection. */
  lemma FreshListAll(id: Option<string>)
    ensures ListAll(New(id)).value.request == Request(Get, "v2.1", "contacts/", None)
  {
  }

  /** A contact constructed without an id (null or empty) cannot be updated
      or retrieved, and nothing is sent. */
  lemma NoIdRejected(id: Option<string>)
    requires IsNullOrEmpty(id)
    ensures Update(New(id)).Failure? && Retrieve(New(id)).Failure?
    ensures Run(New(id), [RetrieveOp]).sent == []
  {
  }

  /** A contact with only a first and a last name creates with exactly those
      two keys, posted to "contacts/" under version "v2.1". */
  lemma CreateJohnDoe()
    ensures
      var c := New(None).(data := NoData.(firstName := Some("John"), lastName := Some("Doe")));
      Create(c).value.request ==
        Request(Post, "v2.1", "contacts/", Some(map["firstName" := "John", "lastName" := "Doe"]))
  {
    var d := NoData.(firstName := Some("John"), lastName := Some("Doe"));
    BodyOfUnique(Body(d), map["firstName" := "John", "lastName" := "Doe"], d);
  }
}
