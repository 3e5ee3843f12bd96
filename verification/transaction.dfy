/** The v2.1 transaction client: a nullable amount, the private id, and the
    controller path it last set. `refund` checks the id; `retrieve`, unlike
    the contact client's, does not. */
module Transactions {
  import opened Wrappers
  import opened RebillyRequest

  /** The controller every transaction starts from. */
  const EndPoint: string := "transactions/"

  /** The action suffix a refund appends to the transaction's path. */
  const RefundSuffix: string := "/refund/"

  /** A transaction client: the private id, the API version and controller
      it set, and the public `amount` field. */
  datatype Transaction = Transaction(id: Option<string>, version: string, controller: string, amount: Option<string>)

  /** `buildRequest`: the one public field, serialized with null values
      ignored. An unset amount gives the empty object. */
  function Body(t: Transaction): (b: Body)
    ensures "amount" in b <==> t.amount.Some?
    ensures t.amount.Some? ==> b["amount"] == t.amount.value
    ensures b.Keys <= {"amount"}
  {
    var fs := [Field("amount", t.amount)];
    var b := Serialize(fs);
    assert SetNames(fs) <= {"amount"};
    b
  }

  /** The state every transaction operation keeps: version "v2.1", an id
      that is null or non-empty, and a controller under "transactions/". */
  ghost predicate Valid(t: Transaction) {
    && t.version == ApiVersion
    && (t.id.None? || t.id.value != "")
    && |EndPoint| <= |t.controller| && t.controller[..|EndPoint|] == EndPoint
  }

  /** The constructor: keeps the id only when it is neither null nor empty,
      sets controller "transactions/" and version "v2.1"; the amount starts null. */
  function New(id: Option<string>): (t: Transaction)
    ensures t.id == (if IsNullOrEmpty(id) then None else id)
    ensures t.version == "v2.1" && t.controller == "transactions/"
    ensures t.amount.None?
    ensures Valid(t)
  {
    Transaction(if IsNullOrEmpty(id) then None else id, ApiVersion, EndPoint, None)
  }

  /** `refund`: fails on a null or empty id before touching anything;
      otherwise sets the controller to "transactions/" + id + "/refund/" and
      emits one POST of the body there. */
  function Refund(t: Transaction): (r: Result<Outcome<Transaction>, Error>)
    ensures r.Failure? <==> t.id.None? || t.id.value == ""
    ensures r.Success? ==>
      && r.value.state == t.(controller := "transactions/" + t.id.value + "/refund/")
      && r.value.request.verb == Post
      && r.value.request.version == t.version
      && r.value.request.controller == "transactions/" + t.id.value + "/refund/"
      && r.value.request.body.Some?
      && ("amount" in r.value.request.body.value <==> t.amount.Some?)
      && (t.amount.Some? ==> r.value.request.body.value == map["amount" := t.amount.value])
      && (t.amount.None? ==> r.value.request.body.value == map[])
  {
    if IsNullOrEmpty(t.id) then Failure(MissingId)
    else
      var controller := EndPoint + t.id.value + RefundSuffix;
      var b := Body(t);
      assert t.amount.Some? ==> b == map["amount" := t.amount.value];
      assert t.amount.None? ==> b == map[];
      Success(Outcome(t.(controller := controller), Request(Post, t.version, controller, Some(b))))
  }

  /** `retrieve`: no id check at all. Sets the controller to "transactions/"
      followed by the id, where a null id concatenates as nothing, and emits
      one GET without a body there. It never fails. */
  function Retrieve(t: Transaction): (r: Result<Outcome<Transaction>, Error>)
    ensures r.Success?
    ensures t.id.Some? ==> r.value.state.controller == "transactions/" + t.id.value
    ensures t.id.None? ==> r.value.state.controller == "transactions/"
    ensures r.value.state == t.(controller := r.value.state.controller)
    ensures r.value.request == Request(Get, t.version, r.value.state.controller, None)
  {
    var controller := EndPoint + AsText(t.id);
    Success(Outcome(t.(controller := controller), Request(Get, t.version, controller, None)))
  }

  /** `listAll`: no id check; one GET without a body to whatever controller
      the transaction currently holds, which it leaves as it is. */
  function ListAll(t: Transaction): (r: Result<Outcome<Transaction>, Error>)
    ensures r.Success?
    ensures r.value.state == t
    ensures r.value.request == Request(Get, t.version, t.controller, None)
  {
    Success(Outcome(t, Request(Get, t.version, t.controller, None)))
  }

  /** The transaction operations a caller can invoke. */
  datatype Op = RefundOp | RetrieveOp | ListAllOp

  /** Dispatch to one operation; only a refund can fail, and it fails exactly
      on a null or empty id. A successful call changes only the controller. */
  function Call(t: Transaction, op: Op): (r: Result<Outcome<Transaction>, Error>)
    ensures r.Failure? <==> op == RefundOp && IsNullOrEmpty(t.id)
    ensures r.Success? ==>
      r.value.state == t.(controller :=
        match op
        case RefundOp => EndPoint + t.id.value + RefundSuffix
        case RetrieveOp => EndPoint + AsText(t.id)
        case ListAllOp => t.controller)
  {
    match op
    case RefundOp => Refund(t)
    case RetrieveOp => Retrieve(t)
    case ListAllOp => ListAll(t)
  }

  /** No operation touches the id or the amount; every successful one keeps
      the client valid and sends its request with the client's version to
      the controller it leaves behind. Only a refund can fail. */
  lemma CallPreserves(t: Transaction, op: Op)
    requires Valid(t)
    ensures Call(t, op).Failure? ==> op == RefundOp
    ensures Call(t, op).Success? ==>
      var o := Call(t, op).value;
      && o.state.id == t.id
      && o.state.amount == t.amount
      && Valid(o.state)
      && o.request.version == ApiVersion
      && o.request.controller == o.state.controller
  {
    match op
    case RefundOp =>
      if Refund(t).Success? {
        var ctl := Refund(t).value.state.controller;
        assert ctl[..|EndPoint|] == EndPoint;
      }
    case RetrieveOp =>
      var ctl := Retrieve(t).value.state.controller;
      assert ctl[..|EndPoint|] == EndPoint;
    case _ =>
  }

  /** After a refund the controller stays at the refund path, so a following
      `listAll` GETs "transactions/" + id + "/refund/"; after a retrieve it
      GETs "transactions/" + id. */
  lemma ControllerPersists(t: Transaction)
    requires t.id.Some? && t.id.value != ""
    ensures ListAll(Refund(t).value.state).value.request.controller
              == "transactions/" + t.id.value + "/refund/"
    ensures ListAll(Retrieve(t).value.state).value.request.controller
              == "transactions/" + t.id.value
  {
  }

  /** On a freshly constructed transaction, `listAll` lists the bare collection. */
  lemma FreshListAll(id: Option<string>)
    ensures ListAll(New(id)).value.request == Request(Get, "v2.1", "transactions/", None)
  {
  }

  /** Without an id, `retrieve` still succeeds and sends exactly the request
      `listAll` sends on a fresh transaction, while `refund` fails. */
  lemma RetrieveWithoutId(id: Option<string>)
    requires IsNullOrEmpty(id)
    ensures Refund(New(id)).Failure?
    ensures Retrieve(New(id)).value.request == ListAll(New(id)).value.request
  {
  }

  /** A refund of 9.99 on transaction "txn123" posts {"amount": "9.99"} to
      "transactions/txn123/refund/". */
  lemma RefundWithAmount()
    ensures
      var t := New(Some("txn123")).(amount := Some("9.99"));
      Refund(t).value.request ==
        Request(Post, "v2.1", "transactions/txn123/refund/", Some(map["amount" := "9.99"]))
  {
    var t := New(Some("txn123")).(amount := Some("9.99"));
    assert t.id == Some("txn123") && t.version == "v2.1";
    var r := Refund(t);
    assert r.value.request.controller == "transactions/txn123/refund/";
  }

  /** A refund with no amount set posts the empty object. */
  lemma RefundWithoutAmount()
    ensures Refund(New(Some("txn123"))).value.request ==
              Request(Post, "v2.1", "transactions/txn123/refund/", Some(map[]))
  {
  }
}
