# Rebilly v2.1 resource clients — request-building model

This project models the request-building logic of the two v2.1 resource
clients of the Rebilly .NET client library, `Contact` and `Transaction`.
Each client is a small state machine over its private id, the controller
path it last set, and its nullable public data fields. An operation
validates the id (where the client checks it), rewrites the controller by
string concatenation, picks an HTTP verb, and optionally serializes the
non-null fields into a JSON body.

The inherited `sendPostRequest`, `sendPutRequest` and `sendGetRequest` are
abstracted: an operation emits a request descriptor
`Request(verb, version, controller, body)`, where the body is the set of
JSON keys with their values (`map<string, string>`), not JSON text.

Modules:

- `Wrappers` — `Option` (a C# reference that may be `null`) and `Result`
  (a call that returns or throws).
- `RebillyRequest` — the descriptor, the `"v2.1"` version constant,
  `String.IsNullOrEmpty`, null-as-empty concatenation, and the
  null-omitting serializer `Serialize` with its inverse `Parse`.
- `Contacts` — the contact client: constructor, `create`, `update`,
  `retrieve`, `listAll`, the body of its ten fields, and `Run`, a caller's
  sequence of calls on one contact.
- `Transactions` — the transaction client: constructor, `refund`,
  `retrieve`, `listAll`, and the body of its `amount` field.
- `Resources` — the asymmetry between the two clients' `retrieve`.

Every operation is a pure function from a client state to
`Result<Outcome<S>, Error>`. `Outcome` pairs the new state with the one
request emitted. A thrown exception is `Failure(MissingId)`. It carries no
state and no request: the three methods that check the id
(`Contact.update`, `Contact.retrieve` and `Transaction.refund`) throw
before they touch the controller, so the caller's object is unchanged and
nothing is sent. The transport is assumed never to throw.

`Transaction.listAll` is documented as "List all transactions"
(Library/Rebilly/v2_1/Transaction.cs:95), but both clients' `listAll` GET
whatever controller the object currently holds
(Library/Rebilly/v2_1/Transaction.cs:111-114,
Library/Rebilly/v2_1/Contact.cs:179-182). After `update` or `retrieve` on a
contact, or after `refund` or `retrieve` on a transaction, that controller
is the single-resource path. The model follows the code:
`ControllerPersists` and `RunController` state what it does, and
`FreshListAll` proves that a newly constructed client lists the collection.

## Model

| member | source | states |
|---|---|---|
| RebillyRequest.AsText | Library/Rebilly/v2_1/Transaction.cs:90 | a null string concatenates as the empty string, a non-null one as itself |
| RebillyRequest.IsNullOrEmpty | Library/Rebilly/v2_1/Contact.cs:124 | true exactly for null or the empty string, that is, exactly for the values that concatenate as nothing |
| RebillyRequest.Serialize | Library/Rebilly/v2_1/Contact.cs:189-196 | the body's keys are exactly the names of the non-null fields; each key carries its field's value unchanged; a null field's name is absent |
| RebillyRequest.ParseSerialize | Library/Rebilly/v2_1/Contact.cs:191-194 | reading the body back into the same named fields restores every field, nulls included, so the serializer loses nothing but nulls |
| RebillyRequest.SerializeParse | Library/Rebilly/v2_1/Contact.cs:191-194 | serializing fields read from a body gives back exactly the body's entries whose keys name a field |
| Contacts.Fields | Library/Rebilly/v2_1/Contact.cs:19-55 | the contact has ten public fields, with pairwise distinct names, each one of the contact's JSON keys |
| Contacts.FieldNamesAgree | Library/Rebilly/v2_1/Contact.cs:19-55 | the contact's JSON keys are exactly the names of its ten fields, whatever their values |
| Contacts.Body | Library/Rebilly/v2_1/Contact.cs:189-196 | for each of the ten fields, its key is present exactly when the field is non-null and then holds the field's value; no other key appears |
| Contacts.BodyOfUnique | Library/Rebilly/v2_1/Contact.cs:189-196 | the field-by-field description of a contact body determines the body completely |
| Contacts.New | Library/Rebilly/v2_1/Contact.cs:65-73 | the id is kept only when neither null nor empty; the version is "v2.1", the controller "contacts/", every field null; the result is a valid contact |
| Contacts.Create | Library/Rebilly/v2_1/Contact.cs:98-103 | never fails and checks no id; leaves the contact unchanged; emits one POST to the current controller whose body is exactly the non-null fields |
| Contacts.Update | Library/Rebilly/v2_1/Contact.cs:122-132 | fails exactly when the id is null or empty; otherwise changes only the controller, to "contacts/" + id, and emits one PUT there whose body is exactly the non-null fields |
| Contacts.Retrieve | Library/Rebilly/v2_1/Contact.cs:151-160 | fails exactly when the id is null or empty; otherwise changes only the controller, to "contacts/" + id, and emits one GET there with no body |
| Contacts.ListAll | Library/Rebilly/v2_1/Contact.cs:179-182 | never fails; leaves the contact unchanged; emits one GET with no body to the current controller |
| Contacts.CallPreserves | Library/Rebilly/v2_1/Contact.cs:98-182 | no operation changes the id or the data fields; a successful one keeps the contact valid and sends version "v2.1" to the controller it leaves behind |
| Contacts.Run | Library/Rebilly/v2_1/Contact.cs:98-182 | a sequence of calls sends at most one request per call, exactly one per call when nothing throws; when one throws, it is an update or retrieve on a null or empty id, each earlier call sent one request, and nothing is sent from it on |
| Contacts.Call | Library/Rebilly/v2_1/Contact.cs:98-182 | a call fails exactly when it is update or retrieve and the id is null or empty; a successful one changes only the controller, to "contacts/" + id for update and retrieve and not at all otherwise |
| Contacts.RunKeeps | Library/Rebilly/v2_1/Contact.cs:98-182 | over any call sequence on a valid contact the id, the data and validity persist, and every request sent carries version "v2.1" |
| Contacts.RunFails | Library/Rebilly/v2_1/Contact.cs:122-160 | a call sequence fails exactly when the id is null or empty and some call is update or retrieve |
| Contacts.RunFailsAtFirst | Library/Rebilly/v2_1/Contact.cs:122-160 | a failing call sequence sent the requests of the calls before the first update or retrieve and nothing after |
| Contacts.RunController | Library/Rebilly/v2_1/Contact.cs:128-157 | with an id, a call sequence leaves the controller at "contacts/" + id once an update or retrieve ran, and where it was otherwise |
| Contacts.ControllerPersists | Library/Rebilly/v2_1/Contact.cs:179-182 | after a successful update or retrieve, listAll GETs and create POSTs to "contacts/" + id rather than the collection |
| Contacts.FreshListAll | Library/Rebilly/v2_1/Contact.cs:65-73 | on a newly constructed contact, listAll emits GET "v2.1" "contacts/" with no body |
| Contacts.NoIdRejected | Library/Rebilly/v2_1/Contact.cs:124-127 | a contact constructed with a null or empty id cannot be updated or retrieved, and a retrieve sends nothing |
| Contacts.CreateJohnDoe | Library/Rebilly/v2_1/Contact.cs:98-103 | a contact with only first name "John" and last name "Doe" set POSTs to "contacts/" a body with exactly those two keys |
| Transactions.Body | Library/Rebilly/v2_1/Transaction.cs:121-128 | the body has the key "amount" exactly when the amount is non-null, holding its value, and no other key |
| Transactions.New | Library/Rebilly/v2_1/Transaction.cs:31-39 | the id is kept only when neither null nor empty; the controller is "transactions/", the version "v2.1", the amount null; the result is valid |
| Transactions.Refund | Library/Rebilly/v2_1/Transaction.cs:59-69 | fails exactly when the id is null or empty; otherwise changes only the controller, to "transactions/" + id + "/refund/", and POSTs there {"amount": amount} or the empty object when the amount is null |
| Transactions.Retrieve | Library/Rebilly/v2_1/Transaction.cs:88-92 | never fails, with no id check; changes only the controller, to "transactions/" + id or to "transactions/" when the id is null, and GETs it with no body |
| Transactions.ListAll | Library/Rebilly/v2_1/Transaction.cs:111-114 | never fails; leaves the transaction unchanged; emits one GET with no body to the current controller |
| Transactions.Call | Library/Rebilly/v2_1/Transaction.cs:59-114 | a call fails exactly when it is a refund and the id is null or empty; a successful one changes only the controller: to the refund path, to "transactions/" plus the id (null as nothing), or not at all for listAll |
| Transactions.CallPreserves | Library/Rebilly/v2_1/Transaction.cs:59-114 | only refund can fail; no operation changes the id or the amount; a successful one keeps the transaction valid and sends version "v2.1" to the controller it leaves behind |
| Transactions.ControllerPersists | Library/Rebilly/v2_1/Transaction.cs:111-114 | after a refund listAll GETs the refund path, and after a retrieve it GETs "transactions/" + id |
| Transactions.FreshListAll | Library/Rebilly/v2_1/Transaction.cs:31-39 | on a newly constructed transaction, listAll emits GET "v2.1" "transactions/" with no body |
| Transactions.RetrieveWithoutId | Library/Rebilly/v2_1/Transaction.cs:88-92 | without an id refund fails, while retrieve sends the same request as listAll on a fresh transaction |
| Transactions.RefundWithAmount | Library/Rebilly/v2_1/Transaction.cs:59-69 | a refund of "9.99" on "txn123" POSTs {"amount": "9.99"} to "transactions/txn123/refund/" |
| Transactions.RefundWithoutAmount | Library/Rebilly/v2_1/Transaction.cs:121-128 | a refund with no amount set on "txn123" POSTs the empty object |
| Resources.RetrieveAsymmetry | Library/Rebilly/v2_1/Transaction.cs:88-92 | without an id, a contact's retrieve fails while a transaction's retrieve GETs "transactions/" |

## Left out

- Exceptions from the transport are not modelled: `Failure` and `Run`'s `failed` mean the id check only. In the code a transport exception would come after `setApiController` and leave the new controller behind, and `create` and `listAll` could throw too.
- The HTTP transport (`sendGetRequest`, `sendPostRequest`, `sendPutRequest`) and `RebillyResponse`: network I/O in the base class `RebillyRequest`, which is not part of this model. An operation ends at the emitted descriptor.
- The API key, the environment and the base host (`setApiKey`, `setEnvironment`): they live in the base class, which is not part of this model. The descriptor carries the version and controller only.
- JSON text: indentation, key order and string escaping are Newtonsoft.Json internals. The body is its key/value map.
- Public members the base class might contribute to the serialized object: the base class is not part of this model, so the body is assumed to hold only the resource's own public fields. The private `id` is never serialized.
- Exception types and message texts: every thrown exception is the single error `MissingId`.
- Serialization errors: every field is a string, so serialization cannot fail in this model.
- Field assignment by the caller is a record update of the state (`c.(data := …)`); it is not a separate operation.
