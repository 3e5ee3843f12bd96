/** What the two v2.1 resource clients have in common and where they differ. */
module Resources {
  import opened Wrappers
  import opened RebillyRequest
  import Contacts
  import Transactions

  /** Retrieving without an id: the contact client refuses and sends
      nothing, while the transaction client sends a GET to its bare
      collection path. */
  lemma RetrieveAsymmetry(id: Option<string>)
    requires IsNullOrEmpty(id)
    ensures Contacts.Retrieve(Contacts.New(id)).Failure?
    ensures Transactions.Retrieve(Transactions.New(id)).Success?
    ensures Transactions.Retrieve(Transactions.New(id)).value.request
              == Request(Get, "v2.1", "transactions/", None)
  {
  }
}
