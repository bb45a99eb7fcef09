/** The transaction document as the schema in backend/src/models/Transaction.js
    declares it: its fields, the constraints the schema's validators enforce,
    and the defaults it fills in when a document is built. */
module TransactionSchema {
  import opened Wrappers
  import DocumentQuery

  type Id = DocumentQuery.Id
  /** The owner's user id (an ObjectId in the source). */
  type UserId = nat
  /** A calendar date or a timestamp, as an integer that preserves the order
      of the instants it stands for. */
  type Date = int

  /** The `type` field: the schema's enumeration admits exactly these two. */
  datatype Kind = Income | Expense

  function KindName(k: Kind): (s: string)
    ensures s == "income" || s == "expense"
  {
    match k
    case Income => "income"
    case Expense => "expense"
  }

  /** Reads a client-supplied `type` string; only the two enumerated names are kinds. */
  function ParseKind(s: string): (r: Option<Kind>)
    ensures r.Some? <==> s == "income" || s == "expense"
    ensures r.Some? ==> KindName(r.value) == s
  {
    if s == "income" then Some(Income)
    else if s == "expense" then Some(Expense)
    else None
  }

  /** Naming a kind and reading the name back gives the kind. */
  lemma KindNameRoundTrip(k: Kind)
    ensures ParseKind(KindName(k)) == Some(k)
  {
  }

  /** A stored transaction. `createdAt` and `updatedAt` are the timestamps
      the schema's `timestamps` option maintains. */
  datatype Transaction = Transaction(
    id: Id,
    userId: UserId,
    kind: Kind,
    amount: real,
    category: string,
    date: Date,
    description: string,
    createdAt: Date,
    updatedAt: Date)

  function IdOf(t: Transaction): Id { t.id }

  /** What the schema's validators accept: `amount` has minimum 0 (so 0 itself
      is admitted), `category` is required (a required string must not be
      empty) and is not drawn from any enumeration. `type`, `date` and
      `userId` are present by construction of the datatype. The last conjunct
      is no validator: the `timestamps` option sets `updatedAt` to the time of
      every write, so a document is never updated before it was created. */
  predicate SchemaValid(t: Transaction) {
    && t.amount >= 0.0
    && t.category != ""
    && t.createdAt <= t.updatedAt
  }

  /** Builds a document the way the model constructor does: an absent `date`
      defaults to the current time, an absent `description` to the empty
      string, and both timestamps are set to the current time. */
  function NewTransaction(
    id: Id, userId: UserId, kind: Kind, amount: real, category: string,
    date: Option<Date>, description: Option<string>, now: Date): (t: Transaction)
    ensures t.id == id && t.userId == userId && t.kind == kind
    ensures t.amount == amount && t.category == category
    ensures t.date == (if date.Some? then date.value else now)
    ensures t.description == (if description.Some? then description.value else "")
    ensures t.createdAt == now && t.updatedAt == now
    ensures SchemaValid(t) <==> amount >= 0.0 && category != ""
  {
    Transaction(
      id, userId, kind, amount, category,
      if date.Some? then date.value else now,
      if description.Some? then description.value else "",
      now, now)
  }

  /** The schema admits an amount of zero and any non-empty category, not
      only the categories the client offers. */
  lemma SchemaAdmitsZeroAndAnyCategory(id: Id, userId: UserId, kind: Kind, category: string, date: Date, now: Date)
    requires category != ""
    ensures SchemaValid(NewTransaction(id, userId, kind, 0.0, category, Some(date), None, now))
  {
  }
}
