/** The transaction handlers of backend/src/controller/transactionController.js
    over an owner-scoped collection of transactions. The collection is the
    state the handlers share; every handler takes the authenticated caller's
    user id and can only see or change that caller's transactions. */
module TransactionController {
  import opened Wrappers
  import opened Responses
  import opened DocumentQuery
  import opened TransactionSchema
  import opened TransactionFilter
  import opened TransactionStats
  import opened TransactionRequests

  class TransactionStore {
    /** The collection, keyed by document id. */
    var records: map<Id, Transaction>
    /** The id the next created document gets. */
    var nextId: Id
    /** The current time; it advances with every write, so timestamps are distinct. */
    var clock: Date

    ghost predicate Valid()
      reads this
    {
      && KeyedById(records, IdOf)
      && forall k :: k in records ==>
           && k < nextId
           && SchemaValid(records[k])
           && records[k].amount > 0.0
           && records[k].updatedAt < clock
    }

    constructor (now: Date)
      ensures Valid()
      ensures records == map[] && clock == now
    {
      records := map[];
      nextId := 0;
      clock := now;
    }

    /** `t` is a document of the collection. */
    ghost predicate Stored(t: Transaction)
      reads this
    {
      t.id in records && records[t.id] == t
    }

    /** The caller owns a document with this id. */
    predicate Owned(caller: UserId, id: Id)
      reads this
    {
      id in records && records[id].userId == caller
    }

    /** `ts` holds each stored transaction the query admits exactly once, and nothing else. */
    ghost predicate ListsExactly(ts: seq<Transaction>, caller: UserId, q: Query)
      reads this
    {
      forall t :: multiset(ts)[t] == if Stored(t) && Admits(caller, q, t) then 1 else 0
    }

    /** The store's `find` with the filter the handler compiled from `q`. */
    method FindAdmitted(caller: UserId, q: Query) returns (found: seq<Transaction>)
      requires Valid()
      ensures ListsExactly(found, caller, q)
    {
      var f := CompileFilter(caller, q);
      var keep := (t: Transaction) => Matches(f, t);
      found := Scan(records, keep, 0, nextId);
      forall t
        ensures multiset(found)[t] == if Stored(t) && Admits(caller, q, t) then 1 else 0
      {
        ScanCount(records, keep, IdOf, 0, nextId, t);
      }
    }

    /** getAllTransactions: the caller's transactions the query admits, newest
        date first, ties newest `createdAt` first. */
    method GetAll(caller: UserId, q: Query) returns (r: seq<Transaction>)
      requires Valid()
      ensures ListsExactly(r, caller, q)
      ensures Descending(r, RecencyKey)
      ensures forall i, j :: 0 <= i < j < |r| ==>
                r[i].date > r[j].date || (r[i].date == r[j].date && r[i].createdAt >= r[j].createdAt)
      ensures forall t :: t in r ==> t.userId == caller && Stored(t)
      ensures q.startDate.Some? && q.endDate.Some? && q.startDate.value > q.endDate.value ==> r == []
      ensures Given(q.kind) && ParseKind(q.kind.value).None? ==> r == []
    {
      var found := FindAdmitted(caller, q);
      r := SortDesc(found, RecencyKey);
      assert multiset(r) == multiset(found);
      forall i, j | 0 <= i < j < |r|
        ensures r[i].date > r[j].date || (r[i].date == r[j].date && r[i].createdAt >= r[j].createdAt)
      {
        assert AtLeast(RecencyKey(r[i]), RecencyKey(r[j]));
      }
      forall t | t in r
        ensures t.userId == caller && Stored(t)
      {
        assert multiset(r)[t] > 0;
      }
      if (q.startDate.Some? && q.endDate.Some? && q.startDate.value > q.endDate.value)
         || (Given(q.kind) && ParseKind(q.kind.value).None?)
      {
        EmptyWhenNothingCounted(r);
      }
    }

    /** getTransactionById: the document when the caller owns it; a document
        that is missing and one owned by someone else both give 404. */
    method GetById(caller: UserId, id: Id) returns (r: Response<Transaction>)
      ensures r.Ok? <==> Owned(caller, id)
      ensures r.Ok? ==> r.body == records[id] && r.body.userId == caller
      ensures !r.Ok? ==> r == NotFound
    {
      if Owned(caller, id) {
        r := Ok(records[id]);
      } else {
        r := NotFound;
      }
    }

    /** getStatistics: the totals over the caller's transactions in the date
        range; `category` and `type` are ignored. Whatever order the store
        returns the selection in, the result is its summary. */
    method Statistics(caller: UserId, q: Query) returns (s: Stats)
      requires Valid()
      ensures forall ts :: ListsExactly(ts, caller, DatesOnly(q)) ==> s == Summarize(ts)
      ensures s.balance == s.totalIncome - s.totalExpense
      ensures s.totalIncome >= 0.0 && s.totalExpense >= 0.0
    {
      var found := FindAdmitted(caller, DatesOnly(q));
      s := Summarize(found);
      forall ts | ListsExactly(ts, caller, DatesOnly(q))
        ensures s == Summarize(ts)
      {
        assert multiset(ts) == multiset(found);
        SummarizePermutation(ts, found);
      }
      forall t | t in found
        ensures t.amount >= 0.0
      {
        assert multiset(found)[t] > 0;
      }
    }

    /** createTransaction: the checks in order, then one new document owned
        by the caller; nothing else changes. */
    method Create(caller: UserId, b: Body) returns (r: Response<Transaction>)
      requires Valid()
      modifies this
      ensures Valid()
      ensures ValidateCreate(b).Reject? ==>
                && r == BadRequest(ValidateCreate(b).message)
                && records == old(records) && nextId == old(nextId) && clock == old(clock)
      ensures ValidateCreate(b).Accept? ==>
                var v := ValidateCreate(b);
                && r.Created?
                && r.body.id !in old(records)
                && records == old(records)[r.body.id := r.body]
                && r.body.userId == caller
                && r.body.kind == v.kind && r.body.amount == v.amount
                && r.body.category == v.category && r.body.date == v.date
                && r.body.description == DescriptionOrEmpty(b.description)
                && r.body.createdAt == r.body.updatedAt == old(clock)
                && (forall k :: k in old(records) ==> old(records)[k].createdAt < r.body.createdAt)
      ensures r.BadRequest? || r.Created?
    {
      var v := ValidateCreate(b);
      if v.Reject? {
        return BadRequest(v.message);
      }
      var t := NewTransaction(nextId, caller, v.kind, v.amount, v.category,
                              Some(v.date), Some(v.description), clock);
      records := records[nextId := t];
      nextId := nextId + 1;
      clock := clock + 1;
      r := Created(t);
    }

    /** updateTransaction: the update's own checks, then the schema's
        validators, then the caller-owned document with this id gets the
        fields the body sets. No other document changes, and neither does
        the owner. */
    method Update(caller: UserId, id: Id, b: Body) returns (r: Response<Transaction>)
      requires Valid()
      modifies this
      ensures Valid()
      ensures nextId == old(nextId)
      ensures ValidateUpdate(b).Some? ==>
                r == BadRequest(ValidateUpdate(b).value) && records == old(records) && clock == old(clock)
      ensures ValidateUpdate(b).None? && UpdateViolatesSchema(b) ==>
                r == ServerError && records == old(records) && clock == old(clock)
      ensures ValidateUpdate(b).None? && !UpdateViolatesSchema(b) && !old(Owned(caller, id)) ==>
                r == NotFound && records == old(records) && clock == old(clock)
      ensures ValidateUpdate(b).None? && !UpdateViolatesSchema(b) && old(Owned(caller, id)) ==>
                && records == old(records)[id := ApplyUpdate(old(records)[id], b, old(clock))]
                && r == Ok(records[id])
                && records[id].userId == caller
      ensures forall k :: k in old(records) && k != id ==> k in records && records[k] == old(records)[k]
      ensures records.Keys == old(records.Keys)
    {
      var e := ValidateUpdate(b);
      if e.Some? {
        return BadRequest(e.value);
      }
      if UpdateViolatesSchema(b) {
        return ServerError;
      }
      if !Owned(caller, id) {
        return NotFound;
      }
      var u := ApplyUpdate(records[id], b, clock);
      records := records[id := u];
      clock := clock + 1;
      r := Ok(u);
    }

    /** deleteTransaction: removes the caller-owned document with this id and
        nothing else; with no such document the collection is unchanged. */
    method Delete(caller: UserId, id: Id) returns (r: Response<Transaction>)
      requires Valid()
      modifies this
      ensures Valid()
      ensures nextId == old(nextId) && clock == old(clock)
      ensures old(Owned(caller, id)) ==> r == Deleted && records == old(records) - {id}
      ensures !old(Owned(caller, id)) ==> r == NotFound && records == old(records)
    {
      if Owned(caller, id) {
        records := records - {id};
        r := Deleted;
      } else {
        r := NotFound;
      }
    }
  }
}
