/** Request sequences a client of the transaction handlers can run, with the
    outcomes the handlers' contracts guarantee. */
module Scenarios {
  import opened Wrappers
  import opened Responses
  import opened DocumentQuery
  import opened TransactionSchema
  import opened TransactionFilter
  import opened TransactionStats
  import opened TransactionRequests
  import opened TransactionController

  const May1: Date := 20240501

  /** Creating a 50 expense answers 201 with amount 50, and the statistics
      for that day are income 0, expense 50, balance -50, one transaction. */
  method ExpenseThenStatistics() returns (created: Response<Transaction>, stats: Stats)
    ensures created.Created? && StatusCode(created) == 201 && created.body.amount == 50.0
    ensures stats == Stats(0.0, 50.0, -50.0, 1)
  {
    var store := new TransactionStore(0);
    var body := Body(Some("expense"), Some(50.0), Some("Food & Dining"), At(May1), None);
    created := store.Create(7, body);
    var q := Query(Some(May1), Some(May1), None, None);
    stats := store.Statistics(7, q);
    var t := created.body;
    forall x
      ensures multiset([t])[x] == if store.Stored(x) && Admits(7, DatesOnly(q), x) then 1 else 0
    {
      if x == t {
        assert store.Stored(x);
      }
    }
    assert store.ListsExactly([t], 7, DatesOnly(q));
    assert t.kind == Expense && [t][1..] == [];
    assert Total([t], Income) == 0.0 && Total([t], Expense) == 50.0;
  }

  /** An amount of 0 is refused with 400 and nothing is stored. */
  method ZeroAmountRejected() returns (r: Response<Transaction>, listed: seq<Transaction>)
    ensures r == BadRequest(RequiredMessage) && StatusCode(r) == 400
    ensures listed == []
  {
    var store := new TransactionStore(0);
    r := store.Create(7, Body(Some("income"), Some(0.0), Some("Salary"), At(May1), None));
    listed := store.GetAll(7, Query(None, None, None, None));
    forall x
      ensures multiset(listed)[x] == 0
    {
    }
    EmptyWhenNothingCounted(listed);
  }

  /** Another user reading, updating or deleting the caller's transaction
      gets 404, and the transaction stays as it was. */
  method OtherOwnerSeesNotFound() returns (got: Response<Transaction>, updated: Response<Transaction>,
                                           deleted: Response<Transaction>, mine: Response<Transaction>)
    ensures got == NotFound && updated == NotFound && deleted == NotFound
    ensures mine.Ok? && mine.body.amount == 20.0 && mine.body.userId == 7
  {
    var store := new TransactionStore(0);
    var created := store.Create(7, Body(Some("income"), Some(20.0), Some("Salary"), At(May1), None));
    var id := created.body.id;
    got := store.GetById(8, id);
    updated := store.Update(8, id, Body(None, Some(99.0), None, Absent, None));
    deleted := store.Delete(8, id);
    mine := store.GetById(7, id);
  }

  /** Transactions dated 1 January, 1 March and 1 February are listed
      1 March, 1 February, 1 January. */
  lemma ListOrderExample(jan: Transaction, mar: Transaction, feb: Transaction)
    requires jan.date == 20240101 && mar.date == 20240301 && feb.date == 20240201
    ensures SortDesc([jan, mar, feb], RecencyKey) == [mar, feb, jan]
  {
  }
}
