/** The list and statistics queries of backend/src/controller/transactionController.js:
    the query parameters a client sends, the filter document the handler
    builds from them, what that filter selects, and the order the list is
    returned in. */
module TransactionFilter {
  import opened Wrappers
  import opened DocumentQuery
  import opened TransactionSchema

  /** The query string. A date parameter that is absent or empty is `None`;
      `category` and `type` are raw strings, so an empty one is `Some("")`. */
  datatype Query = Query(
    startDate: Option<Date>,
    endDate: Option<Date>,
    category: Option<string>,
    kind: Option<string>)

  /** A string parameter counts only when it is truthy: present and non-empty. */
  predicate Given(p: Option<string>) {
    p.Some? && p.value != ""
  }

  /** The `date` part of a filter document: `$gte` and `$lte` operators. */
  datatype DateBounds = DateBounds(gte: Option<Date>, lte: Option<Date>)

  /** The filter document handed to the store's `find`. */
  datatype Filter = Filter(
    userId: UserId,
    date: Option<DateBounds>,
    category: Option<string>,
    kind: Option<string>)

  /** How the store evaluates a `date` condition. An operator document
      without operators is an equality test against an empty document, which
      no date passes. */
  predicate DateMatches(b: DateBounds, d: Date) {
    && (b.gte.Some? || b.lte.Some?)
    && (b.gte.Some? ==> d >= b.gte.value)
    && (b.lte.Some? ==> d <= b.lte.value)
  }

  /** How the store evaluates a filter document against one transaction:
      every field present in the filter must match. */
  predicate Matches(f: Filter, t: Transaction) {
    && t.userId == f.userId
    && (f.date.Some? ==> DateMatches(f.date.value, t.date))
    && (f.category.Some? ==> t.category == f.category.value)
    && (f.kind.Some? ==> KindName(t.kind) == f.kind.value)
  }

  /** Which transactions a caller's query admits: those the caller owns that
      satisfy every parameter that was given, all combined with AND. */
  predicate Admits(caller: UserId, q: Query, t: Transaction) {
    && t.userId == caller
    && (q.startDate.Some? ==> q.startDate.value <= t.date)
    && (q.endDate.Some? ==> t.date <= q.endDate.value)
    && (Given(q.category) ==> t.category == q.category.value)
    && (Given(q.kind) ==> KindName(t.kind) == q.kind.value)
  }

  /** The query the statistics handler honours: only the date range. */
  function DatesOnly(q: Query): (d: Query)
    ensures d.startDate == q.startDate && d.endDate == q.endDate
    ensures !Given(d.category) && !Given(d.kind)
  {
    Query(q.startDate, q.endDate, None, None)
  }

  /** Builds the filter document field by field, as the handler does: the
      owner always, a `date` document only when a bound is given, and
      `category` and `type` only when truthy. */
  method CompileFilter(caller: UserId, q: Query) returns (f: Filter)
    ensures f.userId == caller
    ensures forall t :: Matches(f, t) <==> Admits(caller, q, t)
  {
    f := Filter(caller, None, None, None);
    if q.startDate.Some? || q.endDate.Some? {
      var bounds := DateBounds(None, None);
      if q.startDate.Some? {
        bounds := bounds.(gte := q.startDate);
      }
      if q.endDate.Some? {
        bounds := bounds.(lte := q.endDate);
      }
      f := f.(date := Some(bounds));
    }
    if Given(q.category) {
      f := f.(category := q.category);
    }
    if Given(q.kind) {
      f := f.(kind := q.kind);
    }
  }

  /** A start date after the end date admits nothing; it is not an error. */
  lemma InvertedRangeAdmitsNothing(caller: UserId, q: Query, t: Transaction)
    requires q.startDate.Some? && q.endDate.Some? && q.startDate.value > q.endDate.value
    ensures !Admits(caller, q, t)
  {
  }

  /** A `type` parameter naming neither kind admits nothing. */
  lemma UnknownKindAdmitsNothing(caller: UserId, q: Query, t: Transaction)
    requires Given(q.kind) && ParseKind(q.kind.value).None?
    ensures !Admits(caller, q, t)
  {
  }

  /** The list order: `date` descending, ties broken by `createdAt` descending. */
  function RecencyKey(t: Transaction): SortKey {
    SortKey(t.date, t.createdAt)
  }
}
