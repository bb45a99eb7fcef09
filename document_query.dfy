/** What the handlers ask of the document store: a `find` that selects the
    documents of a collection satisfying a filter, and a `sort` that orders the selection newest first
    on a two-part key. Both collections of the model, transactions and notes,
    use these. */
module DocumentQuery {

  type Id = nat

  /** A sort key compared lexicographically: `major` first, then `minor`. */
  datatype SortKey = SortKey(major: int, minor: int)

  /** `a` may come before `b` in a list sorted descending on the key. */
  predicate AtLeast(a: SortKey, b: SortKey) {
    a.major > b.major || (a.major == b.major && a.minor >= b.minor)
  }

  /** Every element comes before every later one in descending key order. */
  predicate Descending<T>(s: seq<T>, key: T -> SortKey) {
    forall i, j :: 0 <= i < j < |s| ==> AtLeast(key(s[i]), key(s[j]))
  }

  /** Every stored document sits under its own id. */
  predicate KeyedById<T>(m: map<Id, T>, idOf: T -> Id) {
    forall k :: k in m ==> idOf(m[k]) == k
  }

  /** The store's `find`: the documents with ids in [lo, hi) that `keep`
      accepts. The store promises no order; visiting ids in ascending order
      is a choice of this model, and nothing stated about `find` depends on it. */
  function Scan<T>(m: map<Id, T>, keep: T -> bool, lo: Id, hi: Id): (r: seq<T>)
    ensures |r| <= if lo <= hi then hi - lo else 0
    ensures forall x :: x in r ==> keep(x)
    decreases hi - lo
  {
    if lo >= hi then []
    else (if lo in m && keep(m[lo]) then [m[lo]] else []) + Scan(m, keep, lo + 1, hi)
  }

  /** `find` yields each accepted document of the range exactly once and nothing else. */
  lemma {:induction false} ScanCount<T>(m: map<Id, T>, keep: T -> bool, idOf: T -> Id, lo: Id, hi: Id, x: T)
    requires KeyedById(m, idOf)
    ensures multiset(Scan(m, keep, lo, hi))[x] ==
            if lo <= idOf(x) < hi && idOf(x) in m && m[idOf(x)] == x && keep(x) then 1 else 0
    decreases hi - lo
  {
    if lo < hi {
      var head := if lo in m && keep(m[lo]) then [m[lo]] else [];
      assert Scan(m, keep, lo, hi) == head + Scan(m, keep, lo + 1, hi);
      ScanCount(m, keep, idOf, lo + 1, hi, x);
      if lo in m && keep(m[lo]) && m[lo] == x {
        assert idOf(x) == lo;
      }
    }
  }

  /** Places `x` before the first element it is at least as recent as. */
  function Insert<T>(x: T, s: seq<T>, key: T -> SortKey): (r: seq<T>)
    ensures multiset(r) == multiset(s) + multiset{x}
  {
    if s == [] then [x]
    else if AtLeast(key(x), key(s[0])) then [x] + s
    else
      assert s == [s[0]] + s[1..];
      [s[0]] + Insert(x, s[1..], key)
  }

  lemma {:induction false} InsertKeepsDescending<T>(x: T, s: seq<T>, key: T -> SortKey)
    requires Descending(s, key)
    ensures Descending(Insert(x, s, key), key)
  {
    if s != [] && !AtLeast(key(x), key(s[0])) {
      var tail := Insert(x, s[1..], key);
      InsertKeepsDescending(x, s[1..], key);
      forall j | 0 <= j < |tail|
        ensures AtLeast(key(s[0]), key(tail[j]))
      {
        assert tail[j] in multiset(tail);
        if tail[j] != x {
          assert tail[j] in multiset(s[1..]);
          var i :| 0 <= i < |s[1..]| && s[1..][i] == tail[j];
          assert s[i + 1] == tail[j];
        }
      }
      assert Insert(x, s, key) == [s[0]] + tail;
    }
  }

  /** The store's `sort`, descending on `key`: an insertion sort. Documents
      whose keys are equal may come out in either order. */
  function SortDesc<T>(s: seq<T>, key: T -> SortKey): (r: seq<T>)
    ensures multiset(r) == multiset(s)
    ensures Descending(r, key)
  {
    if s == [] then []
    else
      assert s == [s[0]] + s[1..];
      var rest := SortDesc(s[1..], key);
      InsertKeepsDescending(s[0], rest, key);
      Insert(s[0], rest, key)
  }

  /** A sequence in which no element occurs is empty. */
  lemma EmptyWhenNothingCounted<T>(s: seq<T>)
    ensures (forall x :: multiset(s)[x] == 0) ==> s == []
  {
    if s != [] {
      assert multiset(s)[s[0]] > 0;
    }
  }
}
