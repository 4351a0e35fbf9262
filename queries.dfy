/**
 * The part of the ORM the accounts views use: a table is a sequence of
 * rows; `filter`/`exclude` keep the rows a condition holds for, in table
 * order; `order_by` sorts them by expiration date.  The database leaves the
 * order of rows with equal dates open; this model keeps their table order.
 */
module Queries {
  import opened Dates
  import opened Models
  import opened Filters

  /** The field lookups the views use; date bounds are day ordinals. */
  datatype Condition =
    | DateLt(bound: int)        // expiration_date__lt
    | DateGte(bound: int)       // expiration_date__gte
    | DateLte(bound: int)       // expiration_date__lte
    | IdIn(ids: seq<nat>)       // id__in
    | And(left: Condition, right: Condition)   // several lookups in one filter()
    | Not(negated: Condition)   // exclude()

  predicate Holds(a: Account, c: Condition) {
    match c
    case DateLt(b) => Ordinal(a.expirationDate) < b
    case DateGte(b) => Ordinal(a.expirationDate) >= b
    case DateLte(b) => Ordinal(a.expirationDate) <= b
    case IdIn(ids) => a.id in ids
    case And(l, r) => Holds(a, l) && Holds(a, r)
    case Not(n) => !Holds(a, n)
  }

  /** `filter(c)` (and `exclude(n)` as `Where(s, Not(n))`): the rows `c` holds for, in order. */
  function Where(s: seq<Account>, c: Condition): (r: seq<Account>)
    ensures |r| <= |s|
    ensures forall a :: a in r <==> a in s && Holds(a, c)
    ensures forall a :: multiset(r)[a] == if Holds(a, c) then multiset(s)[a] else 0
  {
    var keep := a => Holds(a, c);
    forall a ensures multiset(Filter(s, keep))[a] == if Holds(a, c) then multiset(s)[a] else 0 {
      FilterCount(s, keep, a);
    }
    Filter(s, keep)
  }

  /** The primary key: no two different rows share an id. */
  predicate UniqueIds(s: seq<Account>) {
    forall a, b :: a in s && b in s && a.id == b.id ==> a == b
  }

  /** `[acc.id for acc in s]`. */
  function Ids(s: seq<Account>): (r: seq<nat>)
    ensures |r| == |s|
    ensures forall i :: 0 <= i < |s| ==> r[i] == s[i].id
  {
    if s == [] then [] else [s[0].id] + Ids(s[1..])
  }

  /** In a table with unique ids, a row's id is among a sub-list's ids exactly when the row is. */
  lemma IdsIdentifyRows(t: seq<Account>, sub: seq<Account>, a: Account)
    requires UniqueIds(t)
    requires forall b :: b in sub ==> b in t
    requires a in t
    ensures a.id in Ids(sub) <==> a in sub
  {
    var ids := Ids(sub);
    if a.id in ids {
      var i :| 0 <= i < |ids| && ids[i] == a.id;
      assert sub[i] in t;
    }
    if a in sub {
      var i :| 0 <= i < |sub| && sub[i] == a;
      assert ids[i] == a.id;
    }
  }

  /** Three conditions that split every row three ways split the table. */
  lemma WherePartition(s: seq<Account>, c1: Condition, c2: Condition, c3: Condition)
    requires forall i :: 0 <= i < |s| ==> ExactlyOne(Holds(s[i], c1), Holds(s[i], c2), Holds(s[i], c3))
    ensures multiset(Where(s, c1)) + multiset(Where(s, c2)) + multiset(Where(s, c3)) == multiset(s)
  {
    FilterPartition(s, a => Holds(a, c1), a => Holds(a, c2), a => Holds(a, c3));
  }

  lemma SameMembers(s: seq<Account>, t: seq<Account>)
    requires multiset(s) == multiset(t)
    ensures forall a :: a in s <==> a in t
  {
    forall a
      ensures a in s <==> a in t
    {
      assert a in s <==> a in multiset(s);
      assert a in t <==> a in multiset(t);
    }
  }

  datatype Direction = Ascending | Descending

  /** The sort key of `order_by('expiration_date')` or `order_by('-expiration_date')`. */
  function Key(a: Account, dir: Direction): int {
    match dir
    case Ascending => Ordinal(a.expirationDate)
    case Descending => -Ordinal(a.expirationDate)
  }

  predicate Sorted(s: seq<Account>, dir: Direction) {
    forall i, j :: 0 <= i < j < |s| ==> Key(s[i], dir) <= Key(s[j], dir)
  }

  /** Puts `a` before the first row whose key is not smaller. */
  function Insert(a: Account, s: seq<Account>, dir: Direction): (r: seq<Account>)
    ensures multiset(r) == multiset(s) + multiset{a}
  {
    if s == [] then [a]
    else if Key(a, dir) <= Key(s[0], dir) then [a] + s
    else
      assert s == [s[0]] + s[1..];
      [s[0]] + Insert(a, s[1..], dir)
  }

  lemma {:induction false} InsertSorted(a: Account, s: seq<Account>, dir: Direction)
    requires Sorted(s, dir)
    ensures Sorted(Insert(a, s, dir), dir)
  {
    if s != [] && Key(a, dir) > Key(s[0], dir) {
      var rest := Insert(a, s[1..], dir);
      InsertSorted(a, s[1..], dir);
      forall j | 0 <= j < |rest|
        ensures Key(s[0], dir) <= Key(rest[j], dir)
      {
        assert rest[j] in multiset(rest);
        if rest[j] != a {
          assert rest[j] in multiset(s[1..]);
          var k :| 0 <= k < |s[1..]| && s[1..][k] == rest[j];
          assert s[k + 1] == rest[j];
        }
      }
    }
  }

  /** `order_by(...)` on the direction's key. */
  function OrderBy(s: seq<Account>, dir: Direction): (r: seq<Account>)
    ensures Sorted(r, dir)
    ensures multiset(r) == multiset(s)
    ensures forall a :: a in r <==> a in s
  {
    if s == [] then []
    else
      assert s == [s[0]] + s[1..];
      var rest := OrderBy(s[1..], dir);
      InsertSorted(s[0], rest, dir);
      var r := Insert(s[0], rest, dir);
      SameMembers(r, s);
      r
  }

  /** A listing of all accounts in the model's default order (`Meta.ordering`). */
  function DefaultListing(table: seq<Account>): (r: seq<Account>)
    ensures multiset(r) == multiset(table)
    ensures forall i, j :: 0 <= i < j < |r| ==> !Before(r[j].expirationDate, r[i].expirationDate)
  {
    var r := OrderBy(table, Ascending);
    forall i, j | 0 <= i < j < |r|
      ensures !Before(r[j].expirationDate, r[i].expirationDate)
    {
      OrdinalOrder(r[j].expirationDate, r[i].expirationDate);
    }
    r
  }
}
