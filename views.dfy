/**
 * The listing view, `account_list`: it splits the accounts table into three
 * buckets with explicit date-range queries (expired, expiring within seven
 * days, everything else), fetches each bucket's rows, and attaches a
 * reminder message to every fetched row.  One `today` is used throughout.
 */
module Views {
  import opened Wrappers
  import opened Dates
  import opened Models
  import opened Filters
  import opened Queries
  import opened Messages

  /** The window of the expiring-soon bucket, in days after today. */
  const SOON_DAYS := 7

  /** `expiration_date__gte=today, expiration_date__lte=today + timedelta(days=7)`. */
  function ExpiringSoonCondition(today: Date): Condition {
    And(DateGte(Ordinal(today)), DateLte(Ordinal(today) + SOON_DAYS))
  }

  /** `expiration_date__lt=today`. */
  function ExpiredCondition(today: Date): Condition {
    DateLt(Ordinal(today))
  }

  /** The expiring-soon bucket: due today or within the next seven days, soonest first. */
  function ExpiringSoonBucket(table: seq<Account>, today: Date): (r: seq<Account>)
    ensures Sorted(r, Ascending)
    ensures multiset(r) == multiset(Where(table, ExpiringSoonCondition(today)))
    ensures forall a :: a in r <==> a in table && 0 <= DaysLeft(a, today) <= SOON_DAYS
  {
    assert forall a :: Holds(a, ExpiringSoonCondition(today)) <==> 0 <= DaysLeft(a, today) <= SOON_DAYS;
    OrderBy(Where(table, ExpiringSoonCondition(today)), Ascending)
  }

  /** The expired bucket: expired before today, most recently expired first. */
  function ExpiredBucket(table: seq<Account>, today: Date): (r: seq<Account>)
    ensures Sorted(r, Descending)
    ensures multiset(r) == multiset(Where(table, ExpiredCondition(today)))
    ensures forall a :: a in r <==> a in table && IsExpired(a, today)
  {
    OrderBy(Where(table, ExpiredCondition(today)), Descending)
  }

  /** The ids the other bucket excludes: those of the two buckets above. */
  function ExcludedIds(table: seq<Account>, today: Date): seq<nat> {
    Ids(ExpiringSoonBucket(table, today)) + Ids(ExpiredBucket(table, today))
  }

  /** `exclude(id__in=...)`: every account not already in one of the two buckets, soonest first. */
  function OtherBucket(table: seq<Account>, today: Date): (r: seq<Account>)
    ensures Sorted(r, Ascending)
    ensures multiset(r) == multiset(Where(table, Not(IdIn(ExcludedIds(table, today)))))
    ensures forall a :: a in r <==> a in table && a.id !in ExcludedIds(table, today)
  {
    var excluded := ExcludedIds(table, today);
    assert forall a :: Holds(a, Not(IdIn(excluded))) <==> a.id !in excluded;
    OrderBy(Where(table, Not(IdIn(excluded))), Ascending)
  }

  /** With unique ids, excluding the two buckets' ids leaves exactly the accounts due after the window. */
  lemma OtherBucketMembers(table: seq<Account>, today: Date, a: Account)
    requires UniqueIds(table)
    ensures a in OtherBucket(table, today) <==> a in table && DaysLeft(a, today) > SOON_DAYS
  {
    var excluded := ExcludedIds(table, today);
    assert a in OtherBucket(table, today) <==> a in table && a.id !in excluded;
    if a in table {
      var soon, expired := ExpiringSoonBucket(table, today), ExpiredBucket(table, today);
      IdsIdentifyRows(table, soon, a);
      IdsIdentifyRows(table, expired, a);
      assert a.id in excluded <==> a.id in Ids(soon) || a.id in Ids(expired);
      assert a.id in excluded <==> DaysLeft(a, today) <= SOON_DAYS;
    }
  }

  /** Each account of the table falls in exactly one bucket, and the buckets together are the table. */
  lemma ListingPartition(table: seq<Account>, today: Date)
    requires UniqueIds(table)
    ensures forall a :: a in table ==>
      ExactlyOne(a in ExpiredBucket(table, today), a in ExpiringSoonBucket(table, today), a in OtherBucket(table, today))
    ensures multiset(ExpiredBucket(table, today)) + multiset(ExpiringSoonBucket(table, today))
            + multiset(OtherBucket(table, today)) == multiset(table)
  {
    var excluded := Not(IdIn(ExcludedIds(table, today)));
    forall a | a in table
      ensures ExactlyOne(a in ExpiredBucket(table, today), a in ExpiringSoonBucket(table, today), a in OtherBucket(table, today))
      ensures ExactlyOne(Holds(a, ExpiredCondition(today)), Holds(a, ExpiringSoonCondition(today)), Holds(a, excluded))
    {
      OtherBucketMembers(table, today, a);
    }
    WherePartition(table, ExpiredCondition(today), ExpiringSoonCondition(today), excluded);
  }

  /** The messages of the expired bucket use the expired template; all others the active one. */
  lemma BucketTemplates(table: seq<Account>, today: Date)
    requires UniqueIds(table)
    ensures forall a :: a in ExpiredBucket(table, today) ==>
      ReadMessage(GenerateMessage(a, today)) == Some(Reading(true, a.expirationDate))
    ensures forall a :: a in ExpiringSoonBucket(table, today) ==>
      ReadMessage(GenerateMessage(a, today)) == Some(Reading(false, a.expirationDate))
    ensures forall a :: a in OtherBucket(table, today) ==>
      ReadMessage(GenerateMessage(a, today)) == Some(Reading(false, a.expirationDate))
  {
    forall a | a in ExpiredBucket(table, today)
      ensures ReadMessage(GenerateMessage(a, today)) == Some(Reading(true, a.expirationDate))
    {
      MessageRoundTrip(a, today);
    }
    forall a | a in ExpiringSoonBucket(table, today)
      ensures ReadMessage(GenerateMessage(a, today)) == Some(Reading(false, a.expirationDate))
    {
      MessageRoundTrip(a, today);
    }
    forall a | a in OtherBucket(table, today)
      ensures ReadMessage(GenerateMessage(a, today)) == Some(Reading(false, a.expirationDate))
    {
      OtherBucketMembers(table, today, a);
      MessageRoundTrip(a, today);
    }
  }

  /** A model instance as a query hands it out: the row's values and the attribute the view sets. */
  class Row {
    const account: Account
    var message: Option<string>

    constructor (account: Account)
      ensures this.account == account && message == None
    {
      this.account := account;
      message := None;
    }
  }

  /** The rows' values, in order. */
  function AccountsOf(rows: seq<Row>): (r: seq<Account>)
    ensures |r| == |rows| && forall i :: 0 <= i < |rows| ==> r[i] == rows[i].account
  {
    seq(|rows|, i requires 0 <= i < |rows| => rows[i].account)
  }

  /** Evaluating a queryset: one new instance per row, without a message yet. */
  method Fetch(accounts: seq<Account>) returns (rows: seq<Row>)
    ensures AccountsOf(rows) == accounts
    ensures forall r :: r in rows ==> fresh(r) && r.message == None
    ensures forall i, j :: 0 <= i < j < |rows| ==> rows[i] != rows[j]
  {
    rows := [];
    for i := 0 to |accounts|
      invariant AccountsOf(rows) == accounts[..i]
      invariant forall r :: r in rows ==> fresh(r) && r.message == None
      invariant forall i, j :: 0 <= i < j < |rows| ==> rows[i] != rows[j]
    {
      var row := new Row(accounts[i]);
      rows := rows + [row];
    }
  }

  /** `for account in ...: account.message = generate_message(account)`. */
  method AttachMessages(rows: seq<Row>, today: Date)
    modifies set r | r in rows
    ensures forall r :: r in rows ==> r.message == Some(GenerateMessage(r.account, today))
  {
    for i := 0 to |rows|
      invariant forall k :: 0 <= k < i ==> rows[k].message == Some(GenerateMessage(rows[k].account, today))
    {
      rows[i].message := Some(GenerateMessage(rows[i].account, today));
    }
  }

  /**
   * `account_list`: the three buckets, fetched in the order the view
   * evaluates them, each row carrying its reminder message.
   */
  method AccountList(table: seq<Account>, today: Date) returns (expiringSoon: seq<Row>, expired: seq<Row>, other: seq<Row>)
    ensures AccountsOf(expiringSoon) == ExpiringSoonBucket(table, today)
    ensures AccountsOf(expired) == ExpiredBucket(table, today)
    ensures AccountsOf(other) == OtherBucket(table, today)
    ensures forall r :: r in expiringSoon ==> r.message == Some(GenerateMessage(r.account, today))
    ensures forall r :: r in expired ==> r.message == Some(GenerateMessage(r.account, today))
    ensures forall r :: r in other ==> r.message == Some(GenerateMessage(r.account, today))
  {
    expiringSoon := Fetch(ExpiringSoonBucket(table, today));
    expired := Fetch(ExpiredBucket(table, today));
    other := Fetch(OtherBucket(table, today));
    AttachMessages(expiringSoon, today);
    AttachMessages(expired, today);
    AttachMessages(other, today);
  }
}
