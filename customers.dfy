/**
 * The `stripe_customers` table: one row per internal account, mapping the
 * account (`user_id`) to the payment provider's customer (`customer_id`).
 * The webhook reads it by customer id with `.single()`, the checkout
 * initiator by user id with `.maybeSingle()`; both hand back data only when
 * exactly one row matches (none is "not found", more than one is an error
 * whose data is null).
 */
module CustomerDirectory {
  import opened Wrappers

  type UserId = string
  type CustomerId = string

  datatype Mapping = Mapping(userId: UserId, customerId: CustomerId)

  /** Both columns are unique: no two rows share a user id or a customer id. */
  ghost predicate Unique(rows: seq<Mapping>) {
    forall i, j :: 0 <= i < j < |rows| ==>
      rows[i].userId != rows[j].userId && rows[i].customerId != rows[j].customerId
  }

  /** The `user_id` of every row whose `customer_id` is `c`, in table order. */
  function UsersOf(rows: seq<Mapping>, c: CustomerId): (users: seq<UserId>)
    ensures |users| <= |rows|
    ensures forall u :: u in users <==> Mapping(u, c) in rows
    ensures (forall u :: Mapping(u, c) !in rows) ==> users == []
  {
    if rows == [] then []
    else
      var rest := UsersOf(rows[..|rows| - 1], c);
      var last := rows[|rows| - 1];
      assert rows == rows[..|rows| - 1] + [last];
      if last.customerId == c then rest + [last.userId] else rest
  }

  /** The `customer_id` of every row whose `user_id` is `u`, in table order. */
  function CustomersOf(rows: seq<Mapping>, u: UserId): (customers: seq<CustomerId>)
    ensures |customers| <= |rows|
    ensures forall c :: c in customers <==> Mapping(u, c) in rows
    ensures (forall c :: Mapping(u, c) !in rows) ==> customers == []
  {
    if rows == [] then []
    else
      var rest := CustomersOf(rows[..|rows| - 1], u);
      var last := rows[|rows| - 1];
      assert rows == rows[..|rows| - 1] + [last];
      if last.userId == u then rest + [last.customerId] else rest
  }

  /** `.select('user_id').eq('customer_id', c).single()`. */
  function UserOfCustomer(rows: seq<Mapping>, c: CustomerId): (r: Option<UserId>)
    ensures r.Some? ==> Mapping(r.value, c) in rows
  {
    var users := UsersOf(rows, c);
    if |users| == 1 then Some(users[0]) else None
  }

  /** `.select('customer_id').eq('user_id', u).maybeSingle()`. */
  function CustomerOfUser(rows: seq<Mapping>, u: UserId): (r: Option<CustomerId>)
    ensures r.Some? ==> Mapping(u, r.value) in rows
  {
    var customers := CustomersOf(rows, u);
    if |customers| == 1 then Some(customers[0]) else None
  }

  /** In a table with unique columns a present customer id matches exactly one row. */
  lemma {:induction false} UniqueHasOneUser(rows: seq<Mapping>, c: CustomerId)
    requires Unique(rows)
    ensures |UsersOf(rows, c)| <= 1
    ensures (exists u :: Mapping(u, c) in rows) ==> |UsersOf(rows, c)| == 1
  {
    if rows != [] {
      var init := rows[..|rows| - 1];
      var last := rows[|rows| - 1];
      assert rows == init + [last];
      assert Unique(init);
      UniqueHasOneUser(init, c);
      if last.customerId == c {
        forall i | 0 <= i < |init| ensures init[i].customerId != last.customerId {
          assert rows[i].customerId != rows[|rows| - 1].customerId;
        }
        assert forall x :: Mapping(x, c) !in init;
      }
    }
  }

  /** In a table with unique columns a present user id matches exactly one row. */
  lemma {:induction false} UniqueHasOneCustomer(rows: seq<Mapping>, u: UserId)
    requires Unique(rows)
    ensures |CustomersOf(rows, u)| <= 1
    ensures (exists c :: Mapping(u, c) in rows) ==> |CustomersOf(rows, u)| == 1
  {
    if rows != [] {
      var init := rows[..|rows| - 1];
      var last := rows[|rows| - 1];
      assert rows == init + [last];
      assert Unique(init);
      UniqueHasOneCustomer(init, u);
      if last.userId == u {
        forall i | 0 <= i < |init| ensures init[i].userId != last.userId {
          assert rows[i].userId != rows[|rows| - 1].userId;
        }
        assert forall x :: Mapping(u, x) !in init;
      }
    }
  }

  /** In a table with unique columns the two lookups find exactly the rows that exist. */
  lemma LookupsFindRows(rows: seq<Mapping>, u: UserId, c: CustomerId)
    requires Unique(rows)
    ensures UserOfCustomer(rows, c) == Some(u) <==> Mapping(u, c) in rows
    ensures CustomerOfUser(rows, u) == Some(c) <==> Mapping(u, c) in rows
  {
    UniqueHasOneUser(rows, c);
    UniqueHasOneCustomer(rows, u);
    if Mapping(u, c) in rows {
      assert u in UsersOf(rows, c);
      assert c in CustomersOf(rows, u);
    }
  }

  /** An insert is refused when it would break either uniqueness constraint. */
  predicate Insertable(rows: seq<Mapping>, m: Mapping) {
    forall k :: 0 <= k < |rows| ==> rows[k].userId != m.userId && rows[k].customerId != m.customerId
  }

  /** `.insert(m)`: the new table, or None when the database refuses the row. */
  function Insert(rows: seq<Mapping>, m: Mapping): (r: Option<seq<Mapping>>)
    ensures r.Some? <==> Insertable(rows, m)
    ensures r.Some? ==> |r.value| == |rows| + 1 && r.value[..|rows|] == rows && r.value[|rows|] == m
    ensures r.Some? && Unique(rows) ==> Unique(r.value)
  {
    if Insertable(rows, m) then Some(rows + [m]) else None
  }

  /** A mapping the database accepted is what both lookups find afterwards. */
  lemma InsertedMappingIsFound(rows: seq<Mapping>, m: Mapping)
    requires Unique(rows) && Insertable(rows, m)
    ensures Insert(rows, m).Some?
    ensures CustomerOfUser(Insert(rows, m).value, m.userId) == Some(m.customerId)
    ensures UserOfCustomer(Insert(rows, m).value, m.customerId) == Some(m.userId)
  {
    var after := Insert(rows, m).value;
    assert after[|rows|] == m;
    LookupsFindRows(after, m.userId, m.customerId);
  }
}
