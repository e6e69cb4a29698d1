/**
 * The in-memory store behind the API: users and transactions, each kept in
 * a JavaScript `Map`, which remembers insertion order. Generated ids and the
 * clock are parameters here.
 */
module Storage {
  import opened Wrappers
  import opened Schema

  /** The listing limit when the caller gives none. */
  const DefaultListLimit: nat := 50

  // ---------------------------------------------------------------------------
  // Records made on insertion

  /** The insert record with `?? null` applied: absent nullable fields become null. */
  function Normalised(ins: InsertTransaction): (n: InsertTransaction)
    ensures n.fuelSurchargeType != Missing && n.fuelSurchargeAmount != Missing && n.breakdown != Missing
  {
    ins.(fuelSurchargeType := ToNullish(ins.fuelSurchargeType.OrNull()),
         fuelSurchargeAmount := ToNullish(ins.fuelSurchargeAmount.OrNull()),
         breakdown := ToNullish(ins.breakdown.OrNull()))
  }

  /** The record `createTransaction` stores: the insert fields, the generated
      id and timestamp, and null for each absent nullable field. */
  function NewTransaction(ins: InsertTransaction, id: string, createdAt: int): (t: Transaction)
    ensures t.id == id && t.createdAt == createdAt
    ensures ins.fuelSurchargeType.Missing? ==> t.fuelSurchargeType.None?
    ensures ins.fuelSurchargeAmount.Missing? ==> t.fuelSurchargeAmount.None?
    ensures ins.breakdown.Missing? ==> t.breakdown.None?
  {
    Transaction(id, ins.baseFare, ins.costPerMile, ins.costPerMinute, ins.distance, ins.duration,
                ins.fuelType, ins.mpg, ins.gasPrice, ins.fuelSurchargeType.OrNull(),
                ins.fuelSurchargeAmount.OrNull(), ins.fareModel, ins.totalFare, ins.fuelCost,
                ins.breakdown.OrNull(), createdAt)
  }

  /** A stored record is its insert record plus id and timestamp: dropping those
      gives back every insert field, and adding them back gives back the record. */
  lemma NewTransactionCarriesInsert(ins: InsertTransaction, id: string, createdAt: int, t: Transaction)
    ensures InsertPart(NewTransaction(ins, id, createdAt)) == Normalised(ins)
    ensures NewTransaction(InsertPart(t), t.id, t.createdAt) == t
  {
  }

  // ---------------------------------------------------------------------------
  // Listing order

  predicate Distinct<K(==)>(ks: seq<K>) {
    forall i, j :: 0 <= i < j < |ks| ==> ks[i] != ks[j]
  }

  /** Newest first: `createdAt` never increases along the sequence. */
  predicate NewestFirst(ts: seq<Transaction>) {
    forall i, j :: 0 <= i < j < |ts| ==> ts[i].createdAt >= ts[j].createdAt
  }

  /** Places `t` before the first record that is no newer than it, so that among
      records with equal timestamps the earlier input stays first. */
  function InsertByTime(t: Transaction, sorted: seq<Transaction>): (r: seq<Transaction>)
    ensures multiset(r) == multiset(sorted) + multiset{t}
    ensures |r| == |sorted| + 1
  {
    if sorted == [] then [t]
    else if sorted[0].createdAt <= t.createdAt then [t] + sorted
    else
      assert sorted == [sorted[0]] + sorted[1..];
      [sorted[0]] + InsertByTime(t, sorted[1..])
  }

  lemma {:induction false} InsertByTimeKeepsOrder(t: Transaction, sorted: seq<Transaction>)
    requires NewestFirst(sorted)
    ensures NewestFirst(InsertByTime(t, sorted))
  {
    if sorted != [] && sorted[0].createdAt > t.createdAt {
      var rest := InsertByTime(t, sorted[1..]);
      InsertByTimeKeepsOrder(t, sorted[1..]);
      forall k | 0 <= k < |rest| ensures sorted[0].createdAt >= rest[k].createdAt {
        assert rest[k] in multiset(sorted[1..]) + multiset{t};
        if rest[k] != t {
          assert rest[k] in sorted[1..];
        }
      }
    }
  }

  /** The stable sort by `createdAt`, newest first, that the listing applies to
      its copy of the stored records. */
  function SortNewestFirst(ts: seq<Transaction>): (r: seq<Transaction>)
    ensures NewestFirst(r)
    ensures multiset(r) == multiset(ts)
    ensures |r| == |ts|
  {
    if ts == [] then []
    else
      assert ts == [ts[0]] + ts[1..];
      var rest := SortNewestFirst(ts[1..]);
      InsertByTimeKeepsOrder(ts[0], rest);
      InsertByTime(ts[0], rest)
  }

  /** `sort(...).slice(0, limit)`: at most `limit` records, newest first, each one
      stored, none older than a record left out, and all of them when the limit
      is at least the store's size. */
  function Listing(ts: seq<Transaction>, limit: nat): (r: seq<Transaction>)
    ensures |r| <= limit && |r| <= |ts|
    ensures |r| == if limit < |ts| then limit else |ts|
    ensures NewestFirst(r)
    ensures multiset(r) <= multiset(ts)
    ensures limit >= |ts| ==> multiset(r) == multiset(ts)
    ensures forall x, y :: x in r && y in multiset(ts) - multiset(r) ==> x.createdAt >= y.createdAt
  {
    var sorted := SortNewestFirst(ts);
    var n := if limit < |ts| then limit else |ts|;
    assert sorted == sorted[..n] + sorted[n..];
    assert multiset(sorted) == multiset(sorted[..n]) + multiset(sorted[n..]);
    PrefixIsNewest(sorted, n);
    sorted[..n]
  }

  /** A prefix of a newest-first sequence holds no record older than one after it. */
  lemma PrefixIsNewest(sorted: seq<Transaction>, n: nat)
    requires NewestFirst(sorted) && n <= |sorted|
    ensures forall x, y :: x in sorted[..n] && y in multiset(sorted) - multiset(sorted[..n]) ==> x.createdAt >= y.createdAt
  {
    assert sorted == sorted[..n] + sorted[n..];
    assert multiset(sorted) - multiset(sorted[..n]) == multiset(sorted[n..]);
    forall x, y | x in sorted[..n] && y in multiset(sorted[n..]) ensures x.createdAt >= y.createdAt {
      var i :| 0 <= i < n && sorted[..n][i] == x;
      assert y in sorted[n..];
      var j :| 0 <= j < |sorted| - n && sorted[n..][j] == y;
      assert sorted[i] == x && sorted[n + j] == y;
    }
  }

  /** In a sequence whose records have distinct ids each record occurs once. */
  lemma {:induction false} OccursOnce(ts: seq<Transaction>, i: nat)
    requires i < |ts|
    requires forall a, b :: 0 <= a < b < |ts| ==> ts[a].id != ts[b].id
    ensures multiset(ts)[ts[i]] == 1
  {
    assert ts == [ts[0]] + ts[1..];
    if i == 0 {
      assert ts[0] !in ts[1..];
    } else {
      OccursOnce(ts[1..], i - 1);
      assert ts[0] != ts[i];
    }
  }

  // ---------------------------------------------------------------------------
  // The store

  /** A map's values listed in the order of the given keys. */
  function ValuesInOrder<K, V>(order: seq<K>, m: map<K, V>): (vs: seq<V>)
    requires forall k :: k in order ==> k in m
    ensures |vs| == |order|
    ensures forall i :: 0 <= i < |order| ==> vs[i] == m[order[i]]
  {
    if order == [] then [] else [m[order[0]]] + ValuesInOrder(order[1..], m)
  }

  class MemStorage {
    var users: map<string, User>
    var userOrder: seq<string>
    var transactions: map<string, Transaction>
    var transactionOrder: seq<string>

    /** Each map's keys in insertion order, each record filed under its own id. */
    ghost predicate Valid()
      reads this
    {
      && Distinct(userOrder) && (forall k :: k in userOrder <==> k in users)
      && (forall k :: k in users ==> users[k].id == k)
      && Distinct(transactionOrder) && (forall k :: k in transactionOrder <==> k in transactions)
      && (forall k :: k in transactions ==> transactions[k].id == k)
    }

    constructor ()
      ensures Valid()
      ensures users == map[] && transactions == map[]
    {
      users := map[];
      userOrder := [];
      transactions := map[];
      transactionOrder := [];
    }

    /** `Array.from(this.transactions.values())`. */
    function AllTransactions(): (ts: seq<Transaction>)
      reads this
      requires Valid()
      ensures |ts| == |transactionOrder|
      ensures forall i :: 0 <= i < |ts| ==> ts[i] == transactions[transactionOrder[i]]
    {
      ValuesInOrder(transactionOrder, transactions)
    }

    /** `Array.from(this.users.values())`. */
    function AllUsers(): (us: seq<User>)
      reads this
      requires Valid()
      ensures |us| == |userOrder|
      ensures forall i :: 0 <= i < |us| ==> us[i] == users[userOrder[i]]
    {
      ValuesInOrder(userOrder, users)
    }

    method GetUser(id: string) returns (r: Option<User>)
      ensures r.Some? <==> id in users
      ensures r.Some? ==> r.value == users[id]
    {
      r := if id in users then Some(users[id]) else None;
    }

    /** The first user, in insertion order, with the given name. */
    method GetUserByUsername(username: string) returns (r: Option<User>)
      requires Valid()
      ensures r.Some? ==> r.value.id in users && users[r.value.id] == r.value && r.value.username == username
      ensures r.None? <==> forall k :: k in users ==> users[k].username != username
      ensures r.Some? ==> exists i :: (0 <= i < |userOrder| && userOrder[i] == r.value.id
                                       && forall j :: 0 <= j < i ==> users[userOrder[j]].username != username)
    {
      r := FindByUsername(AllUsers(), username);
      if r.None? {
        forall k | k in users ensures users[k].username != username {
          var i :| 0 <= i < |userOrder| && userOrder[i] == k;
          assert AllUsers()[i] == users[k];
        }
      }
    }

    method CreateUser(insertUser: InsertUser, id: string) returns (u: User)
      requires Valid() && id !in users
      modifies this`users, this`userOrder
      ensures Valid()
      ensures u == User(id, insertUser.username, insertUser.password)
      ensures users == old(users)[id := u] && userOrder == old(userOrder) + [id]
    {
      u := User(id, insertUser.username, insertUser.password);
      users := users[id := u];
      userOrder := userOrder + [id];
    }

    /** Stores a new record under the fresh id; nothing else changes. */
    method CreateTransaction(insertTransaction: InsertTransaction, id: string, now: int) returns (t: Transaction)
      requires Valid() && id !in transactions
      modifies this`transactions, this`transactionOrder
      ensures Valid()
      ensures t == NewTransaction(insertTransaction, id, now)
      ensures transactions == old(transactions)[id := t] && transactionOrder == old(transactionOrder) + [id]
      ensures |transactions| == |old(transactions)| + 1
      ensures forall k :: k in old(transactions) ==> k in transactions && transactions[k] == old(transactions)[k]
    {
      t := NewTransaction(insertTransaction, id, now);
      transactions := transactions[id := t];
      transactionOrder := transactionOrder + [id];
    }

    method GetTransaction(id: string) returns (r: Option<Transaction>)
      ensures r.Some? <==> id in transactions
      ensures r.Some? ==> r.value == transactions[id] && (Valid() ==> r.value.id == id)
    {
      r := if id in transactions then Some(transactions[id]) else None;
    }

    /** The newest `limit` records, newest first (the caller's default is 50):
        no stored record left out is newer than one listed. */
    method GetAllTransactions(limit: nat := DefaultListLimit) returns (r: seq<Transaction>)
      requires Valid()
      ensures r == Listing(AllTransactions(), limit)
      ensures |r| <= limit && NewestFirst(r)
      ensures forall t :: t in r ==> t.id in transactions && transactions[t.id] == t
      ensures limit >= |transactions| ==> forall k :: k in transactions ==> multiset(r)[transactions[k]] == 1
      ensures forall x, k :: x in r && k in transactions && transactions[k] !in r ==>
        x.createdAt >= transactions[k].createdAt
    {
      r := Listing(AllTransactions(), limit);
      ListedAreStored(limit);
      ListingKeepsNewest(limit);
      if limit >= |transactions| {
        ListingComplete(limit);
      }
    }

    lemma ListedAreStored(limit: nat)
      requires Valid()
      ensures forall t :: t in Listing(AllTransactions(), limit) ==> t.id in transactions && transactions[t.id] == t
    {
      var all := AllTransactions();
      var r := Listing(all, limit);
      forall t | t in r ensures t.id in transactions && transactions[t.id] == t {
        assert t in multiset(all);
        var i :| 0 <= i < |all| && all[i] == t;
      }
    }

    /** A stored record left out of the listing is no newer than any listed one. */
    lemma ListingKeepsNewest(limit: nat)
      requires Valid()
      ensures forall x, k ::
        (x in Listing(AllTransactions(), limit) && k in transactions
         && transactions[k] !in Listing(AllTransactions(), limit)) ==> x.createdAt >= transactions[k].createdAt
    {
      var all := AllTransactions();
      var r := Listing(all, limit);
      forall x, k | x in r && k in transactions && transactions[k] !in r
        ensures x.createdAt >= transactions[k].createdAt
      {
        var i :| 0 <= i < |transactionOrder| && transactionOrder[i] == k;
        assert all[i] == transactions[k];
        assert transactions[k] in multiset(all) - multiset(r);
      }
    }

    lemma ListingComplete(limit: nat)
      requires Valid() && limit >= |transactions|
      ensures forall k :: k in transactions ==> multiset(Listing(AllTransactions(), limit))[transactions[k]] == 1
    {
      var all := AllTransactions();
      KeysCount();
      forall k | k in transactions ensures multiset(all)[transactions[k]] == 1 {
        var i :| 0 <= i < |transactionOrder| && transactionOrder[i] == k;
        OccursOnce(all, i);
      }
    }

    /** As many keys in insertion order as records. */
    lemma KeysCount()
      requires Valid()
      ensures |transactionOrder| == |transactions|
    {
      DistinctCardinality(transactionOrder);
      assert (set k | k in transactionOrder) == transactions.Keys;
    }
  }

  lemma {:induction false} DistinctCardinality<K>(ks: seq<K>)
    requires Distinct(ks)
    ensures |set k | k in ks| == |ks|
  {
    if ks != [] {
      DistinctCardinality(ks[1..]);
      assert (set k | k in ks) == (set k | k in ks[1..]) + {ks[0]};
      assert ks[0] !in (set k | k in ks[1..]);
    }
  }

  /** `find` over the users in insertion order. */
  function FindByUsername(us: seq<User>, username: string): (r: Option<User>)
    ensures r.Some? ==> r.value.username == username
    ensures r.Some? ==> exists i :: (0 <= i < |us| && us[i] == r.value
                                     && forall j :: 0 <= j < i ==> us[j].username != username)
    ensures r.None? ==> forall i :: 0 <= i < |us| ==> us[i].username != username
  {
    if us == [] then None
    else if us[0].username == username then Some(us[0])
    else
      var r := FindByUsername(us[1..], username);
      if r.Some? then
        var i :| 0 <= i < |us[1..]| && us[1..][i] == r.value
          && forall j :: 0 <= j < i ==> us[1..][j].username != username;
        assert us[i + 1] == r.value;
        r
      else r
  }

  /** A record just created is found under its id; an id never used is not. */
  method CreateThenGet(store: MemStorage, ins: InsertTransaction, id: string, now: int, other: string)
    returns (created: Transaction, fetched: Option<Transaction>, missing: Option<Transaction>)
    requires store.Valid() && id !in store.transactions && other !in store.transactions && other != id
    modifies store`transactions, store`transactionOrder
    ensures fetched == Some(created) && missing == None
  {
    created := store.CreateTransaction(ins, id, now);
    fetched := store.GetTransaction(id);
    missing := store.GetTransaction(other);
  }
}
