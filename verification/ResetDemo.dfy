/**
 * The demo reset: delete one tenant's runtime rows from nine tables, in
 * batches of at most 25 keys, and leave everything else alone.
 */
module ResetDemo {
  import opened Basics

  const TENANT_PK_PREFIX: Id := TENANT_ID + "#"
  const BATCH := 25

  /** `hash` is the tenant id or the pk, `range` the sort key. */
  datatype Key = Key(hash: Id, range: Id)

  type Rows = map<Key, string>

  /** The nine runtime tables; `kept` stands for the seed-data tables. */
  datatype Data = Data(negotiations: Rows, bids: Rows, awards: Rows, masterRequisitions: Rows,
                       requisitions: Rows, orders: Rows, testTenantOrders: Rows,
                       communications: Rows, sessionCache: Rows, kept: Rows)

  datatype Counts = Counts(negotiations: nat, bids: nat, awards: nat, masterRequisitions: nat,
                           requisitions: nat, orders: nat, testTenantOrders: nat,
                           communications: nat, sessionCache: nat)

  const ZERO := Counts(0, 0, 0, 0, 0, 0, 0, 0, 0)

  // ---------------------------------------------------------------- which rows belong to the tenant

  function OfTenant(rows: Rows): set<Key> {
    set k | k in rows && k.hash == TENANT_ID
  }

  function WithTenantPrefix(rows: Rows): set<Key> {
    set k | k in rows && TENANT_PK_PREFIX <= k.hash
  }

  /** The negotiation ids a reset captures before it deletes anything. */
  function NegotiationIds(negotiations: Rows): set<Id> {
    set k | k in negotiations && k.hash == TENANT_ID && Truthy(k.range) :: k.range
  }

  predicate BelongsToTenant(pk: Id, negotiationIds: set<Id>) {
    pk in negotiationIds || TENANT_PK_PREFIX <= pk || TENANT_ID <= pk
  }

  function TenantCommunications(rows: Rows, negotiationIds: set<Id>): set<Key> {
    set k | k in rows && BelongsToTenant(k.hash, negotiationIds)
  }

  function Reset(d: Data): Data {
    d.(negotiations := d.negotiations - OfTenant(d.negotiations),
       bids := d.bids - OfTenant(d.bids),
       awards := d.awards - OfTenant(d.awards),
       masterRequisitions := d.masterRequisitions - OfTenant(d.masterRequisitions),
       requisitions := d.requisitions - WithTenantPrefix(d.requisitions),
       orders := d.orders - WithTenantPrefix(d.orders),
       testTenantOrders := d.testTenantOrders - WithTenantPrefix(d.testTenantOrders),
       communications := d.communications - TenantCommunications(d.communications, NegotiationIds(d.negotiations)),
       sessionCache := map[])
  }

  function ResetCounts(d: Data): Counts {
    Counts(|OfTenant(d.negotiations)|, |OfTenant(d.bids)|, |OfTenant(d.awards)|, |OfTenant(d.masterRequisitions)|,
           |WithTenantPrefix(d.requisitions)|, |WithTenantPrefix(d.orders)|, |WithTenantPrefix(d.testTenantOrders)|,
           |TenantCommunications(d.communications, NegotiationIds(d.negotiations))|, |d.sessionCache.Keys|)
  }

  // ---------------------------------------------------------------- what a reset achieves

  ghost predicate NoTenantRows(d: Data, negotiationIds: set<Id>) {
    && OfTenant(d.negotiations) == {} && OfTenant(d.bids) == {} && OfTenant(d.awards) == {}
    && OfTenant(d.masterRequisitions) == {}
    && WithTenantPrefix(d.requisitions) == {} && WithTenantPrefix(d.orders) == {}
    && WithTenantPrefix(d.testTenantOrders) == {}
    && TenantCommunications(d.communications, negotiationIds) == {}
    && d.sessionCache == map[]
  }

  /** `after` has lost exactly the rows in `gone`, and changed none. */
  ghost predicate Loses(before: Rows, after: Rows, gone: set<Key>) {
    forall k :: (k in after <==> k in before && k !in gone) && (k in after ==> after[k] == before[k])
  }

  /**
   * No runtime row of the tenant is left, counting communications keyed only
   * by a negotiation id that existed at the start; every other row, and every
   * other table, is unchanged.
   */
  ghost predicate CompleteAndFramed(d: Data, r: Data) {
    var ids := NegotiationIds(d.negotiations);
    && NoTenantRows(r, ids)
    && Loses(d.negotiations, r.negotiations, OfTenant(d.negotiations))
    && Loses(d.bids, r.bids, OfTenant(d.bids))
    && Loses(d.awards, r.awards, OfTenant(d.awards))
    && Loses(d.masterRequisitions, r.masterRequisitions, OfTenant(d.masterRequisitions))
    && Loses(d.requisitions, r.requisitions, WithTenantPrefix(d.requisitions))
    && Loses(d.orders, r.orders, WithTenantPrefix(d.orders))
    && Loses(d.testTenantOrders, r.testTenantOrders, WithTenantPrefix(d.testTenantOrders))
    && Loses(d.communications, r.communications, TenantCommunications(d.communications, ids))
    && r.kept == d.kept
  }

  // ---------------------------------------------------------------- row by row, from the keys alone

  /** Exactly the rows that `stays` holds of are left, unchanged, and the count is of the others. */
  ghost predicate LeavesExactly(before: Rows, after: Rows, stays: Key -> bool, count: nat) {
    && (forall k :: k in after <==> k in before && stays(k))
    && (forall k | k in after :: after[k] == before[k])
    && count == |before.Keys - after.Keys|
  }

  /** The pk is the tenant's id, a hash sign and anything. */
  ghost predicate HasTenantPrefix(pk: Id) {
    exists rest: Id :: pk == TENANT_ID + "#" + rest
  }

  /** The pk starts with the tenant's id, or is the id of a negotiation row the tenant had. */
  ghost predicate IsTenantCommunication(pk: Id, negotiations: Rows) {
    || (exists rest: Id :: pk == TENANT_ID + rest)
    || (pk != "" && exists k | k in negotiations :: k.hash == TENANT_ID && k.range == pk)
  }

  /** What a reset does to each row of each table, and what it reports. */
  ghost predicate ResetRowByRow(d: Data, r: Data, c: Counts) {
    && LeavesExactly(d.negotiations, r.negotiations, (k: Key) => k.hash != TENANT_ID, c.negotiations)
    && LeavesExactly(d.bids, r.bids, (k: Key) => k.hash != TENANT_ID, c.bids)
    && LeavesExactly(d.awards, r.awards, (k: Key) => k.hash != TENANT_ID, c.awards)
    && LeavesExactly(d.masterRequisitions, r.masterRequisitions, (k: Key) => k.hash != TENANT_ID, c.masterRequisitions)
    && LeavesExactly(d.requisitions, r.requisitions, (k: Key) => !HasTenantPrefix(k.hash), c.requisitions)
    && LeavesExactly(d.orders, r.orders, (k: Key) => !HasTenantPrefix(k.hash), c.orders)
    && LeavesExactly(d.testTenantOrders, r.testTenantOrders, (k: Key) => !HasTenantPrefix(k.hash), c.testTenantOrders)
    && LeavesExactly(d.communications, r.communications, (k: Key) => !IsTenantCommunication(k.hash, d.negotiations), c.communications)
    && LeavesExactly(d.sessionCache, r.sessionCache, (k: Key) => false, c.sessionCache)
    && r.kept == d.kept
  }

  lemma StartsWith(s: Id, prefix: Id)
    ensures prefix <= s <==> exists rest: Id :: s == prefix + rest
  {
    if prefix <= s { assert s == prefix + s[|prefix|..]; }
  }

  lemma Leaves(rows: Rows, gone: set<Key>, stays: Key -> bool)
    requires gone <= rows.Keys && forall k | k in rows :: k in gone <==> !stays(k)
    ensures LeavesExactly(rows, rows - gone, stays, |gone|)
  {
    assert rows.Keys - (rows - gone).Keys == gone;
  }

  lemma HashRows(rows: Rows)
    ensures LeavesExactly(rows, rows - OfTenant(rows), (k: Key) => k.hash != TENANT_ID, |OfTenant(rows)|)
  {
    Leaves(rows, OfTenant(rows), (k: Key) => k.hash != TENANT_ID);
  }

  lemma PrefixRows(rows: Rows)
    ensures LeavesExactly(rows, rows - WithTenantPrefix(rows), (k: Key) => !HasTenantPrefix(k.hash), |WithTenantPrefix(rows)|)
  {
    forall k | k in rows ensures TENANT_PK_PREFIX <= k.hash <==> HasTenantPrefix(k.hash) { StartsWith(k.hash, TENANT_PK_PREFIX); }
    Leaves(rows, WithTenantPrefix(rows), (k: Key) => !HasTenantPrefix(k.hash));
  }

  lemma CommunicationRows(rows: Rows, negotiations: Rows)
    ensures var gone := TenantCommunications(rows, NegotiationIds(negotiations));
      LeavesExactly(rows, rows - gone, (k: Key) => !IsTenantCommunication(k.hash, negotiations), |gone|)
  {
    var ids := NegotiationIds(negotiations);
    forall k | k in rows ensures BelongsToTenant(k.hash, ids) <==> IsTenantCommunication(k.hash, negotiations) {
      StartsWith(k.hash, TENANT_ID);
      assert TENANT_PK_PREFIX <= k.hash ==> TENANT_ID <= k.hash;
    }
    Leaves(rows, TenantCommunications(rows, ids), (k: Key) => !IsTenantCommunication(k.hash, negotiations));
  }

  /** The reset, row by row: which keys are left is decided by the keys as they were, and the counts are of the rows lost. */
  lemma ResetIsRowByRow(d: Data)
    ensures ResetRowByRow(d, Reset(d), ResetCounts(d))
  {
    hide OfTenant, WithTenantPrefix, TenantCommunications, NegotiationIds, LeavesExactly;
    HashRows(d.negotiations);
    HashRows(d.bids);
    HashRows(d.awards);
    HashRows(d.masterRequisitions);
    PrefixRows(d.requisitions);
    PrefixRows(d.orders);
    PrefixRows(d.testTenantOrders);
    CommunicationRows(d.communications, d.negotiations);
    CacheRows(d.sessionCache);
  }

  lemma CacheRows(rows: Rows)
    ensures LeavesExactly(rows, map[], (k: Key) => false, |rows.Keys|)
  {
    assert rows.Keys - {} == rows.Keys;
  }

  lemma ResetIsCompleteAndFramed(d: Data)
    ensures CompleteAndFramed(d, Reset(d))
  {
  }

  /** A second reset finds nothing and changes nothing. */
  lemma ResetIsIdempotent(d: Data)
    ensures Reset(Reset(d)) == Reset(d) && ResetCounts(Reset(d)) == ZERO
  {
    var r, ids := Reset(d), NegotiationIds(d.negotiations);
    ResetIsCompleteAndFramed(d);
    NothingLeft(r, ids);
  }

  /** Fewer captured ids can only match fewer communications. */
  lemma NothingLeft(r: Data, ids: set<Id>)
    requires NoTenantRows(r, ids)
    ensures Reset(r) == r && ResetCounts(r) == ZERO
  {
    NoIdsLeft(r.negotiations);
    FewerIdsMatchLess(r.communications, ids);
    hide OfTenant, WithTenantPrefix, TenantCommunications, NegotiationIds;
    LoseNothing(r.negotiations);
    LoseNothing(r.bids);
    LoseNothing(r.awards);
    LoseNothing(r.masterRequisitions);
    LoseNothing(r.requisitions);
    LoseNothing(r.orders);
    LoseNothing(r.testTenantOrders);
    LoseNothing(r.communications);
  }

  lemma LoseNothing(rows: Rows)
    ensures rows - {} == rows
  {
  }

  lemma FewerIdsMatchLess(rows: Rows, ids: set<Id>)
    ensures TenantCommunications(rows, {}) <= TenantCommunications(rows, ids)
  {
  }

  lemma NoIdsLeft(negotiations: Rows)
    requires OfTenant(negotiations) == {}
    ensures NegotiationIds(negotiations) == {}
  {
    forall k | k in negotiations ensures k.hash != TENANT_ID {
      assert k !in OfTenant(negotiations);
    }
  }

  /**
   * Capturing the ids first matters: had they been read after the negotiations
   * were deleted, none would be left, and a communication keyed by one of them
   * alone would have stayed.
   */
  lemma LateCaptureMissesCommunications(d: Data, k: Key)
    requires k in d.communications && k.hash in NegotiationIds(d.negotiations) && !(TENANT_ID <= k.hash)
    ensures k !in Reset(d).communications
    ensures k in d.communications - TenantCommunications(d.communications, NegotiationIds(Reset(d).negotiations))
  {
    ResetIsCompleteAndFramed(d);
    NoIdsLeft(Reset(d).negotiations);
  }

  // ---------------------------------------------------------------- the deleting loops

  function Flatten(chunks: seq<seq<Key>>): seq<Key> {
    if chunks == [] then [] else Flatten(chunks[..|chunks| - 1]) + chunks[|chunks| - 1]
  }

  method Collect(all: seq<Key>, negotiationIds: set<Id>) returns (doomed: seq<Key>)
    requires NoDuplicates(all)
    ensures Elements(doomed) == (set k | k in all && BelongsToTenant(k.hash, negotiationIds))
    ensures |doomed| == |Elements(doomed)|
  {
    doomed := [];
    for i := 0 to |all|
      invariant Elements(doomed) == (set k | k in all[..i] && BelongsToTenant(k.hash, negotiationIds))
      invariant |doomed| == |Elements(doomed)|
    {
      var k := all[i];
      assert all[..i + 1] == all[..i] + [k] && k !in all[..i];
      if k.hash in negotiationIds || TENANT_PK_PREFIX <= k.hash || TENANT_ID <= k.hash {
        assert Elements(doomed + [k]) == Elements(doomed) + {k};
        doomed := doomed + [k];
      }
    }
    assert all[..|all|] == all;
  }

  class Table {
    /** Tables are told apart by number. */
    const number: nat
    var rows: Rows

    constructor (number: nat, rows: Rows)
      ensures this.number == number && this.rows == rows
    {
      this.number := number;
      this.rows := rows;
    }

    /** One batch request; the service accepts at most 25 keys. */
    method BatchDelete(chunk: seq<Key>)
      requires |chunk| <= BATCH
      modifies this
      ensures rows == old(rows) - (set k | k in chunk)
    {
      rows := rows - (set k | k in chunk);
    }

    /** A paginated read of the keys that pass a filter, each once. */
    method ListKeys(wanted: set<Key>) returns (keys: seq<Key>)
      ensures NoDuplicates(keys) && Elements(keys) == wanted && |keys| == |wanted|
    {
      keys := [];
      var rest := wanted;
      while rest != {}
        invariant NoDuplicates(keys) && Elements(keys) !! rest && Elements(keys) + rest == wanted
        invariant |keys| + |rest| == |wanted|
      {
        var k :| k in rest;
        assert Elements(keys + [k]) == Elements(keys) + {k};
        assert forall i | 0 <= i < |keys| :: keys[i] in Elements(keys);
        keys := keys + [k];
        rest := rest - {k};
      }
    }

    /** Delete the keys chunk by chunk; the chunks sent concatenate to the list. */
    method DeleteBatch(keys: seq<Key>) returns (deleted: nat, ghost chunks: seq<seq<Key>>)
      modifies this
      ensures rows == old(rows) - Elements(keys) && deleted == |keys|
      ensures Flatten(chunks) == keys && forall c | c in chunks :: 0 < |c| <= BATCH
    {
      deleted, chunks := 0, [];
      var i := 0;
      assert rows - {} == rows;
      while i < |keys|
        invariant 0 <= i <= |keys| && deleted == i
        invariant rows == old(rows) - Elements(keys[..i])
        invariant Flatten(chunks) == keys[..i] && forall c | c in chunks :: 0 < |c| <= BATCH
      {
        var upto := if i + BATCH < |keys| then i + BATCH else |keys|;
        var chunk := keys[i..upto];
        BatchDelete(chunk);
        assert keys[..upto] == keys[..i] + chunk;
        assert Elements(keys[..upto]) == Elements(keys[..i]) + Elements(chunk);
        assert (chunks + [chunk])[..|chunks|] == chunks;
        chunks := chunks + [chunk];
        deleted := deleted + |chunk|;
        i := upto;
      }
      assert keys[..|keys|] == keys;
    }

    method DeleteTenantIdHash() returns (deleted: nat)
      modifies this
      ensures LeavesExactly(old(rows), rows, (k: Key) => k.hash != TENANT_ID, deleted)
      ensures rows == old(rows) - OfTenant(old(rows)) && deleted == |OfTenant(old(rows))|
    {
      HashRows(rows);
      var keys := ListKeys(OfTenant(rows));
      ghost var chunks;
      deleted, chunks := DeleteBatch(keys);
    }

    method DeleteTenantPkPrefix() returns (deleted: nat)
      modifies this
      ensures LeavesExactly(old(rows), rows, (k: Key) => !HasTenantPrefix(k.hash), deleted)
      ensures rows == old(rows) - WithTenantPrefix(old(rows)) && deleted == |WithTenantPrefix(old(rows))|
    {
      PrefixRows(rows);
      var keys := ListKeys(WithTenantPrefix(rows));
      ghost var chunks;
      deleted, chunks := DeleteBatch(keys);
    }

    /** Every key is read; those that match are collected, then deleted. */
    method DeleteCommunications(negotiationIds: set<Id>) returns (deleted: nat)
      modifies this
      ensures rows == old(rows) - TenantCommunications(old(rows), negotiationIds)
      ensures deleted == |TenantCommunications(old(rows), negotiationIds)|
    {
      var all := ListKeys(rows.Keys);
      var doomed := Collect(all, negotiationIds);
      assert forall k :: k in all <==> k in Elements(all);
      assert Elements(doomed) == TenantCommunications(rows, negotiationIds);
      ghost var chunks;
      deleted, chunks := DeleteBatch(doomed);
    }

    method Clear() returns (deleted: nat)
      modifies this
      ensures rows == map[] && deleted == |old(rows).Keys|
    {
      var keys := ListKeys(rows.Keys);
      ghost var chunks;
      deleted, chunks := DeleteBatch(keys);
    }
  }

  /** The tenant has a negotiation row with this id. */
  ghost predicate HasNegotiation(rows: Rows, id: Id) {
    exists k | k in rows :: k.hash == TENANT_ID && k.range == id
  }

  ghost predicate Names(keys: seq<Key>, id: Id) {
    exists j | 0 <= j < |keys| :: keys[j].range == id
  }

  lemma NamesOneMore(keys: seq<Key>, i: nat)
    requires i < |keys|
    ensures forall id :: Names(keys[..i + 1], id) <==> Names(keys[..i], id) || keys[i].range == id
  {
    forall id | Names(keys[..i], id) ensures Names(keys[..i + 1], id) {
      var j :| 0 <= j < i && keys[..i][j].range == id;
      assert keys[..i + 1][j].range == id;
    }
    assert keys[..i + 1][i] == keys[i];
    forall id | Names(keys[..i + 1], id) && keys[i].range != id ensures Names(keys[..i], id) {
      var j :| 0 <= j <= i && keys[..i + 1][j].range == id;
      assert keys[..i][j].range == id;
    }
  }

  lemma KeysOfTenant(rows: Rows, keys: seq<Key>)
    requires Elements(keys) == OfTenant(rows)
    ensures forall id :: Names(keys, id) <==> HasNegotiation(rows, id)
  {
    forall id | Names(keys, id) ensures HasNegotiation(rows, id) {
      var j :| 0 <= j < |keys| && keys[j].range == id;
      assert keys[j] in Elements(keys);
      assert keys[j] in rows;
    }
    forall id | HasNegotiation(rows, id) ensures Names(keys, id) {
      var k :| k in rows && k.hash == TENANT_ID && k.range == id;
      assert k in Elements(keys);
      var j :| 0 <= j < |keys| && keys[j] == k;
    }
  }

  class Database {
    const negotiations: Table
    const bids: Table
    const awards: Table
    const masterRequisitions: Table
    const requisitions: Table
    const orders: Table
    const testTenantOrders: Table
    const communications: Table
    const sessionCache: Table
    const kept: Table

    constructor (d: Data)
      ensures Valid() && View() == d
    {
      negotiations := new Table(0, d.negotiations);
      bids := new Table(1, d.bids);
      awards := new Table(2, d.awards);
      masterRequisitions := new Table(3, d.masterRequisitions);
      requisitions := new Table(4, d.requisitions);
      orders := new Table(5, d.orders);
      testTenantOrders := new Table(6, d.testTenantOrders);
      communications := new Table(7, d.communications);
      sessionCache := new Table(8, d.sessionCache);
      kept := new Table(9, d.kept);
    }

    /** The tables are different tables. */
    ghost predicate Valid() {
      && negotiations.number == 0 && bids.number == 1 && awards.number == 2 && masterRequisitions.number == 3
      && requisitions.number == 4 && orders.number == 5 && testTenantOrders.number == 6
      && communications.number == 7 && sessionCache.number == 8 && kept.number == 9
    }

    ghost function View(): Data
      reads negotiations, bids, awards, masterRequisitions, requisitions, orders, testTenantOrders, communications,
            sessionCache, kept
    {
      Data(negotiations.rows, bids.rows, awards.rows, masterRequisitions.rows, requisitions.rows, orders.rows,
           testTenantOrders.rows, communications.rows, sessionCache.rows, kept.rows)
    }

    /** The tenant's negotiation keys are queried, and the ids in them collected. */
    method NegotiationIdsNow() returns (ids: set<Id>)
      ensures forall id :: id in ids <==> Truthy(id) && HasNegotiation(negotiations.rows, id)
      ensures ids == NegotiationIds(negotiations.rows)
    {
      var keys := negotiations.ListKeys(OfTenant(negotiations.rows));
      ids := {};
      for i := 0 to |keys|
        invariant forall id :: id in ids <==> Truthy(id) && Names(keys[..i], id)
      {
        NamesOneMore(keys, i);
        if Truthy(keys[i].range) { ids := ids + {keys[i].range}; }
      }
      assert keys[..|keys|] == keys;
      KeysOfTenant(negotiations.rows, keys);
    }

    /** The four tables whose hash key is the tenant id. */
    method DeleteByTenantId() returns (c1: nat, c2: nat, c3: nat, c4: nat)
      requires Valid()
      modifies negotiations, bids, awards, masterRequisitions
      ensures var d := old(View());
        && View() == d.(negotiations := d.negotiations - OfTenant(d.negotiations), bids := d.bids - OfTenant(d.bids),
                        awards := d.awards - OfTenant(d.awards),
                        masterRequisitions := d.masterRequisitions - OfTenant(d.masterRequisitions))
        && c1 == |OfTenant(d.negotiations)| && c2 == |OfTenant(d.bids)| && c3 == |OfTenant(d.awards)|
        && c4 == |OfTenant(d.masterRequisitions)|
    {
      hide OfTenant, LeavesExactly;
      c1 := negotiations.DeleteTenantIdHash();
      c2 := bids.DeleteTenantIdHash();
      c3 := awards.DeleteTenantIdHash();
      c4 := masterRequisitions.DeleteTenantIdHash();
    }

    /** The three tables whose pk starts with the tenant id. */
    method DeleteByPrefix() returns (c5: nat, c6: nat, c7: nat)
      requires Valid()
      modifies requisitions, orders, testTenantOrders
      ensures var d := old(View());
        && View() == d.(requisitions := d.requisitions - WithTenantPrefix(d.requisitions),
                        orders := d.orders - WithTenantPrefix(d.orders),
                        testTenantOrders := d.testTenantOrders - WithTenantPrefix(d.testTenantOrders))
        && c5 == |WithTenantPrefix(d.requisitions)| && c6 == |WithTenantPrefix(d.orders)|
        && c7 == |WithTenantPrefix(d.testTenantOrders)|
    {
      hide WithTenantPrefix, LeavesExactly, HasTenantPrefix;
      c5 := requisitions.DeleteTenantPkPrefix();
      c6 := orders.DeleteTenantPkPrefix();
      c7 := testTenantOrders.DeleteTenantPkPrefix();
    }

    method ResetTenant() returns (counts: Counts)
      requires Valid()
      modifies negotiations, bids, awards, masterRequisitions, requisitions, orders, testTenantOrders, communications,
               sessionCache
      ensures ResetRowByRow(old(View()), View(), counts)
      ensures CompleteAndFramed(old(View()), View())
      ensures View() == Reset(old(View())) && counts == ResetCounts(old(View()))
    {
      hide OfTenant, WithTenantPrefix, TenantCommunications, NegotiationIds, CompleteAndFramed, ResetRowByRow;
      ResetIsCompleteAndFramed(View());
      ResetIsRowByRow(View());
      var ids := NegotiationIdsNow();
      var c1, c2, c3, c4 := DeleteByTenantId();
      var c5, c6, c7 := DeleteByPrefix();
      var c8 := communications.DeleteCommunications(ids);
      var c9 := sessionCache.Clear();
      counts := Counts(c1, c2, c3, c4, c5, c6, c7, c8, c9);
    }
  }
}
