/** The duplicate_groups table under upserts, deletes and status changes
  * (internal/repository/duplicate_repo.go, internal/db/migrations/003_create_duplicate_groups.up.sql).
  */
module DuplicateTable {
  import opened Sets
  import opened GroupHash

  datatype Status = Pending | Reviewed | Merged | Dismissed

  /** What detection writes about a cluster. */
  datatype Finding = Finding(customerIds: seq<int>, confidence: real)

  datatype Lookup = Missing | Found(group: Group)

  datatype Group = Group(merchant: int, hash: string, finding: Finding, status: Status)

  /** Rows by row id. */
  type Table = map<int, Group>

  // ----- the partial unique index ------------------------------------------------------------------

  predicate IsLive(t: Table, id: int, merchant: int, hash: string) {
    id in t && t[id].merchant == merchant && t[id].hash == hash && t[id].status != Merged
  }

  /** Each merchant and hash has at most one row that is not merged. */
  predicate OneLive(t: Table) {
    forall i, j ::
      i in t && j in t && t[i].status != Merged && IsLive(t, j, t[i].merchant, t[i].hash) ==> i == j
  }

  // ----- effects of the statements -----------------------------------------------------------------

  /** Insert, or on conflict with a live row refresh its finding only. */
  ghost predicate Upserted(t: Table, merchant: int, hash: string, finding: Finding, newId: int, t': Table) {
    if exists id :: IsLive(t, id, merchant, hash)
    then exists id :: IsLive(t, id, merchant, hash) && t' == t[id := t[id].(finding := finding)]
    else t' == t[newId := Group(merchant, hash, finding, Pending)]
  }

  function WithoutPending(t: Table, merchant: int): Table {
    map id | id in t && !(t[id].merchant == merchant && t[id].status == Pending) :: t[id]
  }

  function PendingRows(t: Table, merchant: int): set<int> {
    set id | id in t && t[id].merchant == merchant && t[id].status == Pending
  }

  function Transitioned(t: Table, id: int): Table {
    if id in t && t[id].status != Merged then t[id := t[id].(status := Merged)] else t
  }

  /** Giving row `id` the status would break the unique index. */
  ghost predicate Violates(t: Table, id: int, status: Status) {
    id in t && status != Merged &&
    exists j :: j in t && j != id && t[j].status != Merged &&
                t[j].merchant == t[id].merchant && t[j].hash == t[id].hash
  }

  /** An unconditional status update; the index makes it fail without effect when it would be broken. */
  ghost function WithStatus(t: Table, id: int, status: Status): Table {
    if id in t && !Violates(t, id, status) then t[id := t[id].(status := status)] else t
  }

  // ----- what they keep --------------------------------------------------------------------------

  lemma UpsertKeepsOneLive(t: Table, merchant: int, hash: string, finding: Finding, newId: int, t': Table)
    requires OneLive(t) && newId !in t && Upserted(t, merchant, hash, finding, newId, t')
    ensures OneLive(t')
  {
    if exists id :: IsLive(t, id, merchant, hash) {
      var id :| IsLive(t, id, merchant, hash) && t' == t[id := t[id].(finding := finding)];
    } else {
      assert forall i :: i in t ==> !IsLive(t, i, merchant, hash);
    }
  }

  /** An upsert changes no status, no merged row, and no row of another merchant or hash. */
  lemma UpsertIsGentle(t: Table, merchant: int, hash: string, finding: Finding, newId: int, t': Table)
    requires newId !in t && Upserted(t, merchant, hash, finding, newId, t')
    ensures forall id :: id in t ==>
              && id in t' && t'[id].status == t[id].status
              && t'[id].merchant == t[id].merchant && t'[id].hash == t[id].hash
              && (t'[id] != t[id] ==> IsLive(t, id, merchant, hash))
    ensures forall id :: id in t' && id !in t ==> id == newId && t'[id] == Group(merchant, hash, finding, Pending)
  {
    if exists id :: IsLive(t, id, merchant, hash) {
      var id :| IsLive(t, id, merchant, hash) && t' == t[id := t[id].(finding := finding)];
    }
  }

  /** The index can only reject a status change of a merged row that has a live sibling. */
  lemma RejectedIff(t: Table, id: int, status: Status)
    requires OneLive(t)
    ensures Violates(t, id, status) <==>
            id in t && status != Merged && t[id].status == Merged &&
            exists j :: IsLive(t, j, t[id].merchant, t[id].hash)
  {
    if id in t {
      if j :| IsLive(t, j, t[id].merchant, t[id].hash) && j != id {
        assert t[j].status != Merged;
      }
      if Violates(t, id, status) {
        var j :| j in t && j != id && t[j].status != Merged &&
                 t[j].merchant == t[id].merchant && t[j].hash == t[id].hash;
        assert IsLive(t, j, t[id].merchant, t[id].hash);
      }
    }
  }

  lemma StatusKeepsOneLive(t: Table, id: int, status: Status)
    requires OneLive(t)
    ensures OneLive(WithStatus(t, id, status)) && OneLive(Transitioned(t, id))
  {
    if id in t && status != Merged && !Violates(t, id, status) {
      forall j | j in t && j != id && t[j].status != Merged
        ensures !(t[j].merchant == t[id].merchant && t[j].hash == t[id].hash)
      {
      }
    }
  }

  // ----- every reachable table ---------------------------------------------------------------------

  datatype Operation =
    | CreateGroup(merchant: int, hash: string, finding: Finding)
    | DeletePending(merchant: int)
    | TryMerge(id: int)
    | SetStatus(id: int, status: Status)

  /** One statement takes the table from `t` to `t'`; a new row gets an id never used before. */
  ghost predicate Operated(t: Table, op: Operation, used: set<int>, t': Table) {
    match op
    case CreateGroup(m, h, f) => exists newId :: newId !in used && Upserted(t, m, h, f, newId, t')
    case DeletePending(m) => t' == WithoutPending(t, m)
    case TryMerge(id) => t' == Transitioned(t, id)
    case SetStatus(id, status) => t' == WithStatus(t, id, status)
  }

  /** A history of statements from the empty table; row ids are not reused. */
  ghost predicate History(ts: seq<Table>, ops: seq<Operation>) {
    && |ts| == |ops| + 1
    && ts[0] == map[]
    && forall k :: 0 <= k < |ops| ==> Operated(ts[k], ops[k], UsedIds(ts[..k + 1]), ts[k + 1])
  }

  ghost function UsedIds(ts: seq<Table>): set<int> {
    set k, id | 0 <= k < |ts| && id in ts[k] :: id
  }

  lemma {:induction false} ReachableTablesHaveOneLive(ts: seq<Table>, ops: seq<Operation>, k: nat)
    requires History(ts, ops) && k < |ts|
    ensures OneLive(ts[k])
  {
    if k > 0 {
      ReachableTablesHaveOneLive(ts, ops, k - 1);
      var t, op, t' := ts[k - 1], ops[k - 1], ts[k - 1 + 1];
      assert Operated(t, op, UsedIds(ts[..k - 1 + 1]), t');
      match op
      case CreateGroup(m, h, f) =>
        var newId :| newId !in UsedIds(ts[..k - 1 + 1]) && Upserted(t, m, h, f, newId, t');
        assert ts[..k - 1 + 1][k - 1] == t;
        assert newId !in t;
        UpsertKeepsOneLive(t, m, h, f, newId, t');
      case DeletePending(m) =>
      case TryMerge(id) => StatusKeepsOneLive(t, id, Pending);
      case SetStatus(id, status) => StatusKeepsOneLive(t, id, status);
    }
  }

  // ----- clear and rebuild -------------------------------------------------------------------------

  ghost function PendingHashes(t: Table, merchant: int): set<string> {
    set id | id in t && t[id].merchant == merchant && t[id].status == Pending :: t[id].hash
  }

  /** Hashes a reviewed or dismissed row of the merchant holds. */
  ghost function HeldHashes(t: Table, merchant: int): set<string> {
    set id | id in t && t[id].merchant == merchant && (t[id].status == Reviewed || t[id].status == Dismissed) :: t[id].hash
  }

  lemma UpsertPending(t: Table, merchant: int, hash: string, finding: Finding, newId: int, t': Table)
    requires OneLive(t) && newId !in t && Upserted(t, merchant, hash, finding, newId, t')
    ensures HeldHashes(t', merchant) == HeldHashes(t, merchant)
    ensures PendingHashes(t', merchant) ==
            PendingHashes(t, merchant) + if hash in HeldHashes(t, merchant) then {} else {hash}
  {
    UpsertIsGentle(t, merchant, hash, finding, newId, t');
    SameStatusSameHashes(t, t', merchant);
    if exists id :: IsLive(t, id, merchant, hash) {
      var id :| IsLive(t, id, merchant, hash) && t' == t[id := t[id].(finding := finding)];
      assert t'.Keys == t.Keys;
      if hash !in HeldHashes(t, merchant) {
        assert t[id].status == Pending;
        assert hash in PendingHashes(t, merchant);
      }
    } else {
      NewRowHashes(t, merchant, hash, finding, newId);
    }
  }

  lemma SameStatusSameHashes(t: Table, t': Table, merchant: int)
    requires t'.Keys == t.Keys ==>
               forall id :: id in t ==> t'[id].status == t[id].status && t'[id].merchant == t[id].merchant && t'[id].hash == t[id].hash
    ensures t'.Keys == t.Keys ==>
              PendingHashes(t', merchant) == PendingHashes(t, merchant) && HeldHashes(t', merchant) == HeldHashes(t, merchant)
  {
    if t'.Keys == t.Keys {
      forall h
        ensures h in PendingHashes(t', merchant) <==> h in PendingHashes(t, merchant)
        ensures h in HeldHashes(t', merchant) <==> h in HeldHashes(t, merchant)
      {
      }
    }
  }

  lemma NewRowHashes(t: Table, merchant: int, hash: string, finding: Finding, newId: int)
    requires newId !in t && !exists id :: IsLive(t, id, merchant, hash)
    ensures var t' := t[newId := Group(merchant, hash, finding, Pending)];
            && PendingHashes(t', merchant) == PendingHashes(t, merchant) + {hash}
            && HeldHashes(t', merchant) == HeldHashes(t, merchant)
            && hash !in HeldHashes(t, merchant)
  {
    var t' := t[newId := Group(merchant, hash, finding, Pending)];
    forall h
      ensures h in PendingHashes(t', merchant) <==> h in PendingHashes(t, merchant) || h == hash
      ensures h in HeldHashes(t', merchant) <==> h in HeldHashes(t, merchant)
    {
      if h == hash {
        assert t'[newId].hash == hash;
      }
      if h in PendingHashes(t, merchant) {
        var id :| id in t && t[id].merchant == merchant && t[id].status == Pending && t[id].hash == h;
        assert t'[id] == t[id];
      }
      if h in HeldHashes(t, merchant) {
        var id :| id in t && t[id].merchant == merchant && (t[id].status == Reviewed || t[id].status == Dismissed) && t[id].hash == h;
        assert t'[id] == t[id];
      }
    }
    assert forall id :: id in t ==> !IsLive(t, id, merchant, hash);
  }

  class DuplicateRepo {
    var rows: Table
    var nextId: int

    ghost predicate Valid()
      reads this
    {
      OneLive(rows) && forall id :: id in rows ==> id < nextId
    }

    method CreateGroup(merchant: int, hash: string, finding: Finding)
      requires Valid()
      modifies this
      ensures Valid() && nextId > old(nextId)
      ensures Upserted(old(rows), merchant, hash, finding, old(nextId), rows)
    {
      ghost var before := rows;
      var newId := nextId;
      assert newId !in rows;
      if id :| id in rows && IsLive(rows, id, merchant, hash) {
        rows := rows[id := rows[id].(finding := finding)];
      } else {
        rows := rows[newId := Group(merchant, hash, finding, Pending)];
      }
      UpsertKeepsOneLive(before, merchant, hash, finding, newId, rows);
      nextId := newId + 1;
    }

    method DeletePendingByMerchant(merchant: int) returns (deleted: nat)
      requires Valid()
      modifies this`rows
      ensures Valid()
      ensures rows == WithoutPending(old(rows), merchant)
      ensures deleted == |PendingRows(old(rows), merchant)|
    {
      deleted := |set id | id in rows && rows[id].merchant == merchant && rows[id].status == Pending|;
      rows := map id | id in rows && !(rows[id].merchant == merchant && rows[id].status == Pending) :: rows[id];
    }

    method FindByID(id: int, merchant: int) returns (r: Lookup)
      ensures r == if id in rows && rows[id].merchant == merchant then Found(rows[id]) else Missing
    {
      if id in rows && rows[id].merchant == merchant {
        return Found(rows[id]);
      }
      return Missing;
    }

    method TryTransitionToMerged(id: int) returns (ok: bool)
      requires Valid()
      modifies this`rows
      ensures Valid()
      ensures rows == Transitioned(old(rows), id)
      ensures ok <==> id in old(rows) && old(rows)[id].status != Merged
    {
      ok := id in rows && rows[id].status != Merged;
      StatusKeepsOneLive(rows, id, Merged);
      if ok {
        rows := rows[id := rows[id].(status := Merged)];
      }
    }

    method DismissGroup(id: int) returns (ok: bool)
      requires Valid()
      modifies this`rows
      ensures Valid()
      ensures rows == WithStatus(old(rows), id, Dismissed)
      ensures !ok <==> Violates(old(rows), id, Dismissed)
    {
      StatusKeepsOneLive(rows, id, Dismissed);
      ok := !(id in rows && exists j :: j in rows && j != id && rows[j].status != Merged &&
                                        rows[j].merchant == rows[id].merchant && rows[j].hash == rows[id].hash);
      if ok && id in rows {
        rows := rows[id := rows[id].(status := Dismissed)];
      }
    }

    /** The table part of `RunDetection`: nothing at all below two customers; otherwise clear the pending
        rows and upsert every cluster, in any order.  Afterwards the pending hashes are exactly the
        cluster hashes that no reviewed or dismissed row holds, and if no two clusters share a hash every
        cluster is stored with its members and confidence. */
    method Rebuild(merchant: int, customers: nat, clusters: map<int, seq<int>>, confidence: map<int, real>)
      returns (persisted: nat)
      requires Valid() && confidence.Keys == clusters.Keys
      modifies this
      ensures Valid()
      ensures customers < 2 ==> rows == old(rows) && persisted == 0
      ensures customers >= 2 ==> persisted == |clusters|
      ensures customers >= 2 && DistinctHashes(clusters) ==>
                forall k :: k in clusters ==> Stored(rows, merchant, clusters[k], confidence[k])
      ensures customers >= 2 ==>
                && PendingHashes(rows, merchant) ==
                   HashesOf(clusters, clusters.Keys) - HeldHashes(old(rows), merchant)
                && HeldHashes(rows, merchant) == HeldHashes(old(rows), merchant)
      ensures customers >= 2 ==>
                Framed(WithoutPending(old(rows), merchant), rows, merchant, HashesOf(clusters, clusters.Keys), old(nextId))
    {
      persisted := 0;
      if customers < 2 {
        return;
      }
      var _ := DeletePendingByMerchant(merchant);
      ClearedHashes(old(rows), merchant);
      ghost var cleared, base := rows, nextId;
      hide PendingHashes, HeldHashes, OneLive, WithoutPending, Stored, DistinctHashes, HashesOf, Rebuilt, Framed;
      persisted := UpsertClusters(merchant, clusters, confidence);
      RebuiltAll(cleared, rows, merchant, clusters, confidence, base);
    }

    /** The rebuild loop, over the clusters in any order. */
    method UpsertClusters(merchant: int, clusters: map<int, seq<int>>, confidence: map<int, real>)
      returns (persisted: nat)
      requires Valid() && confidence.Keys == clusters.Keys && PendingHashes(rows, merchant) == {}
      modifies this
      ensures Valid() && Rebuilt(old(rows), rows, merchant, clusters, confidence, old(nextId), clusters.Keys)
      ensures persisted == |clusters|
    {
      hide PendingHashes, HeldHashes, OneLive, Rebuilt, ClusterUpserted;
      ghost var cleared := rows;
      persisted := 0;
      var todo := clusters.Keys;
      ghost var base := nextId;
      NothingRebuilt(cleared, merchant, clusters, confidence, base);
      assert clusters.Keys - todo == {};
      while todo != {}
        invariant Valid() && todo <= clusters.Keys && nextId >= base
        invariant Rebuilt(cleared, rows, merchant, clusters, confidence, base, clusters.Keys - todo)
        invariant persisted + |todo| == |clusters|
        decreases todo
      {
        NonEmpty(todo);
        var k :| k in todo;
        ghost var before, base' := rows, nextId;
        UpsertCluster(merchant, clusters[k], confidence[k]);
        RebuiltOneMore(cleared, before, rows, merchant, clusters, confidence, base, base', clusters.Keys - todo, k);
        assert clusters.Keys - (todo - {k}) == clusters.Keys - todo + {k};
        persisted := persisted + 1;
        todo := todo - {k};
      }
      assert clusters.Keys - {} == clusters.Keys;
    }

    /** One turn of the rebuild loop. */
    method UpsertCluster(merchant: int, members: seq<int>, confidence: real)
      requires Valid()
      modifies this
      ensures Valid() && nextId > old(nextId)
      ensures ClusterUpserted(old(rows), rows, merchant, members, confidence, old(nextId))
    {
      var hash := GroupHashInput(members);
      ghost var newId := nextId;
      assert newId !in rows;
      CreateGroup(merchant, hash, Finding(members, confidence));
      UpsertPending(old(rows), merchant, hash, Finding(members, confidence), newId, rows);
      UpsertFrames(old(rows), merchant, hash, Finding(members, confidence), newId, rows);
      UpsertStores(old(rows), merchant, members, confidence, newId, rows);
    }
  }

  /** A live row holds this cluster with its members and confidence. */
  ghost predicate Stored(t: Table, merchant: int, members: seq<int>, confidence: real) {
    exists id :: IsLive(t, id, merchant, Preimage(Sorted(members))) && t[id].finding == Finding(members, confidence)
  }

  ghost predicate DistinctHashes(clusters: map<int, seq<int>>) {
    forall k, l :: k in clusters && l in clusters && k != l ==>
      Preimage(Sorted(clusters[k])) != Preimage(Sorted(clusters[l]))
  }

  lemma UpsertStores(t: Table, merchant: int, members: seq<int>, confidence: real, newId: int, t': Table)
    requires newId !in t
    requires Upserted(t, merchant, Preimage(Sorted(members)), Finding(members, confidence), newId, t')
    ensures Stored(t', merchant, members, confidence)
  {
    hide Preimage, Sorted;
    var hash := Preimage(Sorted(members));
    if exists id :: IsLive(t, id, merchant, hash) {
      var id :| IsLive(t, id, merchant, hash) && t' == t[id := t[id].(finding := Finding(members, confidence))];
      assert IsLive(t', id, merchant, hash);
    } else {
      assert IsLive(t', newId, merchant, hash);
    }
  }

  lemma OthersStayStored(
    t: Table, t': Table, merchant: int, clusters: map<int, seq<int>>, confidence: map<int, real>, base: int, k: int)
    requires k in clusters && confidence.Keys == clusters.Keys && DistinctHashes(clusters)
    requires Framed(t, t', merchant, {Preimage(Sorted(clusters[k]))}, base)
    ensures forall l :: l in clusters && l != k && Stored(t, merchant, clusters[l], confidence[l]) ==>
              Stored(t', merchant, clusters[l], confidence[l])
  {
    hide Preimage, Sorted;
    forall l | l in clusters && l != k && Stored(t, merchant, clusters[l], confidence[l])
      ensures Stored(t', merchant, clusters[l], confidence[l])
    {
      var id :| IsLive(t, id, merchant, Preimage(Sorted(clusters[l]))) &&
                t[id].finding == Finding(clusters[l], confidence[l]);
      assert t'[id] == t[id];
    }
  }

  /** The hashes of the clusters under the given keys. */
  ghost function HashesOf(clusters: map<int, seq<int>>, keys: set<int>): set<string> {
    set k | k in clusters && k in keys :: Preimage(Sorted(clusters[k]))
  }

  /** What one upsert of a cluster does. */
  ghost predicate ClusterUpserted(
    t: Table, t': Table, merchant: int, members: seq<int>, confidence: real, base: int)
  {
    var hash := Preimage(Sorted(members));
    && Framed(t, t', merchant, {hash}, base)
    && HeldHashes(t', merchant) == HeldHashes(t, merchant)
    && PendingHashes(t', merchant) == PendingHashes(t, merchant) + ({hash} - HeldHashes(t, merchant))
    && Stored(t', merchant, members, confidence)
  }

  /** What the rebuild loop has reached, from the cleared table, after the clusters in `done`. */
  ghost predicate Rebuilt(
    cleared: Table, t: Table, merchant: int, clusters: map<int, seq<int>>, confidence: map<int, real>, base: int,
    done: set<int>)
    requires confidence.Keys == clusters.Keys
  {
    && PendingHashes(t, merchant) == HashesOf(clusters, done) - HeldHashes(cleared, merchant)
    && HeldHashes(t, merchant) == HeldHashes(cleared, merchant)
    && Framed(cleared, t, merchant, HashesOf(clusters, done), base)
    && (DistinctHashes(clusters) ==>
          forall k :: k in clusters && k in done ==> Stored(t, merchant, clusters[k], confidence[k]))
  }

  lemma NothingRebuilt(
    cleared: Table, merchant: int, clusters: map<int, seq<int>>, confidence: map<int, real>, base: int)
    requires confidence.Keys == clusters.Keys && PendingHashes(cleared, merchant) == {}
    ensures Rebuilt(cleared, cleared, merchant, clusters, confidence, base, {})
  {
    hide PendingHashes, HeldHashes;
  }

  lemma RebuiltAll(
    cleared: Table, t: Table, merchant: int, clusters: map<int, seq<int>>, confidence: map<int, real>, base: int)
    requires confidence.Keys == clusters.Keys && Rebuilt(cleared, t, merchant, clusters, confidence, base, clusters.Keys)
    ensures PendingHashes(t, merchant) == HashesOf(clusters, clusters.Keys) - HeldHashes(cleared, merchant)
    ensures HeldHashes(t, merchant) == HeldHashes(cleared, merchant)
    ensures Framed(cleared, t, merchant, HashesOf(clusters, clusters.Keys), base)
    ensures DistinctHashes(clusters) ==>
              forall k :: k in clusters ==> Stored(t, merchant, clusters[k], confidence[k])
  {
    hide PendingHashes, HeldHashes;
  }

  lemma RebuiltOneMore(
    cleared: Table, t: Table, t': Table, merchant: int, clusters: map<int, seq<int>>, confidence: map<int, real>,
    base: int, base': int, done: set<int>, k: int)
    requires confidence.Keys == clusters.Keys && k in clusters && base <= base'
    requires Rebuilt(cleared, t, merchant, clusters, confidence, base, done)
    requires ClusterUpserted(t, t', merchant, clusters[k], confidence[k], base')
    ensures Rebuilt(cleared, t', merchant, clusters, confidence, base, done + {k})
  {
    hide PendingHashes, HeldHashes, Preimage, Sorted, Stored, DistinctHashes, Framed;
    FramedThrough(cleared, t, t', merchant, HashesOf(clusters, done), {Preimage(Sorted(clusters[k]))}, base, base');
    OneMoreHash(clusters, done, k);
    hide HashesOf;
    if DistinctHashes(clusters) {
      OthersStayStored(t, t', merchant, clusters, confidence, base', k);
    }
  }

  lemma OneMoreHash(clusters: map<int, seq<int>>, done: set<int>, k: int)
    requires k in clusters
    ensures HashesOf(clusters, done + {k}) == HashesOf(clusters, done) + {Preimage(Sorted(clusters[k]))}
  {
    hide Preimage, Sorted;
  }

  /** How upserts of the given hashes for one merchant may change a table: every row survives, and keeps
      merchant, hash and status; only the finding of a row of this merchant with one of the hashes, not
      merged, may change; every new row is a pending one of this merchant with one of the hashes, under an
      id not below `base`. */
  ghost predicate Framed(t: Table, t': Table, merchant: int, hashes: set<string>, base: int) {
    && (forall id :: id in t ==>
          && id in t' && t'[id] == t[id].(finding := t'[id].finding)
          && (t'[id] != t[id] ==> t[id].merchant == merchant && t[id].hash in hashes && t[id].status != Merged))
    && (forall id :: id in t' && id !in t ==>
          id >= base && t'[id].merchant == merchant && t'[id].hash in hashes && t'[id].status == Pending)
  }

  lemma UpsertFrames(t: Table, merchant: int, hash: string, finding: Finding, newId: int, t': Table)
    requires newId !in t && Upserted(t, merchant, hash, finding, newId, t')
    ensures Framed(t, t', merchant, {hash}, newId)
  {
    if exists id :: IsLive(t, id, merchant, hash) {
      var id :| IsLive(t, id, merchant, hash) && t' == t[id := t[id].(finding := finding)];
    }
  }

  lemma FramedThrough(
    t: Table, t': Table, t'': Table, merchant: int, hashes: set<string>, more: set<string>, base: int, base': int)
    requires Framed(t, t', merchant, hashes, base) && Framed(t', t'', merchant, more, base') && base <= base'
    ensures Framed(t, t'', merchant, hashes + more, base)
  {
  }

  lemma ClearedHashes(t: Table, merchant: int)
    ensures PendingHashes(WithoutPending(t, merchant), merchant) == {}
    ensures HeldHashes(WithoutPending(t, merchant), merchant) == HeldHashes(t, merchant)
  {
    var t' := WithoutPending(t, merchant);
    forall h | h in HeldHashes(t, merchant)
      ensures h in HeldHashes(t', merchant)
    {
      var id :| id in t && t[id].merchant == merchant && (t[id].status == Reviewed || t[id].status == Dismissed) && t[id].hash == h;
      assert t'[id] == t[id];
    }
  }
}
