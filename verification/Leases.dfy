/** Who may still use a cache entry: allocation, deferred release and leases of the contiguous
    cache (kv_cache.py:817-827, 860-883, 980-1011, 1030-1038). */
module Leases {
  import opened Collections

  datatype CacheError = InvalidArgument | AlreadyExists | NotFound | CapacityExceeded | BadUpdate | BadIndex

  /** `handle` stands for the very tensors of an entry. */
  datatype Entry<E> = Entry(handle: E, users: int, released: bool)

  datatype Lease<E> = Lease(ids: seq<string>, handles: seq<E>, released: bool)

  datatype Table<E> = Table(entries: map<string, Entry<E>>, leases: seq<Lease<E>>)

  function Allocate<E>(t: Table<E>, id: string, capacity: int, handle: E): Result<Table<E>, CacheError> {
    if id == "" || capacity <= 0 then Err(InvalidArgument)
    else if id in t.entries then Err(AlreadyExists)
    else Ok(t.(entries := t.entries[id := Entry(handle, 0, false)]))
  }

  /** Freeing an entry in use only marks it. */
  function Free<E>(t: Table<E>, id: string): (Table<E>, bool) {
    if id !in t.entries || t.entries[id].released then (t, false)
    else if t.entries[id].users == 0 then (t.(entries := t.entries - {id}), true)
    else (t.(entries := t.entries[id := t.entries[id].(released := true)]), true)
  }

  predicate Active<E>(t: Table<E>, id: string) {
    id in t.entries && !t.entries[id].released
  }

  function Handles<E>(t: Table<E>, ids: seq<string>): seq<E>
    requires forall j | 0 <= j < |ids| :: ids[j] in t.entries
  {
    seq(|ids|, j requires 0 <= j < |ids| => t.entries[ids[j]].handle)
  }

  /** One more user for each id. */
  function Used<E>(entries: map<string, Entry<E>>, ids: seq<string>): map<string, Entry<E>> {
    map id | id in entries :: if id in ids then entries[id].(users := entries[id].users + 1) else entries[id]
  }

  /** One user less for each id; a freed entry goes away with its last user. */
  function Dropped<E>(entries: map<string, Entry<E>>, ids: seq<string>): map<string, Entry<E>> {
    map id | id in entries && !(id in ids && LastUser(entries[id])) ::
      if id in ids then entries[id].(users := entries[id].users - 1) else entries[id]
  }

  function Acquire<E>(t: Table<E>, ids: seq<string>): Result<Table<E>, CacheError> {
    if exists j, k | 0 <= j < k < |ids| :: ids[j] == ids[k] then Err(InvalidArgument)
    else if exists j | 0 <= j < |ids| :: !Active(t, ids[j]) then Err(NotFound)
    else Ok(Table(Used(t.entries, ids), t.leases + [Lease(ids, Handles(t, ids), false)]))
  }

  /** Does the entry go away when one of its users leaves? */
  predicate LastUser<E>(e: Entry<E>) {
    e.released && e.users == 1
  }

  /** Ending a lease twice does nothing the second time. */
  function Release<E>(t: Table<E>, k: nat): Table<E>
    requires k < |t.leases|
  {
    var lease := t.leases[k];
    if lease.released then t else
      Table(Dropped(t.entries, lease.ids), t.leases[k := lease.(released := true)])
  }

  // ---- the invariant ---------------------------------------------------------------------

  predicate Holds<E>(lease: Lease<E>, id: string) {
    !lease.released && id in lease.ids
  }

  /** How many live leases hold an id. */
  function LiveUsers<E>(leases: seq<Lease<E>>, id: string): (n: nat)
    ensures n > 0 <==> exists k :: 0 <= k < |leases| && Holds(leases[k], id)
  {
    if leases == [] then 0 else
      var last := |leases| - 1;
      LiveUsers(leases[..last], id) + if Holds(leases[last], id) then 1 else 0
  }

  ghost predicate LeaseOk<E>(t: Table<E>, k: nat)
    requires k < |t.leases|
  {
    var lease := t.leases[k];
    && NoDup(lease.ids) && |lease.handles| == |lease.ids|
    && (!lease.released ==>
          forall j | 0 <= j < |lease.ids| ::
              lease.ids[j] in t.entries && t.entries[lease.ids[j]].handle == lease.handles[j])
  }

  ghost predicate EntryOk<E>(t: Table<E>, id: string)
    requires id in t.entries
  {
    && t.entries[id].users == LiveUsers(t.leases, id)
    && (t.entries[id].released ==> t.entries[id].users > 0)
  }

  ghost predicate Inv<E>(t: Table<E>) {
    && (forall k | 0 <= k < |t.leases| :: LeaseOk(t, k))
    && (forall id | id in t.entries :: EntryOk(t, id))
    && (forall a, b | a in t.entries && b in t.entries && a != b :: t.entries[a].handle != t.entries[b].handle)
  }

  lemma {:induction false} LiveUsersChange<E>(leases: seq<Lease<E>>, k: nat, lease: Lease<E>, id: string)
    requires k < |leases|
    ensures LiveUsers(leases[k := lease], id)
            == LiveUsers(leases, id) - (if Holds(leases[k], id) then 1 else 0) + if Holds(lease, id) then 1 else 0
  {
    var last := |leases| - 1;
    if k < last {
      LiveUsersChange(leases[..last], k, lease, id);
      assert leases[k := lease][..last] == leases[..last][k := lease];
    } else {
      assert leases[k := lease][..last] == leases[..last];
    }
  }

  lemma AllocateKeepsInv<E>(t: Table<E>, id: string, capacity: int, handle: E)
    requires Inv(t) && forall other | other in t.entries :: t.entries[other].handle != handle
    ensures var r := Allocate(t, id, capacity, handle); r.Ok? ==> Inv(r.value)
  {
    var r := Allocate(t, id, capacity, handle);
    if r.Ok? {
      forall k | 0 <= k < |t.leases| ensures !Holds(t.leases[k], id) { assert LeaseOk(t, k); }
      forall k | 0 <= k < |t.leases| ensures LeaseOk(r.value, k) { assert LeaseOk(t, k); }
      forall other | other in r.value.entries ensures EntryOk(r.value, other) {
        if other != id { assert EntryOk(t, other); }
      }
    }
  }

  lemma FreeKeepsInv<E>(t: Table<E>, id: string)
    requires Inv(t)
    ensures Inv(Free(t, id).0)
  {
    var after := Free(t, id).0;
    if Active(t, id) {
      assert EntryOk(t, id);
      forall k | 0 <= k < |t.leases| ensures LeaseOk(after, k) {
        assert LeaseOk(t, k);
        assert Holds(t.leases[k], id) ==> LiveUsers(t.leases, id) > 0;
      }
      forall other | other in after.entries ensures EntryOk(after, other) { assert EntryOk(t, other); }
    }
  }

  lemma AcquireKeepsInv<E>(t: Table<E>, ids: seq<string>)
    requires Inv(t)
    ensures var r := Acquire(t, ids); r.Ok? ==> Inv(r.value)
  {
    var r := Acquire(t, ids);
    if r.Ok? {
      var after := r.value;
      assert after.leases[..|t.leases|] == t.leases;
      forall k | 0 <= k < |after.leases| ensures LeaseOk(after, k) {
        if k < |t.leases| {
          assert LeaseOk(t, k);
        } else {
          assert forall j | 0 <= j < |ids| :: Active(t, ids[j]);
        }
      }
      forall id | id in after.entries ensures EntryOk(after, id) { assert EntryOk(t, id); }
    }
  }

  lemma ReleaseKeepsInv<E>(t: Table<E>, k: nat)
    requires Inv(t) && k < |t.leases|
    ensures Inv(Release(t, k))
  {
    var after := Release(t, k);
    if !t.leases[k].released {
      forall id ensures LiveUsers(after.leases, id) == LiveUsers(t.leases, id) - if id in t.leases[k].ids then 1
          else 0 {
        LiveUsersChange(t.leases, k, after.leases[k], id);
      }
      forall j | 0 <= j < |after.leases| ensures LeaseOk(after, j) {
        assert LeaseOk(t, j);
        if !after.leases[j].released {
          forall i | 0 <= i < |t.leases[j].ids| ensures t.leases[j].ids[i] in after.entries {
            var id := t.leases[j].ids[i];
            assert EntryOk(t, id);
            assert Holds(after.leases[j], id);
          }
        }
      }
      forall id | id in after.entries ensures EntryOk(after, id) { assert EntryOk(t, id); }
    }
  }

  // ---- all runs --------------------------------------------------------------------------

  datatype Op<E> =
    | DoAllocate(id: string, capacity: int, handle: E)
    | DoFree(id: string)
    | DoAcquire(ids: seq<string>)
    | DoRelease(lease: nat)

  /** New tensors are not those of a live entry; a release names a lease that was handed out. */
  ghost predicate Possible<E>(t: Table<E>, op: Op<E>) {
    match op
    case DoAllocate(_, _, handle) => forall other | other in t.entries :: t.entries[other].handle != handle
    case DoRelease(k) => k < |t.leases|
    case _ => true
  }

  function Apply<E>(t: Table<E>, op: Op<E>): Table<E>
    requires op.DoRelease? ==> op.lease < |t.leases|
  {
    match op
    case DoAllocate(id, capacity, handle) =>
      (match Allocate(t, id, capacity, handle) case Ok(next) => next case Err(_) => t)
    case DoFree(id) => Free(t, id).0
    case DoAcquire(ids) => (match Acquire(t, ids) case Ok(next) => next case Err(_) => t)
    case DoRelease(k) => Release(t, k)
  }

  lemma ApplyKeepsInv<E>(t: Table<E>, op: Op<E>)
    requires Inv(t) && Possible(t, op)
    ensures Inv(Apply(t, op))
  {
    hide Inv;
    match op
    case DoAllocate(id, capacity, handle) => AllocateKeepsInv(t, id, capacity, handle);
    case DoFree(id) => FreeKeepsInv(t, id);
    case DoAcquire(ids) => AcquireKeepsInv(t, ids);
    case DoRelease(k) => ReleaseKeepsInv(t, k);
  }

  ghost predicate RunOf<E>(states: seq<Table<E>>, ops: seq<Op<E>>) {
    && |states| == |ops| + 1 && states[0] == Table(map[], [])
    && forall i | 0 <= i < |ops| :: Possible(states[i], ops[i]) && states[i + 1] == Apply(states[i], ops[i])
  }

  lemma {:induction false} RunKeepsInv<E>(states: seq<Table<E>>, ops: seq<Op<E>>, i: nat)
    requires RunOf(states, ops) && i < |states|
    ensures Inv(states[i])
  {
    if i > 0 {
      RunKeepsInv(states, ops, i - 1);
      ApplyKeepsInv(states[i - 1], ops[i - 1]);
    }
  }

  /** A lease, once handed out, keeps its ids and handles, and ends at most once. */
  lemma {:induction false} LeaseStays<E>(states: seq<Table<E>>, ops: seq<Op<E>>, i: nat, j: nat, k: nat)
    requires RunOf(states, ops) && i <= j < |states| && k < |states[i].leases|
    ensures k < |states[j].leases|
    ensures states[j].leases[k].ids == states[i].leases[k].ids
            && states[j].leases[k].handles == states[i].leases[k].handles
    ensures states[i].leases[k].released ==> states[j].leases[k].released
    decreases j - i
  {
    if i < j {
      LeaseStays(states, ops, i, j - 1, k);
      assert states[j] == Apply(states[j - 1], ops[j - 1]);
    }
  }

  /** Lease lifetime: from acquisition until it is released, whatever is allocated, freed or
      released in between, the ids of a lease map to the very entries it was given, and none of
      them can be allocated again. */
  lemma LeaseLifetime<E>(states: seq<Table<E>>, ops: seq<Op<E>>, i: nat, j: nat, k: nat, capacity: int, fresh': E)
    requires RunOf(states, ops) && i <= j < |states| && k < |states[i].leases|
    requires k < |states[j].leases| && !states[j].leases[k].released
    ensures |states[i].leases[k].handles| == |states[i].leases[k].ids|
    ensures forall n | 0 <= n < |states[i].leases[k].ids| ::
              var id := states[i].leases[k].ids[n];
              && id in states[j].entries && states[j].entries[id].handle == states[i].leases[k].handles[n]
              && Allocate(states[j], id, capacity, fresh')
                 == if id == "" || capacity <= 0 then Err(InvalidArgument) else Err(AlreadyExists)
  {
    LeaseStays(states, ops, i, j, k);
    RunKeepsInv(states, ops, j);
    assert LeaseOk(states[j], k);
  }

  /** An entry leaves the table exactly when it is freed while unused, or when the last live
      lease of an already freed entry ends. */
  lemma EntryLeavesExactly<E>(t: Table<E>, op: Op<E>, id: string)
    requires Inv(t) && Possible(t, op) && id in t.entries
    ensures id !in Apply(t, op).entries <==>
              || (op == DoFree(id) && !exists k :: 0 <= k < |t.leases| && Holds(t.leases[k], id))
              || (&& op.DoRelease? && t.entries[id].released && Holds(t.leases[op.lease], id)
                  && !exists k :: 0 <= k < |t.leases| && k != op.lease && Holds(t.leases[k], id))
    ensures id in Apply(t, op).entries ==> Apply(t, op).entries[id].handle == t.entries[id].handle
  {
    hide Handles, Acquire, Free, Release, LiveUsers;
    match op
    case DoRelease(k) => ReleaseLeaves(t, k, id);
    case DoFree(other) => FreeLeaves(t, other, id);
    case DoAcquire(ids) => if Acquire(t, ids).Ok? { AcquireStays(t, ids, id); }
    case _ =>
  }

  lemma AcquireStays<E>(t: Table<E>, ids: seq<string>, id: string)
    requires id in t.entries && Acquire(t, ids).Ok?
    ensures id in Acquire(t, ids).value.entries && Acquire(t, ids).value.entries[id].handle == t.entries[id].handle
  {
  }

  lemma FreeLeaves<E>(t: Table<E>, other: string, id: string)
    requires Inv(t) && id in t.entries
    ensures id !in Free(t, other).0.entries <==>
              other == id && !exists k :: 0 <= k < |t.leases| && Holds(t.leases[k], id)
    ensures id in Free(t, other).0.entries ==> Free(t, other).0.entries[id].handle == t.entries[id].handle
  {
    assert EntryOk(t, id);
  }

  lemma ReleaseLeaves<E>(t: Table<E>, k: nat, id: string)
    requires Inv(t) && id in t.entries && k < |t.leases|
    ensures id !in Release(t, k).entries <==>
              && t.entries[id].released && Holds(t.leases[k], id)
              && !exists j :: 0 <= j < |t.leases| && j != k && Holds(t.leases[j], id)
    ensures id in Release(t, k).entries ==> Release(t, k).entries[id].handle == t.entries[id].handle
  {
    assert EntryOk(t, id);
    if Holds(t.leases[k], id) {
      var rest := t.leases[k := t.leases[k].(released := true)];
      LiveUsersChange(t.leases, k, rest[k], id);
      assert forall j | 0 <= j < |rest| :: Holds(rest[j], id) <==> j != k && Holds(t.leases[j], id);
    }
  }

  /** Freeing makes an id unusable for new leases at once, and touches nothing else. */
  lemma FreedIsInactive<E>(t: Table<E>, id: string)
    ensures var (next, freed) := Free(t, id);
            && (freed <==> Active(t, id)) && !Active(next, id)
            && next.leases == t.leases
            && (forall other | other != id :: other in next.entries <==> other in t.entries)
            && (forall other | other != id && other in t.entries :: next.entries[other] == t.entries[other])
            && (id in next.entries ==> id in t.entries && next.entries[id].handle == t.entries[id].handle
                                       && next.entries[id].users == t.entries[id].users)
  {
  }

  /** A lease is handed out exactly for distinct usable ids; it holds their entries, and each of them
      has one user more. */
  lemma LeaseGranted<E>(t: Table<E>, ids: seq<string>)
    ensures var r := Acquire(t, ids);
            && (r.Ok? <==> NoDup(ids) && forall j | 0 <= j < |ids| :: Active(t, ids[j]))
            && (r.Err? ==> r.error == if NoDup(ids) then NotFound else InvalidArgument)
            && (r.Ok? ==>
                 var lease := r.value.leases[|t.leases|];
                 && r.value.leases == t.leases + [lease] && lease.ids == ids && !lease.released
                 && |lease.handles| == |ids|
                 && (forall j | 0 <= j < |ids| :: lease.handles[j] == t.entries[ids[j]].handle)
                 && r.value.entries.Keys == t.entries.Keys
                 && (forall id | id in t.entries :: r.value.entries[id]
                                    == t.entries[id].(users := t.entries[id].users + if id in ids then 1 else 0)))
  {
  }

  /** Releasing again changes nothing, whatever happened in between. */
  lemma ReleaseTwice<E>(states: seq<Table<E>>, ops: seq<Op<E>>, i: nat, j: nat, k: nat)
    requires RunOf(states, ops) && i < j < |ops| && k < |states[i].leases|
    requires ops[i] == DoRelease(k) && ops[j] == DoRelease(k)
    ensures states[j + 1] == states[j]
  {
    assert states[i + 1] == Release(states[i], k);
    LeaseStays(states, ops, i + 1, j, k);
  }
}
