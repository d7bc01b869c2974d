/** The request-level contiguous cache: one buffer per layer and request, appended to and
    compacted in place, and kept alive by leases (kv_cache.py:784-1040). One slot holds the key
    and the value of one token. */
module ContiguousCache {
  import opened Collections
  import opened Leases

  // ---- in-place copies -------------------------------------------------------------------

  function Overwritten<V>(slots: seq<V>, start: nat, xs: seq<V>): (r: seq<V>)
    requires start + |xs| <= |slots|
    ensures |r| == |slots|
  {
    slots[..start] + xs + slots[start + |xs|..]
  }

  method CopyInto<V>(a: array<V>, start: nat, xs: seq<V>)
    requires start + |xs| <= a.Length
    modifies a
    ensures a[..] == Overwritten(old(a[..]), start, xs)
  {
    for i := 0 to |xs|
      invariant forall k | 0 <= k < i :: a[start + k] == xs[k]
      invariant forall k | 0 <= k < a.Length && !(start <= k < start + i) :: a[k] == old(a[k])
    {
      a[start + i] := xs[i];
    }
  }

  /** How many retained queries are not already where they belong. */
  function Moved(retained: seq<nat>): nat {
    if retained == [] then 0 else
      var last := |retained| - 1;
      Moved(retained[..last]) + if retained[last] != last then 1 else 0
  }

  method CountMoved(start: nat, retained: seq<nat>) returns (moved: nat)
    ensures moved == Moved(retained)
  {
    moved := 0;
    for k := 0 to |retained|
      invariant moved == Moved(retained[..k])
    {
      assert retained[..k + 1][..k] == retained[..k];
      if start + retained[k] != start + k { moved := moved + 1; }
    }
    assert retained[..|retained|] == retained;
  }

  /** Keeping the first queries in place is shortening the cache. */
  lemma PrefixKept<V>(slots: seq<V>, computed: nat, retained: seq<nat>)
    requires computed + |retained| <= |slots| && retained == seq(|retained|, k => k)
    ensures slots[..computed + |retained|] == Compacted(slots, computed, retained)
  {
  }

  /** How many move is how many are not in place. */
  lemma {:induction false} MovedCounts(retained: seq<nat>)
    ensures Moved(retained) == |set k | 0 <= k < |retained| && retained[k] != k|
  {
    var moved := set k | 0 <= k < |retained| && retained[k] != k;
    if retained == [] {
      assert moved == {};
    } else {
      var last := |retained| - 1;
      MovedCounts(retained[..last]);
      var before := set k | 0 <= k < |retained[..last]| && retained[..last][k] != k;
      assert moved == before + if retained[last] != last then {last} else {};
    }
  }

  /** None moves exactly when the list is 0, 1, 2, ...: the fast path loses nothing. */
  lemma {:induction false} NoneMoves(retained: seq<nat>)
    ensures Moved(retained) == 0 <==> forall k | 0 <= k < |retained| :: retained[k] == k
  {
    if retained != [] {
      NoneMoves(retained[..|retained| - 1]);
    }
  }

  /** Behind n entries that stay in place, at most the remaining ones move. */
  lemma {:induction false} MovedBehind(n: nat, tail: seq<nat>)
    ensures Moved(seq(n, k => k) + tail) <= |tail|
  {
    var all: seq<nat> := seq(n, k => k) + tail;
    if tail == [] {
      NoneMoves(all);
    } else {
      assert all[..|all| - 1] == seq(n, k => k) + tail[..|tail| - 1];
      MovedBehind(n, tail[..|tail| - 1]);
    }
  }

  // ---- one entry -------------------------------------------------------------------------

  class CacheEntry<V(0)> {
    const layers: seq<array<V>>
    const capacity: nat
    var length: nat
    var users: int
    var released: bool

    ghost predicate Valid(numLayers: nat)
      reads `length
    {
      && |layers| == numLayers > 0 && NoDup(layers)
      && (forall l | 0 <= l < |layers| :: layers[l].Length == capacity)
      && length <= capacity
    }

    /** The valid slots of one layer. */
    ghost function Slots(l: nat): (slots: seq<V>)
      requires l < |layers| && length <= layers[l].Length
      reads this, layers[l]
      ensures |slots| == length
    {
      layers[l][..length]
    }

    constructor (numLayers: nat, capacity: nat)
      requires numLayers > 0
      ensures Valid(numLayers) && fresh(layers)
      ensures this.capacity == capacity && length == 0 && users == 0 && !released
    {
      var buffers: seq<array<V>> := [];
      for l := 0 to numLayers
        invariant |buffers| == l && NoDup(buffers)
        invariant forall k | 0 <= k < l :: fresh(buffers[k]) && buffers[k].Length == capacity
      {
        var buffer := new V[capacity];
        buffers := buffers + [buffer];
      }
      layers := buffers;
      this.capacity := capacity;
      length := 0;
      users := 0;
      released := false;
    }

    /** Write xs[l] into every layer l from `start` on. */
    method WriteLayers(numLayers: nat, start: nat, xs: seq<seq<V>>, n: nat)
      requires Valid(numLayers) && |xs| == numLayers
      requires start + n <= capacity && forall l | 0 <= l < |xs| :: |xs[l]| == n
      modifies layers
      ensures forall l | 0 <= l < |layers| :: layers[l][..] == Overwritten(old(layers[l][..]), start, xs[l])
    {
      for l := 0 to |layers|
        invariant forall k | 0 <= k < l :: layers[k][..] == Overwritten(old(layers[k][..]), start, xs[k])
        invariant forall k | l <= k < |layers| :: layers[k][..] == old(layers[k][..])
      {
        CopyInto(layers[l], start, xs[l]);
      }
    }

    method Grow(numLayers: nat, updates: seq<seq<V>>, n: nat)
      requires Valid(numLayers) && |updates| == numLayers
      requires length + n <= capacity && forall l | 0 <= l < |updates| :: |updates[l]| == n
      modifies `length, layers
      ensures Valid(numLayers) && length == old(length) + n
      ensures forall l | 0 <= l < |layers| :: Slots(l) == old(Slots(l)) + updates[l]
    {
      WriteLayers(numLayers, length, updates, n);
      length := length + n;
    }

    /** Queries kept where they are need no copy. */
    method KeepFirst(numLayers: nat, computed: nat, retained: seq<nat>)
      requires Valid(numLayers) && computed <= length && retained == seq(|retained|, k => k)
      requires forall k | 0 <= k < |retained| :: retained[k] < length - computed
      modifies `length
      ensures Valid(numLayers) && length == computed + |retained|
      ensures forall l | 0 <= l < |layers| :: Slots(l) == Compacted(old(Slots(l)), computed, retained)
    {
      DistinctFit(retained, length - computed);
      forall l | 0 <= l < |layers|
        ensures layers[l][..computed + |retained|] == Compacted(Slots(l), computed, retained)
      {
        PrefixKept(Slots(l), computed, retained);
      }
      length := computed + |retained|;
    }

    /** Gather first and overwrite afterwards, so overlapping source and target do no harm. */
    method Keep(numLayers: nat, computed: nat, retained: seq<nat>)
      requires Valid(numLayers) && computed <= length && NoDup(retained)
      requires forall k | 0 <= k < |retained| :: retained[k] < length - computed
      modifies `length, layers
      ensures Valid(numLayers) && length == computed + |retained|
      ensures forall l | 0 <= l < |layers| :: Slots(l) == Compacted(old(Slots(l)), computed, retained)
    {
      DistinctFit(retained, length - computed);
      var gathered: seq<seq<V>> := [];
      for l := 0 to |layers|
        invariant |gathered| == l
        invariant forall k | 0 <= k < l :: gathered[k] == Gather(layers[k][computed..length], retained)
      {
        gathered := gathered + [Gather(layers[l][computed..length], retained)];
      }
      WriteLayers(numLayers, computed, gathered, |retained|);
      length := computed + |retained|;
    }
  }

  class KVCacheLease<V(0)> {
    const cache: ContiguousKVCache<V>
    const requestIds: seq<string>
    const entries: seq<CacheEntry<V>>
    var released: bool

    constructor (cache: ContiguousKVCache<V>, requestIds: seq<string>, entries: seq<CacheEntry<V>>)
      ensures this.cache == cache && this.requestIds == requestIds && this.entries == entries && !released
    {
      this.cache, this.requestIds, this.entries, released := cache, requestIds, entries, false;
    }
  }

  // ---- the cache -------------------------------------------------------------------------

  class ContiguousKVCache<V(0)> {
    const numLayers: nat
    var entries: map<string, CacheEntry<V>>
    ghost var leases: seq<KVCacheLease<V>>

    /** Which ids map to which entries, who uses them, and which leases are live. */
    ghost function View(): Table<CacheEntry<V>>
      reads `entries, entries.Values`users, entries.Values`released, `leases, leases`released
    {
      Table(EntriesView(), LeaseViews(leases))
    }

    ghost function EntriesView(): map<string, Entry<CacheEntry<V>>>
      reads `entries, entries.Values`users, entries.Values`released
    {
      map id | id in entries :: Entry(entries[id], entries[id].users, entries[id].released)
    }

    static ghost function LeaseViews(handed: seq<KVCacheLease<V>>): (views: seq<Lease<CacheEntry<V>>>)
      reads handed`released
      ensures |views| == |handed|
      ensures forall k | 0 <= k < |handed| ::
                views[k] == Lease(handed[k].requestIds, handed[k].entries, handed[k].released)
    {
      if handed == [] then [] else
        var last := |handed| - 1;
        LeaseViews(handed[..last]) + [Lease(handed[last].requestIds, handed[last].entries, handed[last].released)]
    }

    /** Every entry has its own buffers. */
    ghost predicate BuffersOk()
      reads `entries, entries.Values`length
    {
      && (forall id | id in entries :: entries[id].Valid(numLayers))
      && (forall a, b, i, j | && a in entries && b in entries && a != b
                              && 0 <= i < |entries[a].layers| && 0 <= j < |entries[b].layers| ::
            entries[a].layers[i] != entries[b].layers[j])
    }

    ghost predicate Valid()
      reads this, entries.Values, leases
    {
      numLayers > 0 && Leases.Inv(View()) && NoDup(leases) && BuffersOk()
    }

    constructor (numLayers: nat)
      requires numLayers > 0
      ensures Valid() && View() == Table(map[], []) && this.numLayers == numLayers
    {
      this.numLayers := numLayers;
      entries := map[];
      leases := [];
    }

    /** An id whose entry is freed but still leased can be read and written, not leased again. */
    predicate Reachable(id: string)
      reads this, entries.Values
    {
      id in entries && !(entries[id].released && entries[id].users == 0)
    }

    lemma HeldIsReachable(id: string)
      requires Valid()
      ensures Reachable(id) <==> id in entries
    {
      if id in entries { assert Leases.EntryOk(View(), id); }
    }

    method Truncate(id: string, numTokens: int) returns (r: Option<CacheError>)
      requires Valid()
      modifies if id in entries then {entries[id]} else {}
      ensures Valid() && View() == old(View())
      ensures r == (if numTokens < 0 then Some(InvalidArgument)
                    else if id !in entries then Some(NotFound)
                    else if numTokens > old(entries[id].length) then Some(CapacityExceeded)
                    else None)
      ensures id in entries ==> forall l | 0 <= l < numLayers ::
                entries[id].Slots(l) == if r.None? then old(entries[id].Slots(l))[..numTokens]
                    else old(entries[id].Slots(l))
    {
      hide Leases.Inv, View;
      HeldIsReachable(id);
      if numTokens < 0 { return Some(InvalidArgument); }
      if !Reachable(id) { return Some(NotFound); }
      if numTokens > entries[id].length { return Some(CapacityExceeded); }
      entries[id].length := numTokens;
      r := None;
    }

    /** The updates of one step: every layer brings the same number of tokens. */
    static predicate UpdatesOk(updates: seq<seq<V>>) {
      updates != [] && forall l | 0 <= l < |updates| :: |updates[l]| == |updates[0]|
    }

    /** All layers grow by the same tokens, or none does. */
    method Append(id: string, updates: seq<seq<V>>) returns (r: Option<CacheError>)
      requires Valid() && UpdatesOk(updates)
      modifies if id in entries then {entries[id]} else {}, if id in entries then entries[id].layers else []
      ensures Valid() && View() == old(View())
      ensures r == (if id !in entries then Some(NotFound)
                    else if |updates| != numLayers then Some(BadUpdate)
                    else if old(entries[id].length) + |updates[0]| > entries[id].capacity then Some(CapacityExceeded)
                    else None)
      ensures id in entries ==> forall l | 0 <= l < numLayers ::
                entries[id].Slots(l) == old(entries[id].Slots(l)) + if r.None? then updates[l] else []
    {
      hide Leases.Inv, View;
      HeldIsReachable(id);
      if !Reachable(id) { return Some(NotFound); }
      if |updates| != numLayers { return Some(BadUpdate); }
      var entry := entries[id];
      var newLength := entry.length + |updates[0]|;
      if newLength > entry.capacity { return Some(CapacityExceeded); }
      entry.Grow(numLayers, updates, |updates[0]|);
      r := None;
    }

    /** Keep the queries of this step named by `retained`, in that order, behind the computed
        tokens; every layer alike. Returns how many of them had to move. */
    method Compact(id: string, numComputed: int, retained: seq<nat>) returns (r: Result<nat, CacheError>)
      requires Valid()
      modifies if id in entries then {entries[id]} else {}, if id in entries then entries[id].layers else []
      ensures Valid() && View() == old(View())
      ensures r.Err? <==>
                          || numComputed < 0 || !NoDup(retained) || id !in entries
                              || numComputed > old(entries[id].length)
                          || exists k :: 0 <= k < |retained| && retained[k] >= old(entries[id].length) - numComputed
      ensures r.Err? && id in entries ==> forall l | 0 <= l < numLayers ::
              entries[id].Slots(l) == old(entries[id].Slots(l))
      ensures r.Ok? ==> r.value == Moved(retained)
      ensures r.Ok? ==> forall l | 0 <= l < numLayers ::
                entries[id].Slots(l) == Compacted(old(entries[id].Slots(l)), numComputed, retained)
    {
      hide Leases.Inv, View, Compacted, Moved;
      HeldIsReachable(id);
      if numComputed < 0 { return Err(InvalidArgument); }
      if exists j, k | 0 <= j < k < |retained| :: retained[j] == retained[k] { return Err(InvalidArgument); }
      if !Reachable(id) { return Err(NotFound); }
      var entry := entries[id];
      if numComputed > entry.length { return Err(BadIndex); }
      var queryCount := entry.length - numComputed;
      if exists k | 0 <= k < |retained| :: retained[k] >= queryCount { return Err(BadIndex); }
      if retained == seq(|retained|, k => k) {
        NoneMoves(retained);
        entry.KeepFirst(numLayers, numComputed, retained);
        return Ok(0);
      }
      var moved := CountMoved(numComputed, retained);
      entry.Keep(numLayers, numComputed, retained);
      r := Ok(moved);
    }

    /** The tokens cached for an id, layer by layer. */
    method Read(id: string) returns (r: Result<seq<seq<V>>, CacheError>)
      requires Valid()
      ensures r.Err? <==> id !in entries
      ensures r.Err? ==> r.error == NotFound
      ensures r.Ok? ==> |r.value| == numLayers && forall l | 0 <= l < numLayers :: r.value[l] == entries[id].Slots(l)
    {
      HeldIsReachable(id);
      if !Reachable(id) { return Err(NotFound); }
      var entry := entries[id];
      var layers: seq<seq<V>> := [];
      for l := 0 to numLayers
        invariant |layers| == l && forall k | 0 <= k < l :: layers[k] == entry.Slots(k)
      {
        layers := layers + [entry.layers[l][..entry.length]];
      }
      r := Ok(layers);
    }

    // ---- allocation and leases -------------------------------------------------------------

    method Allocate(id: string, capacity: int) returns (r: Option<CacheError>)
      requires Valid()
      modifies `entries
      ensures Valid()
      ensures r == (if id == "" || capacity <= 0 then Some(InvalidArgument)
                    else if id in old(entries) then Some(AlreadyExists)
                    else None)
      ensures r.Some? ==> View() == old(View())
      ensures r.None? ==> && id in entries && fresh(entries[id]) && fresh(entries[id].layers)
                          && entries[id].capacity == capacity && entries[id].length == 0
                          && Leases.Allocate(old(View()), id, capacity, entries[id]) == Ok(View())
    {
      hide Leases.Inv, LeaseViews;
      if id == "" || capacity <= 0 { return Some(InvalidArgument); }
      if id in entries { return Some(AlreadyExists); }
      ghost var before := View();
      var entry := new CacheEntry(numLayers, capacity);
      Leases.AllocateKeepsInv(before, id, capacity, entry);
      entries := entries[id := entry];
      assert View().entries == before.entries[id := Entry(entry, 0, false)] && View().leases == before.leases;
      r := None;
    }

    method Free(id: string) returns (r: bool)
      requires Valid()
      modifies `entries, entries.Values`released
      ensures Valid() && (View(), r) == Leases.Free(old(View()), id)
    {
      hide Leases.Inv, CacheEntry.Valid, LeaseViews;
      ghost var before := View();
      DistinctEntries();
      Leases.FreeKeepsInv(before, id);
      if id !in entries || entries[id].released { return false; }
      var entry := entries[id];
      entry.released := true;
      if entry.users == 0 {
        entries := entries - {id};
      }
      r := true;
      assert View().entries == Leases.Free(before, id).0.entries;
      assert View().leases == before.leases;
    }

    lemma DistinctEntries()
      requires Valid()
      ensures forall a, b | a in entries && b in entries && a != b :: entries[a] != entries[b]
    {
      forall a, b | a in entries && b in entries && a != b ensures entries[a] != entries[b] {
        assert View().entries[a].handle != View().entries[b].handle;
      }
    }

    method ActiveEntries(ids: seq<string>) returns (r: Option<seq<CacheEntry<V>>>)
      requires Valid()
      ensures r.None? <==> exists j :: 0 <= j < |ids| && !Active(View(), ids[j])
      ensures r.Some? ==> |r.value| == |ids| && forall j | 0 <= j < |ids| ::
              ids[j] in entries && r.value[j] == entries[ids[j]]
    {
      hide Leases.Inv, BuffersOk, LeaseViews;
      var held: seq<CacheEntry<V>> := [];
      for j := 0 to |ids|
        invariant |held| == j && forall k | 0 <= k < j :: Active(View(), ids[k]) && held[k] == entries[ids[k]]
      {
        HeldIsReachable(ids[j]);
        if !Reachable(ids[j]) || entries[ids[j]].released { return None; }
        held := held + [entries[ids[j]]];
      }
      r := Some(held);
    }

    method AddUsers(ids: seq<string>, held: seq<CacheEntry<V>>)
      requires |held| == |ids| && NoDup(ids)
      requires forall j | 0 <= j < |ids| :: ids[j] in entries && entries[ids[j]] == held[j]
      requires forall a, b | a in entries && b in entries && a != b :: entries[a] != entries[b]
      modifies entries.Values`users
      ensures forall id | id in entries :: entries[id].users == old(entries[id].users) + if id in ids then 1 else 0
    {
      for j := 0 to |ids|
        invariant forall id | id in entries ::
                  entries[id].users == old(entries[id].users) + if id in ids[..j] then 1 else 0
      {
        assert ids[..j + 1] == ids[..j] + [ids[j]];
        held[j].users := held[j].users + 1;
      }
      assert ids[..|ids|] == ids;
    }

    method UseEntries(ids: seq<string>, held: seq<CacheEntry<V>>)
      requires |held| == |ids| && NoDup(ids)
      requires forall j | 0 <= j < |ids| :: ids[j] in entries && entries[ids[j]] == held[j]
      requires forall a, b | a in entries && b in entries && a != b :: entries[a] != entries[b]
      modifies entries.Values`users
      ensures EntriesView() == Leases.Used(old(EntriesView()), ids)
    {
      AddUsers(ids, held);
    }

    method HandOut(ids: seq<string>, held: seq<CacheEntry<V>>) returns (lease: KVCacheLease<V>)
      requires Valid() && Leases.Acquire(View(), ids).Ok? && NoDup(ids)
      requires |held| == |ids| && forall j | 0 <= j < |ids| :: ids[j] in entries && held[j] == entries[ids[j]]
      modifies `leases, entries.Values`users
      ensures Valid() && View() == Leases.Acquire(old(View()), ids).value
      ensures fresh(lease) && leases == old(leases) + [lease] && lease.cache == this
    {
      hide Leases.Inv, BuffersOk, LeaseViews, EntriesView, Used;
      ghost var before := View();
      DistinctEntries();
      Leases.AcquireKeepsInv(before, ids);
      AreHandles(ids, held);
      UseEntries(ids, held);
      lease := new KVCacheLease(this, ids, held);
      leases := leases + [lease];
      assert View().leases == before.leases + [Lease(ids, Handles(before, ids), false)];
    }

    method AcquireLease(ids: seq<string>) returns (r: Result<KVCacheLease<V>, CacheError>)
      requires Valid()
      modifies `leases, entries.Values`users
      ensures Valid()
      ensures match Leases.Acquire(old(View()), ids)
              case Err(e) => r == Err(e) && View() == old(View())
              case Ok(next) => && r.Ok? && View() == next && fresh(r.value)
                                 && leases == old(leases) + [r.value] && r.value.cache == this
    {
      hide Leases.Inv, BuffersOk, View;
      if exists j, k | 0 <= j < k < |ids| :: ids[j] == ids[k] { return Err(InvalidArgument); }
      var found := ActiveEntries(ids);
      if found.None? { return Err(NotFound); }
      var lease := HandOut(ids, found.value);
      r := Ok(lease);
    }

    lemma AreHandles(ids: seq<string>, held: seq<CacheEntry<V>>)
      requires |held| == |ids| && forall j | 0 <= j < |ids| :: ids[j] in entries && held[j] == entries[ids[j]]
      ensures forall j | 0 <= j < |ids| :: ids[j] in View().entries
      ensures held == Handles(View(), ids)
    {
    }

    /** The users of a lease leave, and a freed entry without users goes away. */
    method DropUsers(ids: seq<string>, held: seq<CacheEntry<V>>)
      requires |held| == |ids| && NoDup(ids)
      requires forall j | 0 <= j < |ids| :: ids[j] in entries && entries[ids[j]] == held[j]
      requires forall a, b | a in entries && b in entries && a != b :: entries[a] != entries[b]
      modifies `entries, entries.Values`users
      ensures forall id :: id in entries <==>
                id in old(entries) && !(id in ids && old(entries[id].released) && old(entries[id].users) == 1)
      ensures forall id | id in entries :: entries[id] == old(entries)[id]
      ensures forall id | id in old(entries) ::
                old(entries)[id].users == old(entries[id].users) - if id in ids then 1 else 0
    {
      for j := 0 to |ids|
        invariant forall id :: id in entries <==>
                    id in old(entries) && !(id in ids[..j] && old(entries[id].released) && old(entries[id].users) == 1)
        invariant forall id | id in entries :: entries[id] == old(entries)[id]
        invariant forall id | id in old(entries) ::
                    old(entries)[id].users == old(entries[id].users) - if id in ids[..j] then 1 else 0
      {
        assert ids[..j + 1] == ids[..j] + [ids[j]];
        var entry := held[j];
        entry.users := entry.users - 1;
        if entry.released && entry.users == 0 {
          entries := entries - {ids[j]};
        }
      }
      assert ids[..|ids|] == ids;
    }

    method LeaveEntries(ids: seq<string>, held: seq<CacheEntry<V>>)
      requires |held| == |ids| && NoDup(ids)
      requires forall j | 0 <= j < |ids| :: ids[j] in entries && entries[ids[j]] == held[j]
      requires forall a, b | a in entries && b in entries && a != b :: entries[a] != entries[b]
      modifies `entries, entries.Values`users
      ensures EntriesView() == Leases.Dropped(old(EntriesView()), ids)
      ensures forall id | id in entries :: id in old(entries) && entries[id] == old(entries)[id]
    {
      DropUsers(ids, held);
      ghost var after := Leases.Dropped(old(EntriesView()), ids);
      forall id
        ensures id in entries <==> id in after
        ensures id in entries ==> EntriesView()[id] == after[id]
      {
        if id in old(entries) { assert old(EntriesView())[id].handle == old(entries)[id]; }
      }
    }

    method ReleaseLease(lease: KVCacheLease<V>, ghost k: nat)
      requires Valid() && k < |leases| && leases[k] == lease
      modifies `entries, entries.Values`users, lease`released
      ensures Valid() && View() == Leases.Release(old(View()), k)
    {
      hide Leases.Inv, CacheEntry.Valid, LeaseViews, EntriesView, Dropped;
      ghost var before := View();
      DistinctEntries();
      Leases.ReleaseKeepsInv(before, k);
      if lease.released { return; }
      HeldByLease(k);
      LeaveEntries(lease.requestIds, lease.entries);
      lease.released := true;
      assert View().leases == before.leases[k := before.leases[k].(released := true)];
    }

    lemma HeldByLease(k: nat)
      requires Valid() && k < |leases| && !leases[k].released
      ensures NoDup(leases[k].requestIds) && |leases[k].entries| == |leases[k].requestIds|
      ensures forall j | 0 <= j < |leases[k].requestIds| ::
                leases[k].requestIds[j] in entries && entries[leases[k].requestIds[j]] == leases[k].entries[j]
    {
      assert LeaseOk(View(), k);
    }
  }
}
