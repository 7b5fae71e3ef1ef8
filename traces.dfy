/**
 The cache as a state machine over whole sequences of calls: grant mutations,
 reads through a clipboard, and the two invalidations. The world is the grant
 state together with the shared store; since a clipboard keeps nothing of its
 own, which clipboard object issues a read does not matter. The lemmas here
 are the staleness, isolation and invalidation properties of the cache.
 */
module Traces {
  import opened Grants
  import opened CacheStore
  import opened Clipboard

  datatype World = World(grants: GrantState, store: Store)

  datatype Op =
    | Mutate(m: Mutation)
    | ReadAbilities(s: SubjectId)
    | ReadRoles(s: SubjectId)
    | RefreshAll
    | RefreshSubject(s: SubjectId, alsoRoles: bool)

  /** One step: the new world, what a read returned, and whether a fresh query ran. */
  datatype Event = Event(world: World, seen: Option<set<Name>>, computed: bool)

  predicate IsRead(op: Op)
  {
    op.ReadAbilities? || op.ReadRoles?
  }

  /** The slot a read consults. */
  function ReadKey(op: Op): Key
    requires IsRead(op)
  {
    if op.ReadAbilities? then KeyFor(AbilitiesScope, op.s) else KeyFor(RolesScope, op.s)
  }

  /** `op` forgets slot `k`. */
  predicate Invalidates(op: Op, k: Key)
  {
    op.RefreshAll?
    || (op.RefreshSubject? && op.s == k.subject && (k.scope == AbilitiesScope || op.alsoRoles))
  }

  function Step(w: World, op: Op): Event
  {
    match op
    case Mutate(m) => Event(World(Apply(w.grants, m), w.store), None, false)
    case ReadAbilities(_) | ReadRoles(_) =>
      var r := ReadThrough(w.store, w.grants, ReadKey(op));
      Event(World(w.grants, r.store), Some(r.value), r.computed)
    case RefreshAll => Event(World(w.grants, Refreshed(w.store)), None, false)
    case RefreshSubject(s, alsoRoles) =>
      Event(World(w.grants, ForgetSubject(w.store, s, alsoRoles)), None, false)
  }

  function Run(w: World, ops: seq<Op>): World
    decreases |ops|
  {
    if ops == [] then w else Run(Step(w, ops[0]).world, ops[1..])
  }

  /** What each call of `ops` returned: the names for a read, `None` otherwise. */
  function Seen(w: World, ops: seq<Op>): (r: seq<Option<set<Name>>>)
    ensures |r| == |ops|
    ensures forall i :: 0 <= i < |ops| ==> (r[i].Some? <==> IsRead(ops[i]))
    decreases |ops|
  {
    if ops == [] then [] else [Step(w, ops[0]).seen] + Seen(Step(w, ops[0]).world, ops[1..])
  }

  /** How many fresh queries `ops` ran. */
  function Queries(w: World, ops: seq<Op>): nat
    decreases |ops|
  {
    if ops == [] then 0
    else (if Step(w, ops[0]).computed then 1 else 0) + Queries(Step(w, ops[0]).world, ops[1..])
  }

  /** `n` calls of `op` in a row. */
  function Repeat(op: Op, n: nat): (r: seq<Op>)
    ensures |r| == n
    ensures forall i :: 0 <= i < n ==> r[i] == op
  {
    if n == 0 then [] else [op] + Repeat(op, n - 1)
  }

  /** No grant mutation among `ops`. */
  predicate NoMutation(ops: seq<Op>)
  {
    forall i :: 0 <= i < |ops| ==> !ops[i].Mutate?
  }

  /** Every cached slot holds what a fresh query would return now. */
  ghost predicate Coherent(w: World)
  {
    forall k :: k in w.store ==> w.store[k] == Fresh(w.grants, k)
  }

  /** Slot `k`, if cached, holds what a fresh query would return now. */
  ghost predicate SlotCoherent(w: World, k: Key)
  {
    k in w.store ==> w.store[k] == Fresh(w.grants, k)
  }

  /** On a miss a read returns the current ground truth and stores exactly that, even when it is empty. */
  lemma ReadMissReturnsTruth(w: World, op: Op)
    requires IsRead(op) && ReadKey(op) !in w.store
    ensures Step(w, op).seen == Some(Fresh(w.grants, ReadKey(op)))
    ensures Step(w, op).computed
    ensures Step(w, op).world.store == w.store[ReadKey(op) := Fresh(w.grants, ReadKey(op))]
  {
  }

  /** On a hit a read returns the stored names as they are and runs no query. */
  lemma ReadHitReturnsCached(w: World, op: Op)
    requires IsRead(op) && ReadKey(op) in w.store
    ensures Step(w, op).seen == Some(w.store[ReadKey(op)])
    ensures !Step(w, op).computed && Step(w, op).world == w
  {
  }

  /** Grant mutations change the ground truth and never touch the store. */
  lemma MutationLeavesCache(w: World, m: Mutation)
    ensures Step(w, Mutate(m)).world == World(Apply(w.grants, m), w.store)
  {
  }

  /** Reading one scope of a subject neither fills nor empties its other scope. */
  lemma ScopesIndependent(w: World, s: SubjectId)
    ensures var k := KeyFor(RolesScope, s);
      Lookup(Step(w, ReadAbilities(s)).world.store, k) == Lookup(w.store, k)
    ensures var k := KeyFor(AbilitiesScope, s);
      Lookup(Step(w, ReadRoles(s)).world.store, k) == Lookup(w.store, k)
  {
  }

  /** A cached slot keeps its value through any calls that do not invalidate it, grants included. */
  lemma {:induction false} CachedSlotSurvives(w: World, ops: seq<Op>, k: Key)
    requires k in w.store
    requires forall i :: 0 <= i < |ops| ==> !Invalidates(ops[i], k)
    ensures k in Run(w, ops).store && Run(w, ops).store[k] == w.store[k]
    decreases |ops|
  {
    if ops != [] {
      var w' := Step(w, ops[0]).world;
      assert !Invalidates(ops[0], k);
      assert k in w'.store && w'.store[k] == w.store[k];
      CachedSlotSurvives(w', ops[1..], k);
    }
  }

  /**
   Once a subject's abilities are cached, reads keep returning them, without
   a query, however the grants change, until an invalidation reaches the slot.
   */
  lemma StaleUntilInvalidated(w: World, ops: seq<Op>, s: SubjectId)
    requires KeyFor(AbilitiesScope, s) in w.store
    requires forall i :: 0 <= i < |ops| ==> !Invalidates(ops[i], KeyFor(AbilitiesScope, s))
    ensures Step(Run(w, ops), ReadAbilities(s)).seen == Some(w.store[KeyFor(AbilitiesScope, s)])
    ensures !Step(Run(w, ops), ReadAbilities(s)).computed
  {
    CachedSlotSurvives(w, ops, KeyFor(AbilitiesScope, s));
  }

  /** Reads and invalidations keep a coherent cache coherent, and every read in them returns the truth. */
  lemma {:induction false} CoherenceKept(w: World, ops: seq<Op>)
    requires Coherent(w) && NoMutation(ops)
    ensures Coherent(Run(w, ops)) && Run(w, ops).grants == w.grants
    ensures forall i :: 0 <= i < |ops| && IsRead(ops[i]) ==>
      Seen(w, ops)[i] == Some(Fresh(w.grants, ReadKey(ops[i])))
    decreases |ops|
  {
    if ops != [] {
      var e := Step(w, ops[0]);
      assert !ops[0].Mutate?;
      assert Coherent(e.world) && e.world.grants == w.grants;
      assert NoMutation(ops[1..]) by {
        forall i | 0 <= i < |ops[1..]| ensures !ops[1..][i].Mutate? { assert ops[1..][i] == ops[i + 1]; }
      }
      CoherenceKept(e.world, ops[1..]);
      forall i | 0 <= i < |ops| && IsRead(ops[i])
        ensures Seen(w, ops)[i] == Some(Fresh(w.grants, ReadKey(ops[i])))
      {
        if i > 0 { assert ops[1..][i - 1] == ops[i]; }
      }
    }
  }

  /** A global refresh leaves nothing that disagrees with the ground truth. */
  lemma RefreshRestoresCoherence(w: World)
    ensures Coherent(Step(w, RefreshAll).world)
  {
  }

  /**
   The staleness window closes at a refresh: after it, every read returns the
   ground truth of the moment, until the next grant mutation.
   */
  lemma NoStaleReadAfterRefresh(w: World, ops: seq<Op>)
    requires NoMutation(ops)
    ensures forall i :: 0 <= i < |ops| && IsRead(ops[i]) ==>
      Seen(Step(w, RefreshAll).world, ops)[i] == Some(Fresh(w.grants, ReadKey(ops[i])))
  {
    RefreshRestoresCoherence(w);
    CoherenceKept(Step(w, RefreshAll).world, ops);
  }

  /** Reads and invalidations keep one coherent slot coherent. */
  lemma {:induction false} SlotCoherenceKept(w: World, ops: seq<Op>, k: Key)
    requires SlotCoherent(w, k) && NoMutation(ops)
    ensures SlotCoherent(Run(w, ops), k) && Run(w, ops).grants == w.grants
    decreases |ops|
  {
    if ops != [] {
      var w' := Step(w, ops[0]).world;
      assert !ops[0].Mutate?;
      assert SlotCoherent(w', k) && w'.grants == w.grants;
      assert NoMutation(ops[1..]) by {
        forall i | 0 <= i < |ops[1..]| ensures !ops[1..][i].Mutate? { assert ops[1..][i] == ops[i + 1]; }
      }
      SlotCoherenceKept(w', ops[1..], k);
    }
  }

  /**
   After `refreshFor(s)`, the next read of `s`'s abilities returns the ground
   truth of the moment, whatever reads and invalidations come in between.
   */
  lemma NoStaleReadAfterRefreshFor(w: World, s: SubjectId, alsoRoles: bool, ops: seq<Op>)
    requires NoMutation(ops)
    ensures Step(Run(Step(w, RefreshSubject(s, alsoRoles)).world, ops), ReadAbilities(s)).seen
         == Some(AbilitiesOf(w.grants, s))
  {
    var w1 := Step(w, RefreshSubject(s, alsoRoles)).world;
    SlotCoherenceKept(w1, ops, KeyFor(AbilitiesScope, s));
  }

  /** Repeated reads of a cached slot run no query, return the cached names and change nothing. */
  lemma {:induction false} HitsQueryNothing(w: World, op: Op, n: nat)
    requires IsRead(op) && ReadKey(op) in w.store
    ensures Queries(w, Repeat(op, n)) == 0 && Run(w, Repeat(op, n)) == w
    ensures forall i :: 0 <= i < n ==> Seen(w, Repeat(op, n))[i] == Some(w.store[ReadKey(op)])
  {
    if n > 0 {
      assert Step(w, op).world == w;
      assert Repeat(op, n)[1..] == Repeat(op, n - 1);
      HitsQueryNothing(w, op, n - 1);
      forall i | 0 <= i < n
        ensures Seen(w, Repeat(op, n))[i] == Some(w.store[ReadKey(op)])
      {
        if i > 0 { assert Seen(w, Repeat(op, n))[i] == Seen(w, Repeat(op, n - 1))[i - 1]; }
      }
    }
  }

  /**
   Reading an uncached slot `n >= 1` times runs exactly one fresh query, and
   every read returns the same names, the ground truth, empty or not.
   */
  lemma RepeatedReadsQueryOnce(w: World, op: Op, n: nat)
    requires IsRead(op) && ReadKey(op) !in w.store && n >= 1
    ensures Queries(w, Repeat(op, n)) == 1
    ensures forall i :: 0 <= i < n ==> Seen(w, Repeat(op, n))[i] == Some(Fresh(w.grants, ReadKey(op)))
  {
    var w1 := Step(w, op).world;
    assert Repeat(op, n)[1..] == Repeat(op, n - 1);
    HitsQueryNothing(w1, op, n - 1);
    forall i | 0 <= i < n
      ensures Seen(w, Repeat(op, n))[i] == Some(Fresh(w.grants, ReadKey(op)))
    {
      if i > 0 { assert Seen(w, Repeat(op, n))[i] == Seen(w1, Repeat(op, n - 1))[i - 1]; }
    }
  }

  /** Every entry of `st` is what a fresh query returned under one of the grant states `past`. */
  ghost predicate Explained(st: Store, past: set<GrantState>)
  {
    forall k :: k in st ==> exists g :: g in past && st[k] == Fresh(g, k)
  }

  /** The grant states a run passes through, the starting one included. */
  function GrantsAlong(w: World, ops: seq<Op>): set<GrantState>
    decreases |ops|
  {
    {w.grants} + (if ops == [] then {} else GrantsAlong(Step(w, ops[0]).world, ops[1..]))
  }

  /**
   The cache never invents names: whatever it holds, and so whatever a hit
   returns, was the ground truth at some earlier point of the run.
   */
  lemma {:induction false} EntriesAreFormerTruths(w: World, ops: seq<Op>, past: set<GrantState>)
    requires Explained(w.store, past)
    ensures Explained(Run(w, ops).store, past + GrantsAlong(w, ops))
    decreases |ops|
  {
    if ops != [] {
      var w' := Step(w, ops[0]).world;
      assert Explained(w'.store, past + {w.grants}) by {
        forall k | k in w'.store
          ensures exists g :: g in past + {w.grants} && w'.store[k] == Fresh(g, k)
        {
          if k in w.store && w'.store[k] == w.store[k] {
            var g :| g in past && w.store[k] == Fresh(g, k);
            assert g in past + {w.grants};
          } else {
            assert w'.store[k] == Fresh(w.grants, k);
            assert w.grants in past + {w.grants};
          }
        }
      }
      EntriesAreFormerTruths(w', ops[1..], past + {w.grants});
      assert past + {w.grants} + GrantsAlong(w', ops[1..]) == past + GrantsAlong(w, ops);
    }
  }
}
