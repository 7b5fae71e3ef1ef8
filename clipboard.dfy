/**
 The cached clipboard: a read-through cache in front of the fresh ability and
 role queries. A read consults the store; on a hit it returns the stored names
 as they are, on a miss it computes them fresh from the database, stores them
 (even when there are none) and returns them. `Refresh` forgets every entry,
 `RefreshFor` forgets one subject's entries. The clipboard keeps no entries
 of its own: all cached state is in the store it was built over.
 */
module Clipboard {
  import opened Grants
  import opened CacheStore

  /** What a fresh query for key `k` returns under grant state `g`. */
  function Fresh(g: GrantState, k: Key): set<Name>
  {
    match k.scope
    case AbilitiesScope => AbilitiesOf(g, k.subject)
    case RolesScope => RolesOf(g, k.subject)
  }

  /** The outcome of one read: the names returned, the new store, and whether a fresh query ran. */
  datatype Read = Read(value: set<Name>, store: Store, computed: bool)

  /** A read-through of slot `k`: a hit returns the stored names, a miss computes and stores them. */
  function ReadThrough(st: Store, g: GrantState, k: Key): Read
  {
    if k in st then Read(st[k], st, false)
    else Read(Fresh(g, k), st[k := Fresh(g, k)], true)
  }

  /** The store after a global refresh: no entry survives. */
  function Refreshed(st: Store): Store
  {
    map[]
  }

  /**
   The store after forgetting subject `s`'s abilities slot and, when
   `alsoRoles` holds, its roles slot as well.
   */
  function ForgetSubject(st: Store, s: SubjectId, alsoRoles: bool): Store
  {
    st - {KeyFor(AbilitiesScope, s)} - (if alsoRoles then {KeyFor(RolesScope, s)} else {})
  }

  /**
   Forgetting one subject drops its abilities slot, leaves every other
   subject's entries as they were and adds none.
   */
  lemma ForgetSubjectIsolated(st: Store, s: SubjectId, alsoRoles: bool, k: Key)
    requires k.subject != s
    ensures Lookup(ForgetSubject(st, s, alsoRoles), k) == Lookup(st, k)
    ensures ForgetSubject(st, s, alsoRoles).Keys <= st.Keys
    ensures KeyFor(AbilitiesScope, s) !in ForgetSubject(st, s, alsoRoles)
  {
  }

  class CachedClipboard {
    const store: ArrayStore

    /** How many fresh ability queries this clipboard has run (the tests' `once()` expectation). */
    ghost var freshAbilityQueries: nat
    /** How many fresh role queries this clipboard has run. */
    ghost var freshRoleQueries: nat

    constructor (store: ArrayStore)
      ensures this.store == store
      ensures freshAbilityQueries == 0 && freshRoleQueries == 0
    {
      this.store := store;
      freshAbilityQueries, freshRoleQueries := 0, 0;
    }

    /** The fresh ability query: the subject's ability names as the database holds them now. */
    method GetFreshAbilities(db: Database, s: SubjectId) returns (names: set<Name>)
      modifies this`freshAbilityQueries
      ensures names == AbilitiesOf(db.grants, s)
      ensures freshAbilityQueries == old(freshAbilityQueries) + 1
    {
      names := AbilitiesOf(db.grants, s);
      freshAbilityQueries := freshAbilityQueries + 1;
    }

    /** The fresh roles query: the subject's role names as the database holds them now. */
    method GetFreshRoles(db: Database, s: SubjectId) returns (names: set<Name>)
      modifies this`freshRoleQueries
      ensures names == RolesOf(db.grants, s)
      ensures freshRoleQueries == old(freshRoleQueries) + 1
    {
      names := RolesOf(db.grants, s);
      freshRoleQueries := freshRoleQueries + 1;
    }

    method GetAbilities(db: Database, s: SubjectId) returns (names: set<Name>)
      modifies store, this`freshAbilityQueries
      ensures var r := ReadThrough(old(store.entries), db.grants, KeyFor(AbilitiesScope, s));
        && names == r.value
        && store.entries == r.store
        && freshAbilityQueries == old(freshAbilityQueries) + (if r.computed then 1 else 0)
      ensures freshRoleQueries == old(freshRoleQueries)
    {
      var k := KeyFor(AbilitiesScope, s);
      var cached := store.Get(k);
      if cached.Some? {
        names := cached.value;
      } else {
        names := GetFreshAbilities(db, s);
        store.Put(k, names);
      }
    }

    method GetRoles(db: Database, s: SubjectId) returns (names: set<Name>)
      modifies store, this`freshRoleQueries
      ensures var r := ReadThrough(old(store.entries), db.grants, KeyFor(RolesScope, s));
        && names == r.value
        && store.entries == r.store
        && freshRoleQueries == old(freshRoleQueries) + (if r.computed then 1 else 0)
      ensures freshAbilityQueries == old(freshAbilityQueries)
    {
      var k := KeyFor(RolesScope, s);
      var cached := store.Get(k);
      if cached.Some? {
        names := cached.value;
      } else {
        names := GetFreshRoles(db, s);
        store.Put(k, names);
      }
    }

    /** Forgets every cached entry. */
    method Refresh()
      modifies store
      ensures store.entries == Refreshed(old(store.entries))
    {
      store.Flush();
    }

    /**
     Forgets subject `s`'s cached abilities and touches no other subject's
     entries. Whether the roles slot of `s` goes too is left open.
     */
    method RefreshFor(s: SubjectId)
      modifies store
      ensures store.entries == ForgetSubject(old(store.entries), s, false)
           || store.entries == ForgetSubject(old(store.entries), s, true)
    {
      store.Forget(KeyFor(AbilitiesScope, s));
      store.Forget(KeyFor(RolesScope, s));
    }
  }
}
