/**
 The cache store the clipboard is handed (an `ArrayStore` in the tests) and
 the keys the clipboard files its entries under. The store is an object
 shared by reference: every clipboard built over it sees the same entries.
 */
module CacheStore {
  import opened Grants

  datatype Option<T> = None | Some(value: T)

  /** The two independent cache slots each subject has. */
  datatype Scope = AbilitiesScope | RolesScope

  /**
   A cache key. The concrete key strings are not part of this model; all that
   is kept is that a key determines its scope and its subject.
   */
  datatype Key = Key(scope: Scope, subject: SubjectId)

  /** What the store holds: names keyed by (scope, subject). */
  type Store = map<Key, set<Name>>

  function KeyFor(scope: Scope, s: SubjectId): Key
  {
    Key(scope, s)
  }

  /** Different subjects or different scopes never share a key. */
  lemma KeyForInjective(scope: Scope, s: SubjectId, scope': Scope, s': SubjectId)
    ensures KeyFor(scope, s) == KeyFor(scope', s') <==> scope == scope' && s == s'
  {
  }

  /** The value `Get` finds under `k`, if any. */
  function Lookup(st: Store, k: Key): Option<set<Name>>
  {
    if k in st then Some(st[k]) else None
  }

  /** An in-memory key-value store: get, put, forget and flush. */
  class ArrayStore {
    var entries: Store

    constructor ()
      ensures entries == map[]
    {
      entries := map[];
    }

    method Get(k: Key) returns (r: Option<set<Name>>)
      ensures r.Some? <==> k in entries
      ensures r.Some? ==> r.value == entries[k]
    {
      r := Lookup(entries, k);
    }

    method Put(k: Key, v: set<Name>)
      modifies this
      ensures entries == old(entries)[k := v]
    {
      entries := entries[k := v];
    }

    method Forget(k: Key)
      modifies this
      ensures entries == old(entries) - {k}
    {
      entries := entries - {k};
    }

    method Flush()
      modifies this
      ensures entries == map[]
    {
      entries := map[];
    }
  }
}
