/**
 The Bouncer entry point as the tests drive it once it has been given a cache
 store: `allow`, `disallow` and `assign` write the grants and leave the cache
 alone; `is(...)->a(...)` checks role membership through the clipboard;
 `refresh` and `refreshFor` hand over to the clipboard.
 */
module Facade {
  import opened Grants
  import opened CacheStore
  import opened Clipboard

  class Bouncer {
    const db: Database
    const clipboard: CachedClipboard

    constructor (db: Database, store: ArrayStore)
      ensures this.db == db && clipboard.store == store && fresh(clipboard)
    {
      this.db := db;
      clipboard := new CachedClipboard(store);
    }

    /** `allow(who)->to(a)`: the grant is recorded; the cache is not touched. */
    method Allow(who: Grantee, a: Name)
      modifies db
      ensures db.grants == Apply(old(db.grants), Mutation.Allow(who, a))
    {
      db.Allow(who, a);
    }

    /** `disallow(who)->to(a)`: the grant is removed; the cache is not touched. */
    method Disallow(who: Grantee, a: Name)
      modifies db
      ensures db.grants == Apply(old(db.grants), Mutation.Disallow(who, a))
    {
      db.Disallow(who, a);
    }

    /** `assign(r)->to(s)`: the role is assigned; the cache is not touched. */
    method Assign(r: Name, s: SubjectId)
      modifies db
      ensures db.grants == Apply(old(db.grants), Mutation.Assign(r, s))
    {
      db.Assign(r, s);
    }

    /** `is(s)->a(r)`: whether `r` is among the roles read through the cache. */
    method Is(s: SubjectId, r: Name) returns (b: bool)
      modifies clipboard.store, clipboard`freshRoleQueries
      ensures var read := ReadThrough(old(clipboard.store.entries), db.grants, KeyFor(RolesScope, s));
        b == (r in read.value) && clipboard.store.entries == read.store
    {
      var roles := clipboard.GetRoles(db, s);
      b := r in roles;
    }

    method Refresh()
      modifies clipboard.store
      ensures clipboard.store.entries == Refreshed(old(clipboard.store.entries))
    {
      clipboard.Refresh();
    }

    method RefreshFor(s: SubjectId)
      modifies clipboard.store
      ensures clipboard.store.entries == ForgetSubject(old(clipboard.store.entries), s, false)
           || clipboard.store.entries == ForgetSubject(old(clipboard.store.entries), s, true)
    {
      clipboard.RefreshFor(s);
    }
  }
}
