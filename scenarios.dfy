/**
 The cached-clipboard tests, one method each, over a fresh store and an
 empty database. Each method's postcondition is what the test asserts.
 Subject ids are parameters: any saved users will do.
 */
module Scenarios {
  import opened Grants
  import opened Names
  import opened CacheStore
  import opened Clipboard
  import opened Facade

  /**
   The test helper reading abilities: a brand-new clipboard over the given
   store, its abilities for `s`, their names in ascending order. The new
   clipboard sees whatever earlier clipboards cached in the store.
   */
  method ReadAbilityNames(store: ArrayStore, db: Database, s: SubjectId) returns (names: seq<Name>)
    modifies store
    ensures var r := ReadThrough(old(store.entries), db.grants, KeyFor(AbilitiesScope, s));
      && store.entries == r.store
      && names == SortedListing(r.value)
  {
    var clipboard := new CachedClipboard(store);
    var abilities := clipboard.GetAbilities(db, s);
    names := SortNames(abilities);
  }

  /** The test helper reading roles: a brand-new clipboard over the given store, its roles for `s`. */
  method ReadRoleNames(store: ArrayStore, db: Database, s: SubjectId) returns (names: set<Name>)
    modifies store
    ensures var r := ReadThrough(old(store.entries), db.grants, KeyFor(RolesScope, s));
      store.entries == r.store && names == r.value
  {
    var clipboard := new CachedClipboard(store);
    names := clipboard.GetRoles(db, s);
  }

  lemma BanUsersTruth(user: SubjectId)
    ensures AbilitiesOf(Apply(Empty, Allow(Subject(user), "ban-users")), user) == {"ban-users"}
  {
    EmptyHoldsNothing(user);
    AllowSubjectEffect(Empty, user, "ban-users", user);
  }

  /** Granted `ban-users`, the user reads it; a later grant of `create-users` stays unseen. */
  method CachesAbilities(user: SubjectId) returns (first: seq<Name>, second: seq<Name>)
    ensures first == ["ban-users"] && second == ["ban-users"]
  {
    var store := new ArrayStore();
    var db := new Database();
    var bouncer := new Bouncer(db, store);
    BanUsersTruth(user);
    TestListings();

    bouncer.Allow(Subject(user), "ban-users");
    first := ReadAbilityNames(store, db, user);
    assert Lookup(store.entries, KeyFor(AbilitiesScope, user)) == Some({"ban-users"});

    bouncer.Allow(Subject(user), "create-users");
    second := ReadAbilityNames(store, db, user);
  }

  /**
   Two reads through one clipboard of a user who holds nothing: both return
   the (empty) names and the fresh query runs once.
   */
  method CachesEmptyAbilities(user: SubjectId) returns (first: set<Name>, second: set<Name>, ghost queries: nat)
    ensures first == {} && second == {}
    ensures queries == 1
  {
    var store := new ArrayStore();
    var db := new Database();
    var clipboard := new CachedClipboard(store);
    EmptyHoldsNothing(user);
    first := clipboard.GetAbilities(db, user);
    second := clipboard.GetAbilities(db, user);
    queries := clipboard.freshAbilityQueries;
  }

  /** Assigned `editor`, the user is an editor; a later `moderator` assignment stays unseen. */
  method CachesRoles(user: SubjectId) returns (isEditor: bool, isModerator: bool)
    ensures isEditor && !isModerator
  {
    var store := new ArrayStore();
    var db := new Database();
    var bouncer := new Bouncer(db, store);

    bouncer.Assign("editor", user);
    EmptyHoldsNothing(user);
    AssignEffect(Empty, "editor", user, user);
    isEditor := bouncer.Is(user, "editor");

    bouncer.Assign("moderator", user);
    isModerator := bouncer.Is(user, "moderator");
  }

  /** The grants of the refresh test after its first three calls, and after its last two. */
  function EditorGrants(user: SubjectId): GrantState
  {
    var g1 := Apply(Empty, Allow(Subject(user), "create-posts"));
    var g2 := Apply(g1, Assign("editor", user));
    Apply(g2, Allow(Role("editor"), "delete-posts"))
  }

  function EditorGrantsRevised(user: SubjectId): GrantState
  {
    Apply(Apply(EditorGrants(user), Disallow(Role("editor"), "delete-posts")), Allow(Role("editor"), "edit-posts"))
  }

  lemma EditorTruth(user: SubjectId)
    ensures AbilitiesOf(EditorGrants(user), user) == {"create-posts", "delete-posts"}
    ensures AbilitiesOf(EditorGrantsRevised(user), user) == {"create-posts", "edit-posts"}
  {
    EmptyHoldsNothing(user);
    var g1 := Apply(Empty, Allow(Subject(user), "create-posts"));
    AllowSubjectEffect(Empty, user, "create-posts", user);
    assert RoleAbilities(g1, "editor") == {};
    AssignEffect(g1, "editor", user, user);
    var g2 := Apply(g1, Assign("editor", user));
    AllowRoleEffect(g2, "editor", "delete-posts", user);
    var g3 := EditorGrants(user);
    assert "create-posts" != "delete-posts" by { assert "create-posts"[0] != "delete-posts"[0]; }
    assert !OtherRoute(g3, user, Role("editor"), "delete-posts");
    DisallowEffect(g3, Role("editor"), "delete-posts", user);
    var g4 := Apply(g3, Disallow(Role("editor"), "delete-posts"));
    AllowRoleEffect(g4, "editor", "edit-posts", user);
  }

  /**
   Abilities read through the `editor` role stay as first read across a
   revoke and a grant to the role, and show both changes after `refresh`.
   */
  method CanRefreshTheCache(user: SubjectId) returns (before: seq<Name>, stale: seq<Name>, after: seq<Name>)
    ensures before == ["create-posts", "delete-posts"]
    ensures stale == ["create-posts", "delete-posts"]
    ensures after == ["create-posts", "edit-posts"]
  {
    var store := new ArrayStore();
    var db := new Database();
    var bouncer := new Bouncer(db, store);
    EditorTruth(user);
    TestListings();

    bouncer.Allow(Subject(user), "create-posts");
    bouncer.Assign("editor", user);
    bouncer.Allow(Role("editor"), "delete-posts");
    assert db.grants == EditorGrants(user);

    before := ReadAbilityNames(store, db, user);

    bouncer.Disallow(Role("editor"), "delete-posts");
    bouncer.Allow(Role("editor"), "edit-posts");
    assert db.grants == EditorGrantsRevised(user);

    stale := ReadAbilityNames(store, db, user);

    bouncer.Refresh();
    after := ReadAbilityNames(store, db, user);
  }

  /** The grants of the single-user refresh test once both users hold `admin`, and after the revoke. */
  function AdminGrants(user1: SubjectId, user2: SubjectId): GrantState
  {
    var g1 := Apply(Empty, Allow(Role("admin"), "ban-users"));
    Apply(Apply(g1, Assign("admin", user1)), Assign("admin", user2))
  }

  lemma AdminTruth(user1: SubjectId, user2: SubjectId)
    requires user1 != user2
    ensures AbilitiesOf(AdminGrants(user1, user2), user1) == {"ban-users"}
    ensures AbilitiesOf(AdminGrants(user1, user2), user2) == {"ban-users"}
    ensures AbilitiesOf(Apply(AdminGrants(user1, user2), Disallow(Role("admin"), "ban-users")), user1) == {}
  {
    EmptyHoldsNothing(user1);
    EmptyHoldsNothing(user2);
    AllowRoleEffect(Empty, "admin", "ban-users", user1);
    AllowRoleEffect(Empty, "admin", "ban-users", user2);
    var g1 := Apply(Empty, Allow(Role("admin"), "ban-users"));
    assert RoleAbilities(g1, "admin") == {"ban-users"} by {
      var p := (Role("admin"), "ban-users");
      assert p in g1.abilities && p.0 == Role("admin");
    }
    AssignEffect(g1, "admin", user1, user1);
    AssignEffect(g1, "admin", user1, user2);
    var g2 := Apply(g1, Assign("admin", user1));
    AssignEffect(g2, "admin", user2, user1);
    AssignEffect(g2, "admin", user2, user2);
    DisallowEffect(AdminGrants(user1, user2), Role("admin"), "ban-users", user1);
  }

  /**
   Two users hold `ban-users` through `admin` and have read it; after the
   role loses it and only the first user's cache is refreshed, the first
   reads nothing and the second still reads `ban-users`.
   */
  method RefreshOnlyForOneUser(user1: SubjectId, user2: SubjectId)
    returns (first1: seq<Name>, first2: seq<Name>, after1: seq<Name>, after2: seq<Name>)
    requires user1 != user2
    ensures first1 == ["ban-users"] && first2 == ["ban-users"]
    ensures after1 == [] && after2 == ["ban-users"]
  {
    var store := new ArrayStore();
    var db := new Database();
    var bouncer := new Bouncer(db, store);
    AdminTruth(user1, user2);
    TestListings();
    var k1, k2 := KeyFor(AbilitiesScope, user1), KeyFor(AbilitiesScope, user2);

    bouncer.Allow(Role("admin"), "ban-users");
    bouncer.Assign("admin", user1);
    bouncer.Assign("admin", user2);
    assert db.grants == AdminGrants(user1, user2);

    first1 := ReadAbilityNames(store, db, user1);
    first2 := ReadAbilityNames(store, db, user2);
    assert Lookup(store.entries, k2) == Some({"ban-users"});

    bouncer.Disallow(Role("admin"), "ban-users");
    ghost var cached := store.entries;
    bouncer.RefreshFor(user1);
    ForgetSubjectIsolated(cached, user1, false, k2);
    ForgetSubjectIsolated(cached, user1, true, k2);
    assert Lookup(store.entries, k2) == Some({"ban-users"});

    after1 := ReadAbilityNames(store, db, user1);
    assert k2 in store.entries && store.entries[k2] == {"ban-users"};
    after2 := ReadAbilityNames(store, db, user2);
  }
}
