/**
 The authorization ground truth that the clipboard caches: direct ability
 grants, ability grants to roles, and role assignments. The cache layer never
 writes here; `allow`, `disallow` and `assign` change it and nothing else.
 */
module Grants {

  /** A subject (a saved user) is identified by its primary key. */
  type SubjectId = nat

  /** Ability names and role names. */
  type Name = string

  /** Who an ability is granted to: one subject directly, or every holder of a role. */
  datatype Grantee = Subject(id: SubjectId) | Role(name: Name)

  /** The persisted grant graph. */
  datatype GrantState = GrantState(
    abilities: set<(Grantee, Name)>,   // (grantee, ability name)
    assignments: set<(SubjectId, Name)>)  // (subject, role name)

  /** The grant-changing operations exercised by the tests. */
  datatype Mutation =
    | Allow(who: Grantee, ability: Name)
    | Disallow(who: Grantee, ability: Name)
    | Assign(role: Name, subject: SubjectId)

  /** A freshly migrated database: nothing granted, nothing assigned. */
  const Empty := GrantState({}, {})

  function Apply(g: GrantState, m: Mutation): GrantState
  {
    match m
    case Allow(who, a) => g.(abilities := g.abilities + {(who, a)})
    case Disallow(who, a) => g.(abilities := g.abilities - {(who, a)})
    case Assign(r, s) => g.(assignments := g.assignments + {(s, r)})
  }

  /** Grants to `who` apply to subject `s`: `who` is `s` itself or a role `s` holds. */
  predicate Reaches(g: GrantState, s: SubjectId, who: Grantee)
  {
    who == Subject(s) || (who.Role? && (s, who.name) in g.assignments)
  }

  /** The roles subject `s` holds, as a fresh roles query would return them. */
  function RolesOf(g: GrantState, s: SubjectId): set<Name>
  {
    set q | q in g.assignments && q.0 == s :: q.1
  }

  /** The ability names subject `s` holds, directly or through its roles. */
  function AbilitiesOf(g: GrantState, s: SubjectId): set<Name>
  {
    set p | p in g.abilities && Reaches(g, s, p.0) :: p.1
  }

  /** Ability `a` reaches `s` through some grantee other than `who`. */
  ghost predicate OtherRoute(g: GrantState, s: SubjectId, who: Grantee, a: Name)
  {
    exists w :: (w, a) in g.abilities && w != who && Reaches(g, s, w)
  }

  /** The abilities granted to role `r`. */
  function RoleAbilities(g: GrantState, r: Name): set<Name>
  {
    set p | p in g.abilities && p.0 == Role(r) :: p.1
  }

  lemma HeldThrough(g: GrantState, s: SubjectId, who: Grantee, a: Name)
    requires (who, a) in g.abilities && Reaches(g, s, who)
    ensures a in AbilitiesOf(g, s)
  {
    var p := (who, a);
    assert p in g.abilities && Reaches(g, s, p.0);
  }

  lemma HeldOnlyThrough(g: GrantState, s: SubjectId, a: Name) returns (who: Grantee)
    requires a in AbilitiesOf(g, s)
    ensures (who, a) in g.abilities && Reaches(g, s, who)
  {
    var p :| p in g.abilities && Reaches(g, s, p.0) && p.1 == a;
    who := p.0;
  }

  /** Granting `a` directly to `s` adds exactly `a` to `s`'s abilities and to no one else's. */
  lemma AllowSubjectEffect(g: GrantState, s: SubjectId, a: Name, t: SubjectId)
    ensures AbilitiesOf(Apply(g, Allow(Subject(s), a)), t)
         == AbilitiesOf(g, t) + (if t == s then {a} else {})
    ensures RolesOf(Apply(g, Allow(Subject(s), a)), t) == RolesOf(g, t)
  {
    var g' := Apply(g, Allow(Subject(s), a));
    forall b | b in AbilitiesOf(g', t)
      ensures b in AbilitiesOf(g, t) + (if t == s then {a} else {})
    {
      var w := HeldOnlyThrough(g', t, b);
      if (w, b) in g.abilities { HeldThrough(g, t, w, b); }
    }
    forall b | b in AbilitiesOf(g, t) + (if t == s then {a} else {})
      ensures b in AbilitiesOf(g', t)
    {
      if b in AbilitiesOf(g, t) {
        var w := HeldOnlyThrough(g, t, b);
        HeldThrough(g', t, w, b);
      } else {
        HeldThrough(g', t, Subject(s), a);
      }
    }
  }

  /** Granting `a` to role `r` adds `a` to the abilities of exactly the holders of `r`. */
  lemma AllowRoleEffect(g: GrantState, r: Name, a: Name, t: SubjectId)
    ensures AbilitiesOf(Apply(g, Allow(Role(r), a)), t)
         == AbilitiesOf(g, t) + (if r in RolesOf(g, t) then {a} else {})
    ensures RolesOf(Apply(g, Allow(Role(r), a)), t) == RolesOf(g, t)
  {
    var g' := Apply(g, Allow(Role(r), a));
    assert r in RolesOf(g, t) <==> (t, r) in g.assignments by {
      if (t, r) in g.assignments { var q := (t, r); assert q in g.assignments && q.0 == t; }
    }
    forall b | b in AbilitiesOf(g', t)
      ensures b in AbilitiesOf(g, t) + (if r in RolesOf(g, t) then {a} else {})
    {
      var w := HeldOnlyThrough(g', t, b);
      if (w, b) in g.abilities { HeldThrough(g, t, w, b); }
    }
    forall b | b in AbilitiesOf(g, t) + (if r in RolesOf(g, t) then {a} else {})
      ensures b in AbilitiesOf(g', t)
    {
      if b in AbilitiesOf(g, t) {
        var w := HeldOnlyThrough(g, t, b);
        HeldThrough(g', t, w, b);
      } else {
        HeldThrough(g', t, Role(r), a);
      }
    }
  }

  /**
   Revoking `a` from `who` removes `a` from subject `t` exactly when no other
   grantee still brings `a` to `t`; every other ability is untouched.
   */
  lemma DisallowEffect(g: GrantState, who: Grantee, a: Name, t: SubjectId)
    ensures AbilitiesOf(Apply(g, Disallow(who, a)), t)
         == if OtherRoute(g, t, who, a) then AbilitiesOf(g, t) else AbilitiesOf(g, t) - {a}
    ensures RolesOf(Apply(g, Disallow(who, a)), t) == RolesOf(g, t)
  {
    var g' := Apply(g, Disallow(who, a));
    var expected := if OtherRoute(g, t, who, a) then AbilitiesOf(g, t) else AbilitiesOf(g, t) - {a};
    forall b | b in AbilitiesOf(g', t)
      ensures b in expected
    {
      var w := HeldOnlyThrough(g', t, b);
      HeldThrough(g, t, w, b);
      if b == a { assert w != who; }
    }
    forall b | b in expected
      ensures b in AbilitiesOf(g', t)
    {
      if b == a {
        var w :| (w, a) in g.abilities && w != who && Reaches(g, t, w);
        HeldThrough(g', t, w, a);
      } else {
        var w := HeldOnlyThrough(g, t, b);
        HeldThrough(g', t, w, b);
      }
    }
  }

  /**
   Assigning role `r` to `s` gives `s` the role and every ability granted to
   `r`; no other subject's roles or abilities change.
   */
  lemma AssignEffect(g: GrantState, r: Name, s: SubjectId, t: SubjectId)
    ensures RolesOf(Apply(g, Assign(r, s)), t) == RolesOf(g, t) + (if t == s then {r} else {})
    ensures AbilitiesOf(Apply(g, Assign(r, s)), t)
         == AbilitiesOf(g, t) + (if t == s then RoleAbilities(g, r) else {})
  {
    var g' := Apply(g, Assign(r, s));
    forall q | q in RolesOf(g, t) + (if t == s then {r} else {})
      ensures q in RolesOf(g', t)
    {
      var pair := (t, q);
      assert pair in g'.assignments && pair.0 == t by {
        if q !in RolesOf(g, t) { assert t == s && q == r; }
      }
    }
    forall b | b in AbilitiesOf(g', t)
      ensures b in AbilitiesOf(g, t) + (if t == s then RoleAbilities(g, r) else {})
    {
      var w := HeldOnlyThrough(g', t, b);
      if Reaches(g, t, w) {
        HeldThrough(g, t, w, b);
      } else {
        var p := (w, b);
        assert p in g.abilities && p.0 == Role(r);
      }
    }
    forall b | b in AbilitiesOf(g, t) + (if t == s then RoleAbilities(g, r) else {})
      ensures b in AbilitiesOf(g', t)
    {
      if b in AbilitiesOf(g, t) {
        var w := HeldOnlyThrough(g, t, b);
        HeldThrough(g', t, w, b);
      } else {
        HeldThrough(g', t, Role(r), b);
      }
    }
  }

  /** Nothing is held before anything is granted or assigned. */
  lemma EmptyHoldsNothing(s: SubjectId)
    ensures AbilitiesOf(Empty, s) == {} && RolesOf(Empty, s) == {}
  {
  }

  /** The ground-truth database the `allow`, `disallow` and `assign` calls write to. */
  class Database {
    var grants: GrantState

    constructor ()
      ensures grants == Empty
    {
      grants := Empty;
    }

    method Allow(who: Grantee, a: Name)
      modifies this
      ensures grants == Apply(old(grants), Mutation.Allow(who, a))
    {
      grants := Apply(grants, Mutation.Allow(who, a));
    }

    method Disallow(who: Grantee, a: Name)
      modifies this
      ensures grants == Apply(old(grants), Mutation.Disallow(who, a))
    {
      grants := Apply(grants, Mutation.Disallow(who, a));
    }

    method Assign(r: Name, s: SubjectId)
      modifies this
      ensures grants == Apply(old(grants), Mutation.Assign(r, s))
    {
      grants := Apply(grants, Mutation.Assign(r, s));
    }
  }
}
