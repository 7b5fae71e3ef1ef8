/**
 Ordering of name lists. The tests compare ability names as a sorted list
 (`sort()->values()->all()` on the plucked names), so the order used is the
 byte-wise string order, which is what PHP's `SORT_REGULAR` sort does on
 names that are not numeric strings: lexicographic by character code, a
 proper prefix before its extensions. Numeric strings, which PHP compares by
 value, are not distinguished.
 */
module Names {

  /** `a` sorts strictly before `b`. */
  predicate Precedes(a: string, b: string)
  {
    if a == [] then b != []
    else if b == [] then false
    else a[0] < b[0] || (a[0] == b[0] && Precedes(a[1..], b[1..]))
  }

  lemma {:induction false} PrecedesIrreflexive(a: string)
    ensures !Precedes(a, a)
  {
    if a != [] { PrecedesIrreflexive(a[1..]); }
  }

  lemma {:induction false} PrecedesTransitive(a: string, b: string, c: string)
    requires Precedes(a, b) && Precedes(b, c)
    ensures Precedes(a, c)
  {
    if a != [] && a[0] == b[0] && b[0] == c[0] {
      PrecedesTransitive(a[1..], b[1..], c[1..]);
    }
  }

  /** Any two different names are ordered one way, and only one way. */
  lemma {:induction false} PrecedesTotal(a: string, b: string)
    ensures a == b || Precedes(a, b) || Precedes(b, a)
    ensures !(Precedes(a, b) && Precedes(b, a))
  {
    if a != [] && b != [] && a[0] == b[0] {
      PrecedesTotal(a[1..], b[1..]);
      if a[1..] == b[1..] {
        assert a == [a[0]] + a[1..] && b == [b[0]] + b[1..];
      }
    }
  }

  /** Strictly increasing, hence also free of duplicates. */
  ghost predicate StrictlySorted(s: seq<string>)
  {
    forall i, j :: 0 <= i < j < |s| ==> Precedes(s[i], s[j])
  }

  /** Every finite, non-empty set of names has a least element. */
  lemma {:induction false} LeastWitness(names: set<string>) returns (m: string)
    requires names != {}
    ensures m in names
    ensures forall x :: x in names && x != m ==> Precedes(m, x)
    decreases |names|
  {
    var y :| y in names;
    var rest := names - {y};
    if rest == {} {
      m := y;
      forall x | x in names ensures x == y { assert x !in rest; }
    } else {
      var n := LeastWitness(rest);
      PrecedesTotal(n, y);
      if Precedes(n, y) {
        m := n;
        forall x | x in names && x != m
          ensures Precedes(m, x)
        {
          if x != y { assert x in rest; }
        }
      } else {
        m := y;
        forall x | x in names && x != m
          ensures Precedes(m, x)
        {
          if x != n { PrecedesTransitive(y, n, x); }
        }
      }
    }
  }

  lemma LeastExists(names: set<string>)
    requires names != {}
    ensures exists m :: m in names && forall x :: x in names && x != m ==> Precedes(m, x)
  {
    var m := LeastWitness(names);
  }

  /** The least name of a non-empty set. */
  ghost function Least(names: set<string>): (m: string)
    requires names != {}
    ensures m in names
    ensures forall x :: x in names && x != m ==> Precedes(m, x)
  {
    LeastExists(names);
    var m :| m in names && forall x :: x in names && x != m ==> Precedes(m, x);
    m
  }

  /** The names of a set in ascending order: its least name, then the listing of the rest. */
  ghost function SortedListing(names: set<string>): seq<string>
    decreases |names|
  {
    if names == {} then [] else [Least(names)] + SortedListing(names - {Least(names)})
  }

  /** The listing is strictly ascending and holds exactly the names of the set. */
  lemma {:induction false} SortedListingSpec(names: set<string>)
    ensures StrictlySorted(SortedListing(names))
    ensures forall x :: x in SortedListing(names) <==> x in names
    ensures |SortedListing(names)| == |names|
    decreases |names|
  {
    if names != {} {
      var m := Least(names);
      var tail := SortedListing(names - {m});
      SortedListingSpec(names - {m});
      forall j | 0 <= j < |tail| ensures Precedes(m, tail[j]) { assert tail[j] in names - {m}; }
    }
  }

  /** The least name of a non-empty set, found by one pass over it. */
  method LeastOf(names: set<string>) returns (m: string)
    requires names != {}
    ensures m in names
    ensures forall x :: x in names && x != m ==> Precedes(m, x)
  {
    m :| m in names;
    var unseen := names - {m};
    while unseen != {}
      invariant unseen <= names && m in names && m !in unseen
      invariant forall x :: x in names && x !in unseen && x != m ==> Precedes(m, x)
      decreases |unseen|
    {
      var x :| x in unseen;
      PrecedesTotal(m, x);
      if Precedes(x, m) {
        forall y | y in names && y !in unseen && y != x
          ensures Precedes(x, y)
        {
          if y != m { PrecedesTransitive(x, m, y); }
        }
        m := x;
      }
      unseen := unseen - {x};
    }
  }

  /**
   Lists the names of a set in ascending order, as the test helper's
   `sort()->values()->all()` does: every name exactly once, nothing else.
   */
  method SortNames(names: set<string>) returns (r: seq<string>)
    ensures r == SortedListing(names)
  {
    r := [];
    var rest := names;
    while rest != {}
      invariant rest <= names
      invariant StrictlySorted(r)
      invariant forall x :: x in names <==> x in r || x in rest
      invariant forall x :: x in r ==> x !in rest
      invariant forall i, y :: 0 <= i < |r| && y in rest ==> Precedes(r[i], y)
      invariant |r| + |rest| == |names|
      decreases |rest|
    {
      var m := LeastOf(rest);
      r := r + [m];
      rest := rest - {m};
    }
    SortedListingSpec(names);
    SortedListingUnique(r, SortedListing(names));
  }

  /** A strictly sorted listing of a set is unique. */
  lemma {:induction false} SortedListingUnique(a: seq<string>, b: seq<string>)
    requires StrictlySorted(a) && StrictlySorted(b)
    requires forall x :: x in a <==> x in b
    ensures a == b
    decreases |a|
  {
    if b != [] { assert b[0] in b; }
    if a != [] {
      assert b != [] by { assert a[0] in b; }
      if a[0] != b[0] {
        assert a[0] in b;
        assert b[0] in a;
        var i :| 0 <= i < |b| && b[i] == a[0];
        var j :| 0 <= j < |a| && a[j] == b[0];
        assert i > 0 && j > 0;
        assert Precedes(b[0], a[0]) && Precedes(a[0], b[0]);
        PrecedesTotal(a[0], b[0]);
        assert false;
      }
      forall x | x in a[1..]
        ensures x in b[1..]
      {
        var j :| 1 <= j < |a| && a[j] == x;
        assert Precedes(a[0], x);
        PrecedesIrreflexive(x);
        assert x in b && x != b[0];
      }
      forall x | x in b[1..]
        ensures x in a[1..]
      {
        var j :| 1 <= j < |b| && b[j] == x;
        assert Precedes(b[0], x);
        PrecedesIrreflexive(x);
        assert x in a && x != a[0];
      }
      SortedListingUnique(a[1..], b[1..]);
      assert a == [a[0]] + a[1..] && b == [b[0]] + b[1..];
    }
  }

  /** The listings the tests compare against. */
  lemma TestListings()
    ensures SortedListing({}) == []
    ensures SortedListing({"ban-users"}) == ["ban-users"]
    ensures SortedListing({"create-posts", "delete-posts"}) == ["create-posts", "delete-posts"]
    ensures SortedListing({"create-posts", "edit-posts"}) == ["create-posts", "edit-posts"]
  {
    SortedListingSpec({});
    SortedListingSpec({"ban-users"});
    SortedListingSpec({"create-posts", "delete-posts"});
    SortedListingSpec({"create-posts", "edit-posts"});
    SortedListingUnique(SortedListing({"ban-users"}), ["ban-users"]);
    assert Precedes("create-posts", "delete-posts");
    SortedListingUnique(SortedListing({"create-posts", "delete-posts"}), ["create-posts", "delete-posts"]);
    assert Precedes("create-posts", "edit-posts");
    SortedListingUnique(SortedListing({"create-posts", "edit-posts"}), ["create-posts", "edit-posts"]);
  }
}
