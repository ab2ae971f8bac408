/**
 * The per-entry searches behind the four traversal strategies.
 *
 * Whole-subtree searches walk the tree in pre-order (an entry before its
 * children, children in insertion order); child searches look at one level
 * only. Each search is related to the reference descriptions of `Tree`
 * (paths, descendants, children) by the lemmas below.
 */
module Traversal {
  import opened Tree
  import opened Matcher

  /** `[e]` when `e` itself satisfies the selector, otherwise nothing. */
  function SelfMatch(e: Entry, sel: Selector): seq<Entry>
  {
    if Matches(e.props, sel) then [e] else []
  }

  /** Every matching entry of the subtree rooted at `e`, `e` included, in pre-order. */
  function AllMatchesFrom(e: Entry, sel: Selector): (r: seq<Entry>)
    ensures |r| <= Size(e)
    ensures forall x | x in r :: Matches(x.props, sel)
    ensures Matches(e.props, sel) ==> r != [] && r[0] == e
  {
    SelfMatch(e, sel) + AllMatchesIn(e.children, sel)
  }

  /** Every matching entry in the subtrees of level `t`, in pre-order. */
  function AllMatchesIn(t: Forest, sel: Selector): (r: seq<Entry>)
    ensures |r| <= ForestSize(t)
    ensures forall x | x in r :: Matches(x.props, sel)
  {
    if t == [] then [] else AllMatchesFrom(t[0].entry, sel) + AllMatchesIn(t[1..], sel)
  }

  /** Depth-first search from `e`, `e` tested first, stopping at the first match. */
  function FirstMatch(e: Entry, sel: Selector): (r: Option<Entry>)
    ensures r.Some? ==> Matches(r.value.props, sel)
    ensures Matches(e.props, sel) ==> r == Some(e)
  {
    if Matches(e.props, sel) then Some(e) else FirstMatchIn(e.children, sel)
  }

  /** Depth-first search through the subtrees of `t`, stopping at the first match. */
  function FirstMatchIn(t: Forest, sel: Selector): (r: Option<Entry>)
    ensures r.Some? ==> Matches(r.value.props, sel)
  {
    if t == [] then None
    else
      match FirstMatch(t[0].entry, sel)
      case Some(x) => Some(x)
      case None => FirstMatchIn(t[1..], sel)
  }

  /** Every entry of level `t` (one level only) that satisfies the selector, in order. */
  function ChildMatches(t: Forest, sel: Selector): (r: seq<Entry>)
    ensures |r| <= |t|
    ensures forall x | x in r :: Matches(x.props, sel)
  {
    if t == [] then []
    else SelfMatch(t[0].entry, sel) + ChildMatches(t[1..], sel)
  }

  /** Scan of level `t` (one level only), stopping at the first entry that satisfies the selector. */
  function FirstChildMatch(t: Forest, sel: Selector): (r: Option<Entry>)
    ensures r.Some? ==> Matches(r.value.props, sel)
    ensures r.Some? ==> exists i :: 0 <= i < |t| && t[i].entry == r.value
  {
    if t == [] then None
    else if Matches(t[0].entry.props, sel) then Some(t[0].entry)
    else FirstChildMatch(t[1..], sel)
  }

  // ---------------------------------------------------------------------
  // The early-stopping searches return the head of the exhaustive ones.

  lemma {:induction false} FirstMatchIsFirstOfAll(e: Entry, sel: Selector)
    ensures FirstMatch(e, sel) == Head(AllMatchesFrom(e, sel))
    decreases e
  {
    if !Matches(e.props, sel) {
      FirstMatchInIsFirstOfAll(e.children, sel);
    }
  }

  lemma {:induction false} FirstMatchInIsFirstOfAll(t: Forest, sel: Selector)
    ensures FirstMatchIn(t, sel) == Head(AllMatchesIn(t, sel))
    decreases t
  {
    if t != [] {
      FirstMatchIsFirstOfAll(t[0].entry, sel);
      FirstMatchInIsFirstOfAll(t[1..], sel);
    }
  }

  lemma {:induction false} FirstChildMatchIsFirstOfAll(t: Forest, sel: Selector)
    ensures FirstChildMatch(t, sel) == Head(ChildMatches(t, sel))
  {
    if t != [] {
      FirstChildMatchIsFirstOfAll(t[1..], sel);
    }
  }

  // ---------------------------------------------------------------------
  // The exhaustive subtree search collects exactly the matching descendants.

  /** What the subtree search collects lies inside the level and matches. */
  lemma {:induction false} AllMatchesInSound(t: Forest, sel: Selector, x: Entry)
    requires x in AllMatchesIn(t, sel)
    ensures Matches(x.props, sel)
    ensures exists path :: ForestAt(t, path) == Some(x)
    decreases t
  {
    var e := t[0].entry;
    if x in SelfMatch(e, sel) {
      assert [0][0] == 0 && [0][1..] == [];
      assert ForestAt(t, [0]) == Some(x);
    } else if x in AllMatchesIn(e.children, sel) {
      AllMatchesInSound(e.children, sel, x);
      var q :| ForestAt(e.children, q) == Some(x);
      var p := [0] + q;
      assert p[0] == 0 && p[1..] == q;
      assert ForestAt(t, p) == Some(x);
    } else {
      AllMatchesInSound(t[1..], sel, x);
      var q :| ForestAt(t[1..], q) == Some(x);
      var p := [q[0] + 1] + q[1..];
      assert p[0] == q[0] + 1 && p[1..] == q[1..];
      assert ForestAt(t, p) == Some(x);
    }
  }

  /** Every matching entry reachable inside the level is collected. */
  lemma {:induction false} AllMatchesInComplete(t: Forest, sel: Selector, path: seq<nat>, x: Entry)
    requires ForestAt(t, path) == Some(x)
    requires Matches(x.props, sel)
    ensures x in AllMatchesIn(t, sel)
    decreases t
  {
    var i := path[0];
    var e := t[0].entry;
    assert AllMatchesIn(t, sel) == SelfMatch(e, sel) + AllMatchesIn(e.children, sel) + AllMatchesIn(t[1..], sel);
    if i == 0 {
      if path[1..] == [] {
        assert x == e;
      } else {
        assert ForestAt(e.children, path[1..]) == Some(x);
        AllMatchesInComplete(e.children, sel, path[1..], x);
      }
    } else {
      var q := [i - 1] + path[1..];
      assert q[0] == i - 1 && q[1..] == path[1..];
      assert ForestAt(t[1..], q) == Some(x);
      AllMatchesInComplete(t[1..], sel, q, x);
    }
  }

  /** The subtree search below `e` collects exactly the matching proper descendants of `e`. */
  lemma AllMatchesInIsMatchingDescendants(e: Entry, sel: Selector, x: Entry)
    ensures x in AllMatchesIn(e.children, sel) <==> Matches(x.props, sel) && IsDescendant(x, e)
  {
    if x in AllMatchesIn(e.children, sel) {
      AllMatchesInSound(e.children, sel, x);
    }
    if Matches(x.props, sel) && IsDescendant(x, e) {
      var path :| ForestAt(e.children, path) == Some(x);
      AllMatchesInComplete(e.children, sel, path, x);
    }
  }

  /** With no selector the subtree search lists one entry per entry position of the level. */
  lemma {:induction false} AllMatchesInAnythingCountsAll(t: Forest)
    ensures |AllMatchesIn(t, Anything)| == ForestSize(t)
  {
    if t != [] {
      AllMatchesInAnythingCountsAll(t[0].entry.children);
      AllMatchesInAnythingCountsAll(t[1..]);
    }
  }

  // ---------------------------------------------------------------------
  // The child searches see exactly one level.

  /** The child scan collects exactly the matching children, and nothing deeper. */
  lemma {:induction false} ChildMatchesAreMatchingChildren(t: Forest, sel: Selector, x: Entry)
    ensures x in ChildMatches(t, sel) <==>
              Matches(x.props, sel) && exists i :: 0 <= i < |t| && t[i].entry == x
  {
    if t != [] {
      ChildMatchesAreMatchingChildren(t[1..], sel, x);
      if exists i :: 0 <= i < |t| && t[i].entry == x {
        var i :| 0 <= i < |t| && t[i].entry == x;
        if i > 0 {
          assert t[1..][i - 1].entry == x;
        }
      }
      if exists i :: 0 <= i < |t[1..]| && t[1..][i].entry == x {
        var i :| 0 <= i < |t[1..]| && t[1..][i].entry == x;
        assert t[i + 1].entry == x;
      }
    }
  }

  /** With no selector the child scan lists the level's entries themselves, in order. */
  lemma {:induction false} ChildMatchesAnythingIsLevel(t: Forest)
    ensures |ChildMatches(t, Anything)| == |t|
    ensures forall i | 0 <= i < |t| :: ChildMatches(t, Anything)[i] == t[i].entry
  {
    if t != [] {
      ChildMatchesAnythingIsLevel(t[1..]);
    }
  }
}
