/**
 * Selections and the four chainable traversal strategies.
 *
 * A selection is the ordered sequence of entries a query produced. Its
 * public face is the sequence of their payloads; each item keeps its whole
 * entry, so that the next call goes on searching under that item alone.
 * Every strategy runs once per item and concatenates the per-item results
 * in item order.
 */
module Selection {
  import opened Tree
  import opened Matcher
  import opened Traversal

  type Selection = seq<Entry>

  /** The four traversal strategies of a selection. */
  datatype Strategy = Find | FindAll | FindInChildren | FindAllInChildren

  /** What a selection shows its caller: the payloads, in order. */
  function Payloads(s: Selection): (r: seq<Id>)
    ensures |r| == |s|
    ensures forall i | 0 <= i < |s| :: r[i] == s[i].payload
  {
    if s == [] then [] else [s[0].payload] + Payloads(s[1..])
  }

  /** The initial selection over a tree: its top-level entries, in insertion order. */
  function CreateTarget(tree: Forest): (r: Selection)
    ensures |r| == |tree|
    ensures forall i | 0 <= i < |tree| :: r[i] == tree[i].entry
  {
    if tree == [] then [] else [tree[0].entry] + CreateTarget(tree[1..])
  }

  /** What one strategy contributes for one item of a selection. */
  function Step(st: Strategy, e: Entry, sel: Selector): (r: seq<Entry>)
    ensures forall x | x in r :: Matches(x.props, sel)
    ensures st == Find || st == FindInChildren ==> |r| <= 1
    ensures st == FindAllInChildren ==> |r| <= |e.children|
    ensures st == FindAll ==> |r| < Size(e)
  {
    match st
    case Find => OptionToSeq(FirstMatch(e, sel))
    case FindAll => AllMatchesIn(e.children, sel)
    case FindInChildren => OptionToSeq(FirstChildMatch(e.children, sel))
    case FindAllInChildren => ChildMatches(e.children, sel)
  }

  /** Runs a strategy under every item independently and concatenates the results in item order. */
  function Query(s: Selection, st: Strategy, sel: Selector): (r: Selection)
    ensures forall x | x in r :: Matches(x.props, sel)
  {
    if s == [] then [] else Step(st, s[0], sel) + Query(s[1..], st, sel)
  }

  // ---------------------------------------------------------------------
  // Chaining: every item is searched on its own.

  /** Searching a selection is searching its two halves separately and joining the results. */
  lemma {:induction false} QueryAppend(a: Selection, b: Selection, st: Strategy, sel: Selector)
    ensures Query(a + b, st, sel) == Query(a, st, sel) + Query(b, st, sel)
  {
    if a == [] {
      assert a + b == b;
    } else {
      assert (a + b)[0] == a[0];
      assert (a + b)[1..] == a[1..] + b;
      QueryAppend(a[1..], b, st, sel);
    }
  }

  /** An entry is in a query's result exactly when one item's own search produced it. */
  lemma {:induction false} QueryMember(s: Selection, st: Strategy, sel: Selector, x: Entry)
    ensures x in Query(s, st, sel) <==> exists i :: 0 <= i < |s| && x in Step(st, s[i], sel)
  {
    if s != [] {
      QueryMember(s[1..], st, sel, x);
      if exists i :: 0 <= i < |s| && x in Step(st, s[i], sel) {
        var i :| 0 <= i < |s| && x in Step(st, s[i], sel);
        if i > 0 {
          assert s[1..][i - 1] == s[i];
        }
      }
      if exists i :: 0 <= i < |s[1..]| && x in Step(st, s[1..][i], sel) {
        var i :| 0 <= i < |s[1..]| && x in Step(st, s[1..][i], sel);
        assert s[i + 1] == s[1..][i];
      }
    }
  }

  /** Every query of an empty selection, such as the one over an empty tree, is empty. */
  lemma EmptyStaysEmpty(st: Strategy, sel: Selector)
    ensures Query(CreateTarget([]), st, sel) == []
  {
  }

  // ---------------------------------------------------------------------
  // find: at most one result per item, the first pre-order match.

  /** The single-match strategies give at most one entry per item. */
  lemma {:induction false} SingleMatchAtMostOnePerItem(s: Selection, st: Strategy, sel: Selector)
    requires st == Find || st == FindInChildren
    ensures |Query(s, st, sel)| <= |s|
  {
    if s != [] {
      SingleMatchAtMostOnePerItem(s[1..], st, sel);
    }
  }

  /**
   * For each item, `find` gives the first entry of the item's subtree, the
   * item itself first, in pre-order, that satisfies the selector, or nothing
   * when none does.
   */
  lemma FindIsFirstPreOrderMatch(e: Entry, sel: Selector)
    ensures Step(Find, e, sel) ==
              (var all := SelfMatch(e, sel) + AllMatchesIn(e.children, sel);
               if all == [] then [] else [all[0]])
  {
    FirstMatchIsFirstOfAll(e, sel);
  }

  /** What `find` gives for an item is the item itself or one of its descendants, and it matches. */
  lemma FindStaysInSubtree(e: Entry, sel: Selector, x: Entry)
    requires x in Step(Find, e, sel)
    ensures Matches(x.props, sel)
    ensures x == e || IsDescendant(x, e)
  {
    FirstMatchIsFirstOfAll(e, sel);
    var all := SelfMatch(e, sel) + AllMatchesIn(e.children, sel);
    assert x == all[0];
    if !Matches(e.props, sel) {
      assert x in AllMatchesIn(e.children, sel);
      AllMatchesInIsMatchingDescendants(e, sel, x);
    }
  }

  /** `find` comes back empty for an item exactly when nothing in its subtree matches. */
  lemma FindEmptyIffNoMatch(e: Entry, sel: Selector)
    ensures Step(Find, e, sel) == [] <==>
              !Matches(e.props, sel) && forall x :: IsDescendant(x, e) ==> !Matches(x.props, sel)
  {
    FirstMatchIsFirstOfAll(e, sel);
    if Step(Find, e, sel) == [] {
      forall x | IsDescendant(x, e)
        ensures !Matches(x.props, sel)
      {
        AllMatchesInIsMatchingDescendants(e, sel, x);
      }
    } else {
      var all := AllMatchesFrom(e, sel);
      if !Matches(e.props, sel) {
        AllMatchesInIsMatchingDescendants(e, sel, all[0]);
      }
    }
  }

  /** Without a selector `find` reselects the selection itself. */
  lemma {:induction false} FindAnythingIsIdentity(s: Selection)
    ensures Query(s, Find, Anything) == s
  {
    if s != [] {
      FindAnythingIsIdentity(s[1..]);
    }
  }

  // ---------------------------------------------------------------------
  // findAll: every matching proper descendant, never the item itself.

  /** `findAll` yields exactly the matching proper descendants of the items. */
  lemma FindAllIsMatchingDescendants(s: Selection, sel: Selector, x: Entry)
    ensures x in Query(s, FindAll, sel) <==>
              Matches(x.props, sel) && exists i :: 0 <= i < |s| && IsDescendant(x, s[i])
  {
    QueryMember(s, FindAll, sel, x);
    forall i | 0 <= i < |s|
      ensures x in Step(FindAll, s[i], sel) <==> Matches(x.props, sel) && IsDescendant(x, s[i])
    {
      AllMatchesInIsMatchingDescendants(s[i], sel, x);
    }
  }

  /** `findAll` never gives back the item it started from. */
  lemma FindAllExcludesItself(e: Entry, sel: Selector)
    ensures e !in Step(FindAll, e, sel)
  {
    if e in Step(FindAll, e, sel) {
      AllMatchesInIsMatchingDescendants(e, sel, e);
      DescendantIsSmaller(e, e);
    }
  }

  /** Without a selector `findAll` lists every proper descendant of an item. */
  lemma FindAllAnythingCountsDescendants(e: Entry)
    ensures |Step(FindAll, e, Anything)| == Size(e) - 1
  {
    AllMatchesInAnythingCountsAll(e.children);
  }

  // ---------------------------------------------------------------------
  // findInChildren and findAllInChildren: one level down, no deeper.

  /** `findAllInChildren` yields exactly the matching direct children of the items. */
  lemma FindAllInChildrenIsMatchingChildren(s: Selection, sel: Selector, x: Entry)
    ensures x in Query(s, FindAllInChildren, sel) <==>
              Matches(x.props, sel) && exists i :: 0 <= i < |s| && IsChild(x, s[i])
  {
    QueryMember(s, FindAllInChildren, sel, x);
    forall i | 0 <= i < |s|
      ensures x in Step(FindAllInChildren, s[i], sel) <==> Matches(x.props, sel) && IsChild(x, s[i])
    {
      ChildMatchesAreMatchingChildren(s[i].children, sel, x);
    }
  }

  /** `findInChildren` gives, per item, the first entry `findAllInChildren` would list. */
  lemma FindInChildrenIsFirstChildMatch(e: Entry, sel: Selector)
    ensures Step(FindInChildren, e, sel) ==
              (var all := Step(FindAllInChildren, e, sel); if all == [] then [] else [all[0]])
  {
    FirstChildMatchIsFirstOfAll(e.children, sel);
  }

  /** Whatever `findInChildren` gives is a matching direct child of one of the items. */
  lemma FindInChildrenIsMatchingChild(s: Selection, sel: Selector, x: Entry)
    requires x in Query(s, FindInChildren, sel)
    ensures Matches(x.props, sel)
    ensures exists i :: 0 <= i < |s| && IsChild(x, s[i])
  {
    QueryMember(s, FindInChildren, sel, x);
    var i :| 0 <= i < |s| && x in Step(FindInChildren, s[i], sel);
    FindInChildrenIsFirstChildMatch(s[i], sel);
    ChildMatchesAreMatchingChildren(s[i].children, sel, x);
  }

  /** Without a selector `findAllInChildren` lists every child of an item, in order. */
  lemma FindAllInChildrenAnythingIsChildren(e: Entry)
    ensures |Step(FindAllInChildren, e, Anything)| == |e.children|
    ensures forall i | 0 <= i < |e.children| ::
              Step(FindAllInChildren, e, Anything)[i] == e.children[i].entry
  {
    ChildMatchesAnythingIsLevel(e.children);
  }
}
