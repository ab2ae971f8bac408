/**
 * The immutable, ordered, keyed tree that the query engine walks.
 *
 * A level of the tree is a sequence of keyed children in insertion order
 * (the order of the source's `Map`), and every entry bundles an opaque
 * payload, a flat property map and its own children.
 */
module Tree {

  /** Stands for the caller's payload object: the engine only compares and forwards it. */
  type Id = nat

  /** Property values the tree carries: booleans and strings. */
  datatype Value = Bool(b: bool) | Str(s: string)

  type Props = map<string, Value>

  datatype Entry = Entry(payload: Id, props: Props, children: Forest)

  /** One key of a level together with the entry stored under it. */
  datatype Child = Child(key: string, entry: Entry)

  /** A level of the tree: its children in insertion order. */
  type Forest = seq<Child>

  datatype Option<T> = None | Some(value: T)

  /** The sequence holding the one value of `o`, or nothing. */
  function OptionToSeq<T>(o: Option<T>): (r: seq<T>)
    ensures |r| <= 1
    ensures o.Some? <==> r != []
    ensures o.Some? ==> r[0] == o.value
  {
    match o
    case None => []
    case Some(x) => [x]
  }

  /** The first element of `s`, if any. */
  function Head<T>(s: seq<T>): (r: Option<T>)
    ensures r.None? <==> s == []
    ensures r.Some? ==> r.value == s[0]
  {
    if s == [] then None else Some(s[0])
  }

  /** Number of entries in the subtree rooted at `e`, `e` included. */
  function Size(e: Entry): nat
  {
    1 + ForestSize(e.children)
  }

  /** Number of entries in all the subtrees of a level. */
  function ForestSize(t: Forest): nat
  {
    if t == [] then 0 else Size(t[0].entry) + ForestSize(t[1..])
  }

  /**
   * The entry reached from `e` by following `path`, a sequence of child
   * positions; the empty path names `e` itself.
   */
  ghost function EntryAt(e: Entry, path: seq<nat>): Option<Entry>
    decreases |path|, 1
  {
    if path == [] then Some(e) else ForestAt(e.children, path)
  }

  /** The entry reached from a level by a non-empty path of child positions. */
  ghost function ForestAt(t: Forest, path: seq<nat>): Option<Entry>
    decreases |path|, 0
  {
    if path == [] || path[0] >= |t| then None
    else EntryAt(t[path[0]].entry, path[1..])
  }

  /** `d` is an entry somewhere in the subtrees of level `t`. */
  ghost predicate InForest(d: Entry, t: Forest)
  {
    exists path :: ForestAt(t, path) == Some(d)
  }

  /** `d` is a proper descendant of `e`: reachable by a non-empty path. */
  ghost predicate IsDescendant(d: Entry, e: Entry)
  {
    InForest(d, e.children)
  }

  /** `d` is stored directly under `e`, one level down. */
  ghost predicate IsChild(d: Entry, e: Entry)
  {
    exists i :: 0 <= i < |e.children| && e.children[i].entry == d
  }

  /** Every entry of a level is counted in the level's size. */
  lemma {:induction false} ChildSizeBound(t: Forest, i: nat)
    requires i < |t|
    ensures Size(t[i].entry) <= ForestSize(t)
  {
    if i > 0 {
      ChildSizeBound(t[1..], i - 1);
    }
  }

  /** Whatever a path reaches inside a level is no larger than the level. */
  lemma {:induction false} ForestAtSizeBound(t: Forest, path: seq<nat>, d: Entry)
    requires ForestAt(t, path) == Some(d)
    ensures Size(d) <= ForestSize(t)
    decreases |path|
  {
    var c := t[path[0]].entry;
    ChildSizeBound(t, path[0]);
    if path[1..] != [] {
      ForestAtSizeBound(c.children, path[1..], d);
    }
  }

  /** A proper descendant is strictly smaller, so an entry is never its own descendant. */
  lemma DescendantIsSmaller(d: Entry, e: Entry)
    requires IsDescendant(d, e)
    ensures Size(d) < Size(e)
    ensures d != e
  {
    var path :| ForestAt(e.children, path) == Some(d);
    ForestAtSizeBound(e.children, path, d);
  }

  /** A child is exactly an entry reached by a path of length one. */
  lemma ChildIsDepthOne(d: Entry, e: Entry)
    ensures IsChild(d, e) <==> exists i: nat :: ForestAt(e.children, [i]) == Some(d)
  {
    if IsChild(d, e) {
      var i :| 0 <= i < |e.children| && e.children[i].entry == d;
      assert ForestAt(e.children, [i]) == Some(d);
    }
    if exists i: nat :: ForestAt(e.children, [i]) == Some(d) {
      var i: nat :| ForestAt(e.children, [i]) == Some(d);
      assert [i][0] == i && [i][1..] == [];
      assert EntryAt(e.children[i].entry, []) == Some(d);
    }
  }
}
