/**
 * How the test fixtures build a tree: `createFakeTree` turns a nested
 * object literal (a "design") into the keyed tree. Every key of a design
 * level becomes one child, in the order the design lists its members; the
 * design is taken to list them in `Object.keys` order (integer-like keys
 * first, ascending, then the rest in insertion order). The member's `node`
 * field becomes the payload, its `children` field (a nested design, or
 * nothing) becomes the children, and all its other fields become the
 * property map.
 */
module FakeTree {
  import opened Tree

  /** A field of a design member: a plain value, the payload object, or a nested design. */
  datatype Field = Prim(value: Value) | NodeRef(id: Id) | Nested(design: Design)

  /** One key of a design level and the fields of the object literal under it. */
  datatype Member = Member(key: string, fields: map<string, Field>)

  type Design = seq<Member>

  const NodeKey: string := "node"
  const ChildrenKey: string := "children"

  /**
   * The shape the fixtures give every member: a `node` payload, optionally
   * a nested `children` design, and plain values in all other fields.
   */
  predicate WellFormedMember(m: Member)
  {
    && NodeKey in m.fields && m.fields[NodeKey].NodeRef?
    && (ChildrenKey in m.fields ==>
          m.fields[ChildrenKey].Nested? && WellFormed(m.fields[ChildrenKey].design))
    && forall k | k in m.fields && k != NodeKey && k != ChildrenKey :: m.fields[k].Prim?
  }

  predicate WellFormed(d: Design)
  {
    forall i | 0 <= i < |d| :: WellFormedMember(d[i])
  }

  /** The member's fields without `node` and `children`: its property map. */
  function PropsOf(fields: map<string, Field>): (r: Props)
    requires forall k | k in fields && k != NodeKey && k != ChildrenKey :: fields[k].Prim?
    ensures r.Keys == fields.Keys - {NodeKey, ChildrenKey}
    ensures forall k | k in r :: fields[k] == Prim(r[k])
  {
    map k | k in fields && k != NodeKey && k != ChildrenKey :: fields[k].value
  }

  /** The entry built from one design member. */
  function CreateEntry(m: Member): (e: Entry)
    requires WellFormedMember(m)
    ensures m.fields[NodeKey] == NodeRef(e.payload)
    ensures NodeKey !in e.props && ChildrenKey !in e.props
    ensures ChildrenKey !in m.fields ==> e.children == []
  {
    Entry(m.fields[NodeKey].id,
          PropsOf(m.fields),
          if ChildrenKey in m.fields then Create(m.fields[ChildrenKey].design) else [])
  }

  /** `createFakeTree`: one child per design key, in the design's (`Object.keys`) order. */
  function Create(d: Design): (t: Forest)
    requires WellFormed(d)
    ensures |t| == |d|
    ensures forall i | 0 <= i < |d| :: t[i].key == d[i].key && t[i].entry == CreateEntry(d[i])
  {
    if d == [] then [] else [Child(d[0].key, CreateEntry(d[0]))] + Create(d[1..])
  }

  // ---------------------------------------------------------------------
  // No built entry, at any depth, keeps `node` or `children` among its properties.

  ghost predicate ReservedFreeEntry(e: Entry)
  {
    NodeKey !in e.props && ChildrenKey !in e.props && ReservedFree(e.children)
  }

  ghost predicate ReservedFree(t: Forest)
  {
    forall i | 0 <= i < |t| :: ReservedFreeEntry(t[i].entry)
  }

  lemma {:induction false} CreateIsReservedFree(d: Design)
    requires WellFormed(d)
    ensures ReservedFree(Create(d))
    decreases d
  {
    forall i | 0 <= i < |d|
      ensures ReservedFreeEntry(Create(d)[i].entry)
    {
      CreateEntryIsReservedFree(d[i]);
    }
  }

  lemma {:induction false} CreateEntryIsReservedFree(m: Member)
    requires WellFormedMember(m)
    ensures ReservedFreeEntry(CreateEntry(m))
    decreases m
  {
    if ChildrenKey in m.fields {
      CreateIsReservedFree(m.fields[ChildrenKey].design);
    }
  }

  /** An empty `children` design and an absent one build the same entry. */
  lemma EmptyChildrenIsNoChildren(m: Member)
    requires WellFormedMember(m) && ChildrenKey !in m.fields
    ensures WellFormedMember(Member(m.key, m.fields[ChildrenKey := Nested([])]))
    ensures CreateEntry(Member(m.key, m.fields[ChildrenKey := Nested([])])) == CreateEntry(m)
  {
    var m' := Member(m.key, m.fields[ChildrenKey := Nested([])]);
    assert NodeKey != ChildrenKey by { assert NodeKey[0] != ChildrenKey[0]; }
    assert WellFormed([]);
    assert PropsOf(m'.fields) == PropsOf(m.fields);
  }

  // ---------------------------------------------------------------------
  // Every tree whose properties avoid the two reserved names can be built.

  /** The design that describes a tree level. */
  function ToDesign(t: Forest): (d: Design)
    ensures |d| == |t|
  {
    if t == [] then [] else [Member(t[0].key, FieldsOf(t[0].entry))] + ToDesign(t[1..])
  }

  /** The object literal that describes one entry. */
  function FieldsOf(e: Entry): map<string, Field>
  {
    (map k | k in e.props :: Prim(e.props[k]))[NodeKey := NodeRef(e.payload)]
      [ChildrenKey := Nested(ToDesign(e.children))]
  }

  lemma {:induction false} DesignRoundTrip(t: Forest)
    requires ReservedFree(t)
    ensures WellFormed(ToDesign(t))
    ensures Create(ToDesign(t)) == t
    decreases t
  {
    if t != [] {
      EntryRoundTrip(t[0].key, t[0].entry);
      assert ReservedFree(t[1..]) by {
        forall i | 0 <= i < |t[1..]|
          ensures ReservedFreeEntry(t[1..][i].entry)
        {
          assert t[1..][i] == t[i + 1];
        }
      }
      DesignRoundTrip(t[1..]);
      var d := ToDesign(t);
      assert d[0] == Member(t[0].key, FieldsOf(t[0].entry));
      assert d[1..] == ToDesign(t[1..]);
      assert WellFormed(d) by {
        forall i | 0 <= i < |d|
          ensures WellFormedMember(d[i])
        {
          if i > 0 {
            assert d[i] == d[1..][i - 1];
          }
        }
      }
    }
  }

  lemma {:induction false} EntryRoundTrip(key: string, e: Entry)
    requires ReservedFreeEntry(e)
    ensures WellFormedMember(Member(key, FieldsOf(e)))
    ensures CreateEntry(Member(key, FieldsOf(e))) == e
    decreases e
  {
    DesignRoundTrip(e.children);
    var fields := FieldsOf(e);
    assert PropsOf(fields) == e.props;
  }
}
