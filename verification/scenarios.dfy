/**
 * The fixtures of the engine's test file and what each query gives on
 * them. The two trees are built the way the fixtures build them, from
 * designs, through `Create`.
 */
module Scenarios {
  import opened Tree
  import opened Matcher
  import opened FakeTree
  import opened Traversal
  import opened Selection
  import opened Commands

  const RootNode: Id := 0
  const FooNode: Id := 1
  const BarNode: Id := 2
  const QuxNode: Id := 3
  const BazNode: Id := 4

  const Purple: Selector := map["purple" := Bool(true)]
  const PurpleDark: Selector := map["purple" := Bool(true), "red" := Str("dark")]
  const RedDark: Selector := map["red" := Str("dark")]
  const RedLight: Selector := map["red" := Str("light")]
  const YellowNot: Selector := map["yellow" := Str("not")]

  /** A string passed where a selector belongs is read key by key: its characters under "0", "1", .... */
  const BarString: Selector := map["0" := Str("b"), "1" := Str("a"), "2" := Str("r")]

  const BarDesign1: Member := Member("bar", map[
    "purple" := Prim(Bool(true)),
    "yellow" := Prim(Str("not")),
    "red" := Prim(Str("dark")),
    "node" := NodeRef(BarNode)])
  const FooDesign1: Member := Member("foo", map[
    "purple" := Prim(Bool(true)),
    "node" := NodeRef(FooNode),
    "children" := Nested([BarDesign1])])
  const QuxDesign1: Member := Member("qux", map[
    "red" := Prim(Str("light")),
    "node" := NodeRef(QuxNode)])
  const BazDesign1: Member := Member("baz", map[
    "purple" := Prim(Bool(true)),
    "red" := Prim(Str("dark")),
    "node" := NodeRef(BazNode)])
  const RootDesign1: Member := Member("root", map[
    "node" := NodeRef(RootNode),
    "red" := Prim(Str("dark")),
    "children" := Nested([FooDesign1, QuxDesign1, BazDesign1])])

  /** root{red: dark} -> foo{purple} -> bar{purple, yellow: not, red: dark}; qux{red: light}; baz{purple, red: dark}. */
  const Design1: Design := [RootDesign1]

  const Bar1: Entry := Entry(BarNode, map["purple" := Bool(true), "yellow" := Str("not"), "red" := Str("dark")], [])
  const Foo1: Entry := Entry(FooNode, map["purple" := Bool(true)], [Child("bar", Bar1)])
  const Qux1: Entry := Entry(QuxNode, map["red" := Str("light")], [])
  const Baz1: Entry := Entry(BazNode, map["purple" := Bool(true), "red" := Str("dark")], [])
  const Root1: Entry := Entry(RootNode, map["red" := Str("dark")],
                              [Child("foo", Foo1), Child("qux", Qux1), Child("baz", Baz1)])
  const Tree1: Forest := [Child("root", Root1)]

  lemma BarIsBuilt()
    ensures WellFormedMember(BarDesign1)
    ensures CreateEntry(BarDesign1) == Bar1
  {
    assert PropsOf(BarDesign1.fields) == Bar1.props;
  }

  lemma FooIsBuilt()
    ensures WellFormedMember(FooDesign1)
    ensures CreateEntry(FooDesign1) == Foo1
  {
    BarIsBuilt();
    assert WellFormed([BarDesign1]);
    assert Create([BarDesign1]) == [Child("bar", Bar1)];
    assert PropsOf(FooDesign1.fields) == Foo1.props;
  }

  lemma QuxIsBuilt()
    ensures WellFormedMember(QuxDesign1)
    ensures CreateEntry(QuxDesign1) == Qux1
  {
    assert PropsOf(QuxDesign1.fields) == Qux1.props;
  }

  lemma BazIsBuilt()
    ensures WellFormedMember(BazDesign1)
    ensures CreateEntry(BazDesign1) == Baz1
  {
    assert PropsOf(BazDesign1.fields) == Baz1.props;
  }

  /** The root's children are built as written out above. */
  lemma Root1ChildrenAreBuilt()
    ensures WellFormed([FooDesign1, QuxDesign1, BazDesign1])
    ensures Create([FooDesign1, QuxDesign1, BazDesign1]) == Root1.children
  {
    FooIsBuilt();
    QuxIsBuilt();
    BazIsBuilt();
  }

  /** The first fixture is built as written out above. */
  lemma Tree1IsBuilt()
    ensures WellFormed(Design1)
    ensures Create(Design1) == Tree1
  {
    Root1ChildrenAreBuilt();
    assert PropsOf(RootDesign1.fields) == Root1.props;
    assert WellFormedMember(RootDesign1);
    assert CreateEntry(RootDesign1) == Root1;
  }

  /** The selection every test starts from: the root alone. */
  lemma Target1IsRoot()
    ensures CreateTarget(Tree1) == [Root1]
  {
  }

  /** Below foo the pre-order is bar alone. */
  lemma Foo1PreOrder(sel: Selector)
    ensures AllMatchesIn(Foo1.children, sel) == SelfMatch(Bar1, sel)
  {
    assert AllMatchesIn(Bar1.children, sel) == [];
    assert Foo1.children[1..] == [];
  }

  /** After foo's subtree come qux and baz, both leaves. */
  lemma Tree1TailPreOrder(sel: Selector)
    ensures AllMatchesIn(Root1.children[1..], sel) == SelfMatch(Qux1, sel) + SelfMatch(Baz1, sel)
  {
    var t := Root1.children[1..];
    assert t[1..][1..] == [];
    assert AllMatchesIn(t[1..], sel) == SelfMatch(Baz1, sel);
  }

  /** Under the root of the first fixture, the pre-order is foo, bar, qux, baz. */
  lemma Tree1PreOrder(sel: Selector)
    ensures AllMatchesIn(Root1.children, sel) ==
              SelfMatch(Foo1, sel) + SelfMatch(Bar1, sel) + SelfMatch(Qux1, sel) + SelfMatch(Baz1, sel)
  {
    Foo1PreOrder(sel);
    Tree1TailPreOrder(sel);
  }

  /** The root's own children are foo, qux and baz. */
  lemma Tree1Children(sel: Selector)
    ensures ChildMatches(Root1.children, sel) ==
              SelfMatch(Foo1, sel) + SelfMatch(Qux1, sel) + SelfMatch(Baz1, sel)
  {
    var t := Root1.children;
    assert t[1..][1..][1..] == [];
    assert ChildMatches(t[1..][1..], sel) == SelfMatch(Baz1, sel);
  }

  lemma FindScenarios()
    ensures Query([Root1], Find, Anything) == [Root1]
    ensures Query([Root1], Find, Purple) == [Foo1]
    ensures Query([Root1], Find, RedLight) == [Qux1]
  {
    FindPurpleScenario();
    FindRedLightScenario();
  }

  lemma FindPurpleScenario()
    ensures Query([Root1], Find, Purple) == [Foo1]
  {
    FirstMatchIsFirstOfAll(Root1, Purple);
    Tree1PreOrder(Purple);
    assert !Matches(Root1.props, Purple) by { assert "purple" !in Root1.props; }
    assert SelfMatch(Foo1, Purple) == [Foo1];
  }

  lemma FindRedLightScenario()
    ensures Query([Root1], Find, RedLight) == [Qux1]
  {
    FirstMatchIsFirstOfAll(Root1, RedLight);
    Tree1PreOrder(RedLight);
    assert !Matches(Root1.props, RedLight) by { assert Root1.props["red"] != Str("light"); }
    assert !Matches(Foo1.props, RedLight) by { assert "red" !in Foo1.props; }
    assert !Matches(Bar1.props, RedLight) by { assert Bar1.props["red"] != Str("light"); }
    assert SelfMatch(Qux1, RedLight) == [Qux1];
  }

  /** Which entries of the first fixture each selector of the tests accepts. */
  lemma Tree1Matches()
    ensures !Matches(Root1.props, Purple) && Matches(Foo1.props, Purple) && Matches(Bar1.props, Purple)
    ensures !Matches(Qux1.props, Purple) && Matches(Baz1.props, Purple)
    ensures !Matches(Foo1.props, PurpleDark) && Matches(Bar1.props, PurpleDark)
    ensures !Matches(Qux1.props, PurpleDark) && Matches(Baz1.props, PurpleDark)
    ensures !Matches(Foo1.props, YellowNot) && Matches(Bar1.props, YellowNot) && !Matches(Baz1.props, YellowNot)
    ensures !Matches(Foo1.props, BarString) && !Matches(Qux1.props, BarString) && !Matches(Baz1.props, BarString)
  {
    assert "purple" !in Root1.props && "purple" !in Qux1.props;
    assert "red" !in Foo1.props;
    assert "yellow" !in Foo1.props && "yellow" !in Baz1.props;
    assert "0" !in Foo1.props && "0" !in Qux1.props && "0" !in Baz1.props;
  }

  lemma FindAllScenarios()
    ensures Query([Root1], FindAll, Anything) == [Foo1, Bar1, Qux1, Baz1]
    ensures Query([Root1], FindAll, PurpleDark) == [Bar1, Baz1]
    ensures Query([Root1], FindAll, Purple) == [Foo1, Bar1, Baz1]
  {
    Tree1Matches();
    Tree1PreOrder(Anything);
    Tree1PreOrder(PurpleDark);
    Tree1PreOrder(Purple);
  }

  lemma FindInChildrenScenarios()
    ensures Query([Root1], FindInChildren, Anything) == [Foo1]
    ensures Query([Root1], FindInChildren, Purple) == [Foo1]
    ensures Query([Root1], FindInChildren, BarString) == []
    ensures Query([Root1], FindInChildren, PurpleDark) == [Baz1]
  {
    FindInChildrenScenario(Anything);
    FindInChildrenScenario(Purple);
    Tree1Matches();
    FindInChildrenScenario(BarString);
    FindInChildrenScenario(PurpleDark);
  }

  /** `findInChildren` on the root's selection takes the first of foo, qux, baz that matches. */
  lemma FindInChildrenScenario(sel: Selector)
    ensures Query([Root1], FindInChildren, sel) ==
              OptionToSeq(Head(SelfMatch(Foo1, sel) + SelfMatch(Qux1, sel) + SelfMatch(Baz1, sel)))
  {
    FirstChildMatchIsFirstOfAll(Root1.children, sel);
    Tree1Children(sel);
  }

  lemma FindAllInChildrenScenarios()
    ensures Query([Root1], FindAllInChildren, Anything) == [Foo1, Qux1, Baz1]
    ensures Query([Root1], FindAllInChildren, PurpleDark) == [Baz1]
    ensures Query([Root1], FindAllInChildren, Purple) == [Foo1, Baz1]
  {
    Tree1Matches();
    Tree1Children(Anything);
    Tree1Children(PurpleDark);
    Tree1Children(Purple);
  }

  /** `findAllInChildren({purple})` then `find({yellow: 'not'})` searches under foo and baz separately. */
  lemma ChainedFindScenario()
    ensures Query([Root1], FindAllInChildren, Purple) == [Foo1, Baz1]
    ensures Query([Foo1, Baz1], Find, YellowNot) == [Bar1]
  {
    Tree1Matches();
    FindAllInChildrenScenarios();
    FirstMatchIsFirstOfAll(Foo1, YellowNot);
    assert AllMatchesIn(Foo1.children, YellowNot) == [Bar1] by {
      assert Foo1.children[1..] == [];
    }
    assert Step(Find, Foo1, YellowNot) == [Bar1];
    assert Step(Find, Baz1, YellowNot) == [];
    assert Query([Baz1], Find, YellowNot) == [] by {
      assert [Baz1][1..] == [];
    }
    assert [Foo1, Baz1][1..] == [Baz1];
  }

  lemma CommandScenarios()
    ensures FindWithCommands([Root1], []) == Ok([Root1])
    ensures FindWithCommands([Root1], [Command("find", RedLight)]) == Ok([Qux1])
    ensures FindWithCommands([Root1], [Command("findAll", Purple)]) == Ok([Foo1, Bar1, Baz1])
    ensures FindWithCommands([Root1], [Command("findInChildren", Purple)]) == Ok([Foo1])
    ensures FindWithCommands([Root1], [Command("findAllInChildren", Purple)]) == Ok([Foo1, Baz1])
    ensures FindWithCommands([Root1], [Command("unknown", BarString)]) == Err(UnsupportedCommand("unknown"))
  {
    FindCommandScenarios();
    ChildCommandScenarios();
    assert StrategyNamed("unknown") == None;
  }

  lemma FindCommandScenarios()
    ensures FindWithCommands([Root1], [Command("find", RedLight)]) == Ok([Qux1])
    ensures FindWithCommands([Root1], [Command("findAll", Purple)]) == Ok([Foo1, Bar1, Baz1])
  {
    FindRedLightScenario();
    SingleCommands([Root1], Find, RedLight);
    FindAllScenarios();
    SingleCommands([Root1], FindAll, Purple);
  }

  lemma ChildCommandScenarios()
    ensures FindWithCommands([Root1], [Command("findInChildren", Purple)]) == Ok([Foo1])
    ensures FindWithCommands([Root1], [Command("findAllInChildren", Purple)]) == Ok([Foo1, Baz1])
  {
    FindInChildrenScenario(Purple);
    Tree1Matches();
    SingleCommands([Root1], FindInChildren, Purple);
    FindAllInChildrenScenarios();
    SingleCommands([Root1], FindAllInChildren, Purple);
  }

  lemma ChainedCommandScenario()
    ensures FindWithCommands([Root1], [Command("findAllInChildren", Purple), Command("find", YellowNot)]) == Ok([Bar1])
  {
    ChainedFindScenario();
    var cmds := [Command("findAllInChildren", Purple), Command("find", YellowNot)];
    assert cmds[0].kind == "findAllInChildren" && cmds[1..] == [Command("find", YellowNot)];
    assert StrategyNamed("findAllInChildren") == Some(FindAllInChildren);
    assert FindWithCommands([Root1], cmds) == FindWithCommands([Foo1, Baz1], cmds[1..]);
    assert StrategyNamed("find") == Some(Find);
    assert FindWithCommands([Foo1, Baz1], [Command("find", YellowNot)]) == FindWithCommands([Bar1], []);
  }

  // ---------------------------------------------------------------------
  // The second fixture: two purple branches, each with a dark-red child.

  const BarDesign2: Member := Member("bar", map[
    "red" := Prim(Str("dark")),
    "node" := NodeRef(BarNode)])
  const FooDesign2: Member := Member("foo", map[
    "purple" := Prim(Bool(true)),
    "node" := NodeRef(FooNode),
    "children" := Nested([BarDesign2])])
  const BazDesign2: Member := Member("baz", map[
    "red" := Prim(Str("dark")),
    "node" := NodeRef(BazNode)])
  const QuxDesign2: Member := Member("qux", map[
    "purple" := Prim(Bool(true)),
    "node" := NodeRef(QuxNode),
    "children" := Nested([BazDesign2])])
  const RootDesign2: Member := Member("root", map[
    "node" := NodeRef(RootNode),
    "red" := Prim(Str("dark")),
    "children" := Nested([FooDesign2, QuxDesign2])])

  /** root{red: dark} -> foo{purple} -> bar{red: dark}; qux{purple} -> baz{red: dark}. */
  const Design2: Design := [RootDesign2]

  const Bar2: Entry := Entry(BarNode, map["red" := Str("dark")], [])
  const Foo2: Entry := Entry(FooNode, map["purple" := Bool(true)], [Child("bar", Bar2)])
  const Baz2: Entry := Entry(BazNode, map["red" := Str("dark")], [])
  const Qux2: Entry := Entry(QuxNode, map["purple" := Bool(true)], [Child("baz", Baz2)])
  const Root2: Entry := Entry(RootNode, map["red" := Str("dark")], [Child("foo", Foo2), Child("qux", Qux2)])

  lemma Leaves2AreBuilt()
    ensures WellFormed([BarDesign2]) && Create([BarDesign2]) == [Child("bar", Bar2)]
    ensures WellFormed([BazDesign2]) && Create([BazDesign2]) == [Child("baz", Baz2)]
  {
    assert PropsOf(BarDesign2.fields) == Bar2.props;
    assert PropsOf(BazDesign2.fields) == Baz2.props;
  }

  lemma Foo2IsBuilt()
    ensures WellFormedMember(FooDesign2) && CreateEntry(FooDesign2) == Foo2
  {
    Leaves2AreBuilt();
    assert PropsOf(FooDesign2.fields) == Foo2.props;
  }

  lemma Qux2IsBuilt()
    ensures WellFormedMember(QuxDesign2) && CreateEntry(QuxDesign2) == Qux2
  {
    Leaves2AreBuilt();
    assert PropsOf(QuxDesign2.fields) == Qux2.props;
  }

  /** The second fixture is built as written out above. */
  lemma Tree2IsBuilt()
    ensures WellFormed(Design2)
    ensures CreateTarget(Create(Design2)) == [Root2]
  {
    Foo2IsBuilt();
    Qux2IsBuilt();
    var kids := [FooDesign2, QuxDesign2];
    assert WellFormed(kids);
    assert Create(kids) == Root2.children;
    assert PropsOf(RootDesign2.fields) == Root2.props;
    assert WellFormedMember(RootDesign2);
    assert CreateEntry(RootDesign2) == Root2;
  }

  /**
   * `findAll({purple}).findInChildren({red: 'dark'})` gives one match per
   * purple branch: bar under foo and baz under qux.
   */
  lemma SpreadScenario()
    ensures Query([Root2], FindAll, Purple) == [Foo2, Qux2]
    ensures Payloads(Query(Query([Root2], FindAll, Purple), FindInChildren, RedDark)) == [BarNode, BazNode]
  {
    var t := Root2.children;
    assert "purple" !in Bar2.props && "purple" !in Baz2.props;
    assert AllMatchesIn(Foo2.children, Purple) == [] by {
      assert Foo2.children[1..] == [];
    }
    assert AllMatchesIn(Qux2.children, Purple) == [] by {
      assert Qux2.children[1..] == [];
    }
    assert t[1..][1..] == [];
    assert AllMatchesIn(t[1..], Purple) == [Qux2];
    assert t[0].entry == Foo2 && Matches(Foo2.props, Purple);
    assert AllMatchesIn(t, Purple) == [Foo2, Qux2];
    assert [Root2][1..] == [];
    assert Query([Root2], FindAll, Purple) == [Foo2, Qux2];
    assert Step(FindInChildren, Foo2, RedDark) == [Bar2];
    assert Step(FindInChildren, Qux2, RedDark) == [Baz2];
    assert [Foo2, Qux2][1..] == [Qux2];
    assert Query([Qux2], FindInChildren, RedDark) == [Baz2] by {
      assert [Qux2][1..] == [];
    }
  }

  // ---------------------------------------------------------------------
  // An empty tree gives an empty selection that every call keeps empty.

  lemma EmptyTreeScenario(st: Strategy, sel: Selector)
    ensures WellFormed([]) && CreateTarget(Create([])) == []
    ensures Query(Query([], st, sel), st, sel) == []
    ensures FindWithCommands([], [Command("find", Anything)]) == Ok([])
  {
    assert StrategyNamed("find") == Some(Find);
  }
}
