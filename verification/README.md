# Tree query engine (`createTarget`) in Dafny

This project models the target-selection engine of react-gsap-enhancer. The engine is the value that
`createTarget(tree)` returns. The model is rebuilt from the behaviour that the engine's test file pins
down, together with the test file's own tree builder, `createFakeTree`.

- **Tree** (`tree.dfy`). A level of the tree is an ordered sequence of keyed children (`Child(key, entry)`),
  kept in the insertion order of the source's `Map`. An `Entry` holds an opaque payload (`Id`), a flat
  property map (`string` to `Bool`/`Str`) and its own children. Paths of child positions (`EntryAt`,
  `ForestAt`) give the reference meaning of "descendant" (`IsDescendant`) and "child" (`IsChild`). The
  searches are checked against these.
- **Property matcher** (`matcher.dfy`). `Matches(props, sel)` holds when every selector key is present
  in `props` with an equal value. A call with no selector is the empty selector `Anything`, which matches
  every entry.
- **Searches** (`traversal.dfy`). These are the per-entry searches behind the four strategies. The
  pre-order search of a subtree either stops at the first match (`FirstMatch`) or collects every match
  (`AllMatchesFrom`/`AllMatchesIn`). The one-level scan of a child list also comes in both forms
  (`FirstChildMatch`, `ChildMatches`).
- **Selection** (`selection.dfy`). A selection is an ordered sequence of entries, and its public face is
  `Payloads`. `Query(s, st, sel)` runs strategy `st` (`Find`, `FindAll`, `FindInChildren`,
  `FindAllInChildren`) under every item on its own and joins the results in item order. This is what
  makes `findAll(x).findInChildren(y)` search under each hit separately.
- **Commands** (`commands.dfy`). `FindWithCommands` folds a script of `Command(kind, selector)` from left
  to right. An unknown kind fails the whole call with `UnsupportedCommand(kind)`.
- **Fixture builder** (`fake_tree.dfy`). `Create` is `createFakeTree`. It takes a nested object literal
  (`Design`) and builds the tree: the `node` field becomes the payload, the `children` field becomes the
  children (an empty level when absent), and all other fields become properties.
- **Test scenarios** (`scenarios.dfy`). The two fixture trees are built through `Create`, and every
  expectation of the test file is stated about them.

## Model

| member | source | states |
|---|---|---|
| `FakeTree.PropsOf` | test/target/test.js:10 | The property map is the member's fields minus `node` and `children`, with each value kept unchanged. |
| `FakeTree.CreateEntry` | test/target/test.js:10-16 | The payload is the `node` field. Neither `node` nor `children` is left among the properties. An absent `children` field gives no children. |
| `FakeTree.Create` | test/target/test.js:5-20 | Each design key becomes one child, built from that key's member, in the order the design lists its members. That order stands for `Object.keys` order: integer-like keys first, ascending, then the other keys in insertion order. |
| `FakeTree.CreateIsReservedFree` | test/target/test.js:5-19 | No built entry, at any depth, keeps `node` or `children` among its properties. |
| `FakeTree.CreateEntryIsReservedFree` | test/target/test.js:10-16 | Same as the row above, for the subtree built from one member. |
| `FakeTree.EmptyChildrenIsNoChildren` | test/target/test.js:6-8 | A member with an empty `children` design builds the same entry as one without the field. |
| `FakeTree.DesignRoundTrip` | test/target/test.js:4-21 | Every tree whose properties avoid `node` and `children` is built by `Create` from the design that describes it. |
| `FakeTree.EntryRoundTrip` | test/target/test.js:10-16 | Same as the row above, for one entry and the object literal that describes it. |
| `Matcher.Matches` | test/target/test.js:157-160 | Every selector key must be present in the properties (foo, lacking `red`, fails `{purple, red}`). The empty selector, a call without one, matches every entry. The full rule is stated by `Matcher.MatchesIffRestrictionIsSelector`. |
| `Matcher.MatchesIffRestrictionIsSelector` | test/target/test.js:125-129 | An entry matches exactly when its properties, cut down to the selector's keys, equal the selector. |
| `Matcher.MatchesUnion` | test/target/test.js:125-129 | Matching is a conjunction. A selector built from two parts with disjoint keys matches exactly when both parts match. |
| `Traversal.AllMatchesFrom` | test/target/test.js:91-113 | The pre-order list of matches of a subtree, the root first, holds only matching entries and is no longer than the subtree. A matching root comes first. Its order is tied to `find` by `Traversal.FirstMatchIsFirstOfAll`. |
| `Traversal.AllMatchesIn` | test/target/test.js:116-135 | The pre-order list of matches below a level holds only matching entries and no more entries than the level. That it holds exactly the matching descendants is `Traversal.AllMatchesInIsMatchingDescendants`. |
| `Traversal.FirstMatch` | test/target/test.js:97-113 | The early-stopping search returns a matching entry, and the entry itself when it matches. That it is the first pre-order match is `Traversal.FirstMatchIsFirstOfAll`. |
| `Traversal.FirstMatchIn` | test/target/test.js:97-101 | The early-stopping search through a level returns a matching entry when it returns one. That it is the first is `Traversal.FirstMatchInIsFirstOfAll`. |
| `Traversal.ChildMatches` | test/target/test.js:168-190 | The one-level scan holds only matching entries and no more than the level has. That it holds exactly the matching children is `Traversal.ChildMatchesAreMatchingChildren`. |
| `Traversal.FirstChildMatch` | test/target/test.js:138-165 | The early-stopping child scan returns a matching entry of the level itself, never a deeper one. That it is the first is `Traversal.FirstChildMatchIsFirstOfAll`. |
| `Traversal.FirstMatchIsFirstOfAll` | test/target/test.js:97-113 | The early-stopping search from an entry, the entry first, returns the head of the full pre-order list of matches. |
| `Traversal.FirstMatchInIsFirstOfAll` | test/target/test.js:97-113 | Same as the row above, for the search through a list of subtrees. |
| `Traversal.FirstChildMatchIsFirstOfAll` | test/target/test.js:147-150 | The early-stopping child scan returns the head of the list of all matching children. |
| `Traversal.AllMatchesInSound` | test/target/test.js:119-135 | Everything the subtree search collects matches and is reached by a path inside the level. |
| `Traversal.AllMatchesInComplete` | test/target/test.js:119-135 | Every matching entry that a path reaches inside the level is collected. |
| `Traversal.AllMatchesInIsMatchingDescendants` | test/target/test.js:119-135 | The search below an entry collects exactly the matching proper descendants of that entry. |
| `Traversal.AllMatchesInAnythingCountsAll` | test/target/test.js:119-123 | With no selector, the subtree search lists one entry per entry position in the level: its length is the level's size. |
| `Traversal.ChildMatchesAreMatchingChildren` | test/target/test.js:172-190 | The child scan collects exactly the matching entries of the level, in both directions. |
| `Traversal.ChildMatchesAnythingIsLevel` | test/target/test.js:172-175 | With no selector, the child scan lists the level's own entries, in order. |
| `Tree.DescendantIsSmaller` | test/target/test.js:119-123 | A proper descendant is strictly smaller than its ancestor, so an entry is never its own descendant. |
| `Tree.ChildIsDepthOne` | test/target/test.js:152-155 | A child is exactly an entry reached by a path of length one. |
| `Selection.Payloads` | test/target/test.js:58-63 | What a selection shows: the payload of each item, one per item, in order. |
| `Selection.CreateTarget` | test/target/test.js:67-73 | The initial selection is the tree's top-level entries, in insertion order. An empty tree gives an empty selection. |
| `Selection.Step` | test/target/test.js:88-190 | One strategy run under one item gives only matching entries. `find` and `findInChildren` give at most one entry. `findAllInChildren` gives at most one per child. `findAll` gives fewer entries than the item's subtree holds, since the item itself is never among them. The strategies are tied to their reference descriptions by the `Selection.Find*` lemmas. |
| `Selection.Query` | test/target/test.js:279-313 | A query gives only entries that match its selector. Per-item independence is `Selection.QueryAppend` and `Selection.QueryMember`. |
| `Selection.QueryAppend` | test/target/test.js:279-313 | Querying a joined selection gives the queries of its two parts, joined. Every item is searched on its own. |
| `Selection.QueryMember` | test/target/test.js:279-313 | An entry is in a query's result exactly when the search of one item produced it. |
| `Selection.EmptyStaysEmpty` | test/target/test.js:76-85 | Every strategy on the selection of an empty tree gives an empty selection. |
| `Selection.SingleMatchAtMostOnePerItem` | test/target/test.js:109-113 | `find` and `findInChildren` give at most one entry per item. |
| `Selection.FindIsFirstPreOrderMatch` | test/target/test.js:97-113 | For each item, `find` gives the first matching entry of the item's subtree in pre-order, the item itself first. It gives nothing when no entry matches. |
| `Selection.FindStaysInSubtree` | test/target/test.js:97-113 | What `find` gives for an item matches the selector and is the item itself or one of its descendants. |
| `Selection.FindEmptyIffNoMatch` | test/target/test.js:97-113 | `find` gives nothing for an item exactly when neither the item nor any of its descendants matches. |
| `Selection.FindAnythingIsIdentity` | test/target/test.js:91-95 | With no selector, `find` returns the selection itself. |
| `Selection.FindAllIsMatchingDescendants` | test/target/test.js:119-135 | `findAll` yields exactly the matching proper descendants of the items, in both directions. |
| `Selection.FindAllExcludesItself` | test/target/test.js:119-123 | `findAll` never returns the item it started from. |
| `Selection.FindAllAnythingCountsDescendants` | test/target/test.js:119-123 | With no selector, `findAll` lists all proper descendants of an item: the subtree size minus one. |
| `Selection.FindAllInChildrenIsMatchingChildren` | test/target/test.js:168-190 | `findAllInChildren` yields exactly the matching direct children of the items. Nothing deeper is returned. |
| `Selection.FindInChildrenIsFirstChildMatch` | test/target/test.js:142-165 | For each item, `findInChildren` gives the first entry that `findAllInChildren` would list for it. |
| `Selection.FindInChildrenIsMatchingChild` | test/target/test.js:152-155 | Whatever `findInChildren` gives is a matching direct child of one of the items. |
| `Selection.FindAllInChildrenAnythingIsChildren` | test/target/test.js:172-175 | With no selector, `findAllInChildren` lists every child of an item, in order. |
| `Commands.FindWithCommands` | test/target/test.js:206-275 | An empty script returns the selection unchanged. On success, every entry of the result matches the selector of the script's last command. Composition, failure and per-item behaviour are `Commands.CommandsCompose`, `Commands.FailsIffUnknownType` and `Commands.CommandsPerItem`. |
| `Commands.StrategyNamed` | test/target/test.js:212-248 | A recognised command type is the name of the strategy it selects. |
| `Commands.StrategyNamedIsInverseOfNameOf` | test/target/test.js:250-260 | Each strategy's name is recognised as that strategy. A type is unknown exactly when no strategy has that name. |
| `Commands.SingleCommands` | test/target/test.js:206-248 | An empty script returns the selection unchanged. A one-command script runs the named strategy with its selector. |
| `Commands.CommandsCompose` | test/target/test.js:262-275 | Replaying `a + b` is replaying `a`, then `b` on its result. A failure in `a` is the result. |
| `Commands.FailsIffUnknownType` | test/target/test.js:250-260 | A script fails exactly when one of its types is unknown, whatever the selection. The error names the first unknown type. |
| `Commands.CommandsPerItem` | test/target/test.js:262-313 | A script of known commands, replayed over a joined selection, gives the results over the two parts, joined. |
| `Scenarios.Tree1IsBuilt` | test/target/test.js:28-56 | `createFakeTree` builds the first fixture as written out entry by entry. |
| `Scenarios.Target1IsRoot` | test/target/test.js:92-94 | The selection over the first fixture is its root alone. |
| `Scenarios.FindScenarios` | test/target/test.js:91-113 | `find()` gives root, `find({purple})` gives foo, and `find({red: 'light'})` gives qux. |
| `Scenarios.FindAllScenarios` | test/target/test.js:119-135 | `findAll()` gives foo, bar, qux, baz. `findAll({purple, red: 'dark'})` gives bar, baz. `findAll({purple})` gives foo, bar, baz. |
| `Scenarios.FindInChildrenScenarios` | test/target/test.js:142-165 | `findInChildren()` and `findInChildren({purple})` give foo. The string `'bar'` gives nothing. `{purple, red: 'dark'}` gives baz. |
| `Scenarios.FindAllInChildrenScenarios` | test/target/test.js:172-190 | `findAllInChildren()` gives foo, qux, baz. `{purple, red: 'dark'}` gives baz. `{purple}` gives foo, baz. |
| `Scenarios.ChainedFindScenario` | test/target/test.js:262-275 | `findAllInChildren({purple})` gives foo, baz. `find({yellow: 'not'})` on that gives bar. |
| `Scenarios.CommandScenarios` | test/target/test.js:206-260 | The single-command scripts of the tests give root, qux, foo/bar/baz, foo and foo/baz. The type `unknown` fails with `UnsupportedCommand`. |
| `Scenarios.ChainedCommandScenario` | test/target/test.js:262-275 | The two-command script gives bar. |
| `Scenarios.Tree2IsBuilt` | test/target/test.js:281-308 | The second fixture is built as written out, and its selection is its root. |
| `Scenarios.SpreadScenario` | test/target/test.js:309-312 | `findAll({purple}).findInChildren({red: 'dark'})` gives one match per branch: bar and baz. |
| `Scenarios.EmptyTreeScenario` | test/target/test.js:76-85 | Over an empty tree, every chained call and `findWithCommands([find {}])` gives an empty selection. |

## Left out

- `src/createTarget` is not part of this model. Its behaviour is rebuilt from the tests in
  `test/target/test.js`, so every property above is a property of that behaviour, not of its code.
- A selection is a JavaScript array carrying methods. Here it is a `seq<Entry>` plus functions over it.
  Chainability ("every call returns a selection") is a fact of the types and is not stated separately.
  Each item keeps its whole entry, not just its payload and children, because the self-inclusive `find`
  tests the item's own properties.
- Payload objects are compared by identity only. They are modelled as distinct `Id` numbers. Runtime
  details of `Map` and `Object.freeze` are not modelled; Dafny values are immutable.
- A call without a selector is modelled as the empty selector. The two behave the same in every test.
- A string passed as a selector (`findInChildren('bar')`, and `'bar'` in the unknown-command test) is
  read by JavaScript key by key. It is modelled as the map of its characters under the keys `"0"`, `"1"`,
  `"2"` (`Scenarios.BarString`). The matching rule then gives the empty result the tests expect. The
  engine does not reject such selectors, so no `InvalidSelector` error is modelled.
- The test at test/target/test.js:239-248 expects `[bazNode, quxNode]` from `findAllInChildren({purple})`.
  This contradicts the fixture, because qux has no `purple` property, and it contradicts the same query
  at test/target/test.js:187-190. The model follows the latter: foo and baz (`Scenarios.CommandScenarios`).
- The tests compare results by length and membership (`targetsEqual`). The scenario lemmas state the
  exact sequences instead, which is stronger, and they compare entries rather than payloads; `Payloads`
  maps the one onto the other.
- `FakeTree.Create` requires that every member has a `node` payload and that `children`, when present,
  is a nested design. It also requires every other field to be a plain boolean or string. A member
  without `node`, or with a non-object `children` value (which JavaScript would read as `undefined` or
  enumerate), is outside the model. The fixtures never build one.
- `FakeTree.Create` builds the children in the order the design lists its members. `createFakeTree` uses
  `Object.keys`, which puts integer-like keys ("0", "42") first, in ascending numeric order, and then the
  other keys in insertion order. `Create` agrees with it only for designs listed in that order. The
  fixtures have no integer-like keys, so their literal order is that order.
- A level of the tree (`Tree.Forest`) and of a design (`FakeTree.Design`) may repeat a key. A JavaScript
  `Map` or object never does, so the model's domain is wider than the source's. No search looks at keys,
  so every property above also holds on the narrower domain.
- The test runner's plumbing (`describe`, `it`, chai's `assert`) is not modelled.
