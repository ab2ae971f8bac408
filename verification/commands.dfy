/**
 * The command interpreter: a script of `{type, selector}` commands is
 * replayed over a selection from left to right, each command running the
 * strategy its type names. A type outside the four strategy names fails
 * the whole call.
 */
module Commands {
  import opened Tree
  import opened Matcher
  import opened Selection

  datatype Command = Command(kind: string, selector: Selector)

  datatype Error = UnsupportedCommand(kind: string)

  datatype Result<T> = Ok(value: T) | Err(error: Error)

  /** The command type under which each strategy is requested. */
  function NameOf(st: Strategy): string
  {
    match st
    case Find => "find"
    case FindAll => "findAll"
    case FindInChildren => "findInChildren"
    case FindAllInChildren => "findAllInChildren"
  }

  /** The strategy a command type names, if it names one. */
  function StrategyNamed(kind: string): (r: Option<Strategy>)
    ensures r.Some? ==> NameOf(r.value) == kind
  {
    if kind == "find" then Some(Find)
    else if kind == "findAll" then Some(FindAll)
    else if kind == "findInChildren" then Some(FindInChildren)
    else if kind == "findAllInChildren" then Some(FindAllInChildren)
    else None
  }

  /** Replays `cmds` over `s`, left to right. */
  function FindWithCommands(s: Selection, cmds: seq<Command>): (r: Result<Selection>)
    ensures cmds == [] ==> r == Ok(s)
    ensures r.Ok? && cmds != [] ==>
              forall x | x in r.value :: Matches(x.props, cmds[|cmds| - 1].selector)
    decreases cmds
  {
    if cmds == [] then Ok(s)
    else
      match StrategyNamed(cmds[0].kind)
      case None => Err(UnsupportedCommand(cmds[0].kind))
      case Some(st) => FindWithCommands(Query(s, st, cmds[0].selector), cmds[1..])
  }

  /** Carries on with more commands after a successful replay; a failure stays a failure. */
  function Then(r: Result<Selection>, cmds: seq<Command>): Result<Selection>
  {
    match r
    case Err(e) => Err(e)
    case Ok(s) => FindWithCommands(s, cmds)
  }

  /** A command type is known exactly when it is the name of a strategy. */
  lemma StrategyNamedIsInverseOfNameOf(st: Strategy, kind: string)
    ensures StrategyNamed(NameOf(st)) == Some(st)
    ensures StrategyNamed(kind).None? <==> forall s: Strategy :: NameOf(s) != kind
  {
    if StrategyNamed(kind).None? {
      forall s: Strategy
        ensures NameOf(s) != kind
      {
        assert StrategyNamed(NameOf(s)).Some?;
      }
    }
  }

  /** Each command type is known. */
  ghost predicate AllKnown(cmds: seq<Command>)
  {
    forall i | 0 <= i < |cmds| :: StrategyNamed(cmds[i].kind).Some?
  }

  /** An empty script is the identity, and a one-command script runs its strategy. */
  lemma SingleCommands(s: Selection, st: Strategy, sel: Selector)
    ensures FindWithCommands(s, []) == Ok(s)
    ensures FindWithCommands(s, [Command(NameOf(st), sel)]) == Ok(Query(s, st, sel))
  {
    StrategyNamedIsInverseOfNameOf(st, NameOf(st));
  }

  /** Running two scripts one after the other is running their concatenation. */
  lemma {:induction false} CommandsCompose(s: Selection, a: seq<Command>, b: seq<Command>)
    ensures FindWithCommands(s, a + b) == Then(FindWithCommands(s, a), b)
    decreases a
  {
    if a == [] {
      assert a + b == b;
    } else {
      assert (a + b)[0] == a[0];
      assert (a + b)[1..] == a[1..] + b;
      match StrategyNamed(a[0].kind)
      case None =>
      case Some(st) => CommandsCompose(Query(s, st, a[0].selector), a[1..], b);
    }
  }

  /**
   * A script fails exactly when one of its types is unknown, whatever the
   * selection, and the error names the first unknown type.
   */
  lemma {:induction false} FailsIffUnknownType(s: Selection, cmds: seq<Command>)
    ensures FindWithCommands(s, cmds).Err? <==> !AllKnown(cmds)
    ensures FindWithCommands(s, cmds).Err? ==>
              exists i :: 0 <= i < |cmds| && StrategyNamed(cmds[i].kind).None? &&
                (forall j | 0 <= j < i :: StrategyNamed(cmds[j].kind).Some?) &&
                FindWithCommands(s, cmds).error == UnsupportedCommand(cmds[i].kind)
    decreases cmds
  {
    if cmds != [] {
      match StrategyNamed(cmds[0].kind)
      case None =>
        assert StrategyNamed(cmds[0].kind).None?;
      case Some(st) =>
        var rest := cmds[1..];
        FailsIffUnknownType(Query(s, st, cmds[0].selector), rest);
        assert forall i | 1 <= i < |cmds| :: cmds[i] == rest[i - 1];
        if FindWithCommands(s, cmds).Err? {
          var i :| 0 <= i < |rest| && StrategyNamed(rest[i].kind).None? &&
                   (forall j | 0 <= j < i :: StrategyNamed(rest[j].kind).Some?) &&
                   FindWithCommands(s, cmds).error == UnsupportedCommand(rest[i].kind);
          assert StrategyNamed(cmds[i + 1].kind).None?;
          assert forall j | 0 <= j < i + 1 :: StrategyNamed(cmds[j].kind).Some?;
        }
    }
  }

  /**
   * Chaining keeps the items apart: a script replayed over a joined
   * selection gives the results over its two parts, joined.
   */
  lemma {:induction false} CommandsPerItem(a: Selection, b: Selection, cmds: seq<Command>)
    requires AllKnown(cmds)
    ensures FindWithCommands(a, cmds).Ok? && FindWithCommands(b, cmds).Ok?
    ensures FindWithCommands(a + b, cmds) ==
              Ok(FindWithCommands(a, cmds).value + FindWithCommands(b, cmds).value)
    decreases cmds
  {
    if cmds != [] {
      var st := StrategyNamed(cmds[0].kind).value;
      var sel := cmds[0].selector;
      QueryAppend(a, b, st, sel);
      assert AllKnown(cmds[1..]) by {
        forall i | 0 <= i < |cmds[1..]|
          ensures StrategyNamed(cmds[1..][i].kind).Some?
        {
          assert cmds[1..][i] == cmds[i + 1];
        }
      }
      CommandsPerItem(Query(a, st, sel), Query(b, st, sel), cmds[1..]);
    }
  }
}
