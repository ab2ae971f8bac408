/**
 * The property matcher: a selector names properties and the values they
 * must hold; an entry matches when every one of them is present in its
 * property map with an equal value. The empty selector, which also stands
 * for a call made without one, matches every entry.
 */
module Matcher {
  import opened Tree

  type Selector = map<string, Value>

  /** The selector of a call made with no argument: no constraint at all. */
  const Anything: Selector := map[]

  /**
   * Every selector key is present in `props` with an equal value. Its full
   * reading as a restriction is `MatchesIffRestrictionIsSelector`.
   */
  predicate Matches(props: Props, sel: Selector): (r: bool)
    ensures r ==> sel.Keys <= props.Keys
    ensures sel == Anything ==> r
  {
    forall k | k in sel :: k in props && props[k] == sel[k]
  }

  /** The properties of `props` that the selector talks about. */
  function Restrict(props: Props, sel: Selector): (r: Props)
    ensures r.Keys == props.Keys * sel.Keys
    ensures forall k | k in r :: r[k] == props[k]
  {
    map k | k in props && k in sel :: props[k]
  }

  /**
   * A second reading of the matching rule: an entry matches exactly when
   * its properties, cut down to the selector's keys, are the selector.
   */
  lemma MatchesIffRestrictionIsSelector(props: Props, sel: Selector)
    ensures Matches(props, sel) <==> Restrict(props, sel) == sel
  {
    var r := Restrict(props, sel);
    if Matches(props, sel) {
      assert r.Keys == sel.Keys;
      assert forall k | k in r :: r[k] == sel[k];
    }
    if r == sel {
      forall k | k in sel
        ensures k in props && props[k] == sel[k]
      {
        assert k in r;
      }
    }
  }

  /**
   * Matching is a conjunction: a selector built from two selectors with
   * disjoint keys matches exactly when both parts match.
   */
  lemma MatchesUnion(props: Props, s1: Selector, s2: Selector)
    requires s1.Keys !! s2.Keys
    ensures Matches(props, s1 + s2) <==> Matches(props, s1) && Matches(props, s2)
  {
    if Matches(props, s1 + s2) {
      forall k | k in s1
        ensures k in props && props[k] == s1[k]
      {
        assert k !in s2;
        assert (s1 + s2)[k] == s1[k];
      }
    }
  }
}
