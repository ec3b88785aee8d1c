/** The pages' voice-command interpreters are if/else-if chains of
    substring, prefix and equality tests on the lowercased transcript. A
    chain is modelled as a table of rules tried in order, the first rule one
    of whose tests passes deciding the command. */
module Rules {
  import opened Wrappers

  /** One branch: its condition, a test on the lowercased transcript made
      of `includes`, `===` and `startsWith` joined by `||`, and the command
      it selects. */
  datatype Rule<A> = Rule(guard: string -> bool, action: A)

  predicate Fires<A>(r: Rule<A>, lower: string) {
    r.guard(lower)
  }

  /** The index of the branch an if/else-if chain takes, if any. */
  function FirstFiring<A>(rules: seq<Rule<A>>, lower: string): (r: Option<nat>)
    ensures r.Some? ==> r.value < |rules| && Fires(rules[r.value], lower)
    ensures r.Some? ==> forall j :: 0 <= j < r.value ==> !Fires(rules[j], lower)
    ensures r.None? ==> forall j :: 0 <= j < |rules| ==> !Fires(rules[j], lower)
  {
    if |rules| == 0 then None
    else if Fires(rules[0], lower) then Some(0)
    else
      match FirstFiring(rules[1..], lower)
      case None => None
      case Some(i) => Some(i + 1)
  }

  /** The command a chain selects; `otherwise` is its final `else`. */
  function Decide<A>(rules: seq<Rule<A>>, lower: string, otherwise: A): A {
    match FirstFiring(rules, lower)
    case None => otherwise
    case Some(i) => rules[i].action
  }

  /** A branch is taken exactly when it fires and no earlier branch does. */
  lemma FirstMatchWins<A>(rules: seq<Rule<A>>, lower: string, otherwise: A, i: nat)
    requires i < |rules| && Fires(rules[i], lower)
    requires forall j :: 0 <= j < i ==> !Fires(rules[j], lower)
    ensures FirstFiring(rules, lower) == Some(i)
    ensures Decide(rules, lower, otherwise) == rules[i].action
  {
  }

  /** The final `else` is taken exactly when no branch fires. */
  lemma OtherwiseWhenNothingFires<A>(rules: seq<Rule<A>>, lower: string, otherwise: A)
    requires forall j :: 0 <= j < |rules| ==> !Fires(rules[j], lower)
    ensures FirstFiring(rules, lower).None?
    ensures Decide(rules, lower, otherwise) == otherwise
  {
  }
}
