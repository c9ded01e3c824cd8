// The rules that rewrite model references: at most one per source provider
// and model match.
module ReferenceRules {
  import opened Wrappers

  datatype Match = Any | Exactly(model: string) | Prefix(prefix: string) | Incompatible(rules: seq<string>)

  datatype Rule = Rule(source: string, matching: Match, target: string, prefix: Option<string>, allowMissing: bool)

  datatype Conflict = Conflict(source: string)

  predicate SameKey(a: Rule, b: Rule) {
    a.source == b.source && a.matching == b.matching
  }

  // An equal rule is accepted silently, a different one for the same key refused.
  method InsertReferenceRule(rules: seq<Rule>, rule: Rule) returns (r: Result<seq<Rule>, Conflict>)
    ensures r == Inserted(rules, rule)
  {
    for i := 0 to |rules|
      invariant FirstWithKey(rules, rule) == FirstWithKey(rules[i..], rule)
    {
      assert rules[i..][0] == rules[i] && rules[i..][1..] == rules[i + 1..];
      if SameKey(rules[i], rule) {
        if rules[i] != rule {
          return Err(Conflict(rule.source));
        }
        return Ok(rules);
      }
    }
    r := Ok(rules + [rule]);
  }

  function FirstWithKey(rules: seq<Rule>, rule: Rule): Option<Rule> {
    if rules == [] then None else if SameKey(rules[0], rule) then Some(rules[0]) else FirstWithKey(rules[1..], rule)
  }

  function Inserted(rules: seq<Rule>, rule: Rule): Result<seq<Rule>, Conflict> {
    match FirstWithKey(rules, rule)
    case None => Ok(rules + [rule])
    case Some(existing) => if existing == rule then Ok(rules) else Err(Conflict(rule.source))
  }

  // A whole compilation inserts its rules one after the other.
  function InsertedAll(rules: seq<Rule>, more: seq<Rule>): Result<seq<Rule>, Conflict>
    decreases |more|
  {
    if more == [] then Ok(rules)
    else match Inserted(rules, more[0])
      case Err(e) => Err(e)
      case Ok(next) => InsertedAll(next, more[1..])
  }

  predicate Unambiguous(rules: seq<Rule>) {
    forall a, b :: a in rules && b in rules && SameKey(a, b) ==> a == b
  }

  predicate Keyed(rules: seq<Rule>) {
    forall i, j :: 0 <= i < j < |rules| ==> !SameKey(rules[i], rules[j])
  }

  lemma {:induction false} FirstWithKeyIs(rules: seq<Rule>, rule: Rule)
    ensures match FirstWithKey(rules, rule)
            case None => forall i :: 0 <= i < |rules| ==> !SameKey(rules[i], rule)
            case Some(x) => x in rules && SameKey(x, rule)
  {
    if rules != [] {
      FirstWithKeyIs(rules[1..], rule);
      assert forall i :: 1 <= i < |rules| ==> rules[i] == rules[1..][i - 1];
    }
  }

  // The compilation succeeds exactly if no two rules for one key differ. Then
  // every rule is there, nothing else is, and no key occurs twice.
  lemma {:induction false} CompilationOutcome(rules: seq<Rule>, more: seq<Rule>)
    requires Keyed(rules)
    ensures InsertedAll(rules, more).Ok? <==> Unambiguous(rules + more)
    ensures InsertedAll(rules, more).Ok? ==>
              && Keyed(InsertedAll(rules, more).value)
              && (forall r :: r in InsertedAll(rules, more).value <==> r in rules + more)
              && rules <= InsertedAll(rules, more).value
    decreases |more|
  {
    if more == [] {
      assert rules + more == rules;
    } else {
      var rule, rest := more[0], more[1..];
      assert rules + more == (rules + [rule]) + rest;
      FirstWithKeyIs(rules, rule);
      match FirstWithKey(rules, rule)
      case None =>
        CompilationOutcome(rules + [rule], rest);
      case Some(existing) =>
        assert existing in rules + more && rule in rules + more;
        if existing == rule {
          CompilationOutcome(rules, rest);
          assert forall r :: r in rules + more <==> r in rules + rest;
        }
    }
  }
}
