/** The stopping rule `Snmnmf.is_satisfied`: a decision over scalars whose rules are
    tried in a fixed priority order, the first that applies deciding. */
module Stopping {
  import opened Types

  /** An `err_avg` below this value counts as converged. */
  const ConvergenceTolerance: real := 0.00001

  /** The inherited stopping options. As in the source, where an unset option is
      None or 0 and both are falsy, the value 0 stands for "not set". */
  datatype StopParams = StopParams(maxIter: nat, minResiduals: real, testConv: nat)

  /** An iteration at which the objective is evaluated: test_conv is unset or
      divides the iteration number. */
  predicate IsEvaluationPoint(p: StopParams, iter: nat)
  {
    p.testConv == 0 || iter % p.testConv == 0
  }

  /** True means "continue iterating". */
  function IsSatisfied(p: StopParams, errAvg: real, pObj: real, cObj: real, iter: nat): (r: bool)
    // Between evaluation points the loop goes on, whatever the scalars are.
    ensures !IsEvaluationPoint(p, iter) ==> r
    // At an evaluation point convergence stops the loop before any other rule is consulted.
    ensures IsEvaluationPoint(p, iter) && errAvg < ConvergenceTolerance ==> !r
    // At iteration 0 only err_avg decides: neither the residual nor the regression rule can stop.
    ensures iter == 0 ==> (r <==> ConvergenceTolerance <= errAvg)
    // Continuing at an evaluation point means: not converged, budget left, enough
    // improvement and no rise of the objective; and conversely.
    ensures r && IsEvaluationPoint(p, iter) ==>
              ConvergenceTolerance <= errAvg && (p.maxIter == 0 || iter < p.maxIter)
    ensures r && IsEvaluationPoint(p, iter) && 0 < iter ==>
              cObj <= pObj && (p.minResiduals == 0.0 || p.minResiduals <= pObj - cObj)
    ensures IsEvaluationPoint(p, iter) && ConvergenceTolerance <= errAvg &&
            (p.maxIter == 0 || iter < p.maxIter) &&
            (0 < iter ==> cObj <= pObj && (p.minResiduals == 0.0 || p.minResiduals <= pObj - cObj))
            ==> r
  {
    if p.testConv != 0 && iter % p.testConv != 0 then true
    else if errAvg < ConvergenceTolerance then false
    else if p.maxIter != 0 && p.maxIter <= iter then false
    else if p.minResiduals != 0.0 && iter > 0 && pObj - cObj < p.minResiduals then false
    else if iter > 0 && cObj > pObj then false
    else true
  }

  /** The rules of the stopping decision, each stated on its own, without the
      guards of the rules before it. */
  datatype Rule = NotEvaluationPoint | Converged | BudgetExhausted | ImprovementTooSmall | ObjectiveRose

  /** The order in which the rules are tried. */
  const Priority: seq<Rule> :=
    [NotEvaluationPoint, Converged, BudgetExhausted, ImprovementTooSmall, ObjectiveRose]

  predicate Applies(rule: Rule, p: StopParams, errAvg: real, pObj: real, cObj: real, iter: nat)
  {
    match rule
    case NotEvaluationPoint => !IsEvaluationPoint(p, iter)
    case Converged => errAvg < ConvergenceTolerance
    case BudgetExhausted => p.maxIter != 0 && p.maxIter <= iter
    case ImprovementTooSmall => p.minResiduals != 0.0 && 0 < iter && pObj - cObj < p.minResiduals
    case ObjectiveRose => 0 < iter && pObj < cObj
  }

  /** The first rule of `rules` that applies, if any. */
  function FirstApplying(rules: seq<Rule>, p: StopParams, errAvg: real, pObj: real, cObj: real, iter: nat): (m: Option<Rule>)
    ensures m.Some? ==> m.value in rules && Applies(m.value, p, errAvg, pObj, cObj, iter)
    // The rule found is the first that applies: none before it does.
    ensures m.Some? ==> exists i :: 0 <= i < |rules| && rules[i] == m.value &&
                          forall k :: 0 <= k < i ==> !Applies(rules[k], p, errAvg, pObj, cObj, iter)
    ensures m.None? <==> forall rule :: rule in rules ==> !Applies(rule, p, errAvg, pObj, cObj, iter)
  {
    if rules == [] then None
    else if Applies(rules[0], p, errAvg, pObj, cObj, iter) then Some(rules[0])
    else FirstApplying(rules[1..], p, errAvg, pObj, cObj, iter)
  }

  lemma FirstApplyingCons(rule: Rule, rest: seq<Rule>, p: StopParams, errAvg: real, pObj: real, cObj: real, iter: nat)
    ensures FirstApplying([rule] + rest, p, errAvg, pObj, cObj, iter) ==
            if Applies(rule, p, errAvg, pObj, cObj, iter) then Some(rule)
            else FirstApplying(rest, p, errAvg, pObj, cObj, iter)
  {
    assert ([rule] + rest)[1..] == rest;
  }

  /** The rule that decides a check, None when the default "continue" is reached. */
  function Deciding(p: StopParams, errAvg: real, pObj: real, cObj: real, iter: nat): Option<Rule>
  {
    FirstApplying(Priority, p, errAvg, pObj, cObj, iter)
  }

  /** `is_satisfied` is the first-match-wins reading of the rule table: the loop
      continues exactly when no rule applies or the deciding rule is the
      non-evaluation one; and a check that stops names the rule that stopped it. */
  lemma {:induction false} IsSatisfiedFollowsPriority(p: StopParams, errAvg: real, pObj: real, cObj: real, iter: nat)
    ensures IsSatisfied(p, errAvg, pObj, cObj, iter) <==>
            (Deciding(p, errAvg, pObj, cObj, iter).None? ||
             Deciding(p, errAvg, pObj, cObj, iter) == Some(NotEvaluationPoint))
  {
    var rest := [Converged, BudgetExhausted, ImprovementTooSmall, ObjectiveRose];
    assert Priority == [NotEvaluationPoint] + rest;
    FirstApplyingCons(NotEvaluationPoint, rest, p, errAvg, pObj, cObj, iter);
    FirstApplyingCons(Converged, rest[1..], p, errAvg, pObj, cObj, iter);
    FirstApplyingCons(BudgetExhausted, rest[2..], p, errAvg, pObj, cObj, iter);
    FirstApplyingCons(ImprovementTooSmall, rest[3..], p, errAvg, pObj, cObj, iter);
    FirstApplyingCons(ObjectiveRose, [], p, errAvg, pObj, cObj, iter);
  }
}
