/** The per-run iteration of `Snmnmf.factorize` as a pure state machine: the
    multiplicative update as an ordering of oracle calls, one loop body with its
    evaluation-point caching, the state after k bodies, and the index at which the
    stopping rule first ends the loop. */
module Iteration {
  import opened Types
  import opened Stopping

  /** The loop variables of one run: the factors, p_obj, c_obj, the object's
      err_avg field and the iteration counter. */
  datatype LoopState = LoopState(f: Factors, pObj: real, cObj: real, errAvg: real, iter: nat)

  /** One update: W from the old H and H1; the H candidate and the new H1 both
      from the new W and the old H and H1; H replaced last. */
  function Step(o: Oracles, f: Factors): (g: Factors)
    // The basis is updated from the old coefficient matrices.
    ensures g.W == o.fW(f.W, f.H, f.H1)
    // Both coefficient matrices use the NEW basis and the OLD H and H1.
    ensures g.H == o.fH(g.W, f.H, f.H1) && g.H1 == o.fH1(g.W, f.H, f.H1)
  {
    var w := o.fW(f.W, f.H, f.H1);
    var hh1 := o.fH(w, f.H, f.H1);
    var h1 := o.fH1(w, f.H, f.H1);
    Factors(w, hh1, h1)
  }

  /** The factors after k updates. */
  function StepN(o: Oracles, f: Factors, k: nat): Factors
  {
    if k == 0 then f else Step(o, StepN(o, f, k - 1))
  }

  /** The state at the top of the first check: p_obj and c_obj both hold the
      objective of the seeded factors. */
  function Start(o: Oracles, f: Factors): (s: LoopState)
    // Iteration 0 with p_obj and c_obj both the seeded factors' objective, and
    // err_avg as that evaluation set it.
    ensures s.f == f && s.iter == 0
    ensures s.pObj == Evaluate(o, f).obj && s.cObj == Evaluate(o, f).obj && s.errAvg == Evaluate(o, f).errAvg
  {
    var e := Evaluate(o, f);
    LoopState(f, e.obj, e.obj, e.errAvg, 0)
  }

  /** One execution of the loop body. */
  function Body(o: Oracles, p: StopParams, s: LoopState): (t: LoopState)
    ensures t.iter == s.iter + 1 && t.f == Step(o, s.f)
    // Off an evaluation point nothing scalar changes: the cached values are carried over.
    ensures !IsEvaluationPoint(p, s.iter) ==> t.pObj == s.pObj && t.cObj == s.cObj && t.errAvg == s.errAvg
    // At an evaluation point p_obj takes the old c_obj and c_obj is that of the new factors.
    ensures IsEvaluationPoint(p, s.iter) ==>
              t.pObj == s.cObj && t.cObj == Evaluate(o, t.f).obj && t.errAvg == Evaluate(o, t.f).errAvg
  {
    var eval := IsEvaluationPoint(p, s.iter);
    var pObj := if eval then s.cObj else s.pObj;
    var g := Step(o, s.f);
    var e := Evaluate(o, g);
    var cObj := if eval then e.obj else s.cObj;
    var errAvg := if eval then e.errAvg else s.errAvg;
    LoopState(g, pObj, cObj, errAvg, s.iter + 1)
  }

  /** The state after k loop bodies, regardless of the stopping rule. */
  function Iterate(o: Oracles, p: StopParams, s: LoopState, k: nat): (t: LoopState)
    // The counter `iter` counts the bodies executed.
    ensures t.iter == s.iter + k
  {
    if k == 0 then s else Body(o, p, Iterate(o, p, s, k - 1))
  }

  predicate Continues(p: StopParams, s: LoopState)
  {
    IsSatisfied(p, s.errAvg, s.pObj, s.cObj, s.iter)
  }

  /** The loop started in s ends after exactly n bodies: every check before
      continues and the n-th one stops. */
  ghost predicate StopsAt(o: Oracles, p: StopParams, s: LoopState, n: nat)
    // The loop ends only at an evaluation point.
    ensures StopsAt(o, p, s, n) ==> IsEvaluationPoint(p, Iterate(o, p, s, n).iter)
  {
    && !Continues(p, Iterate(o, p, s, n))
    && forall j :: 0 <= j < n ==> Continues(p, Iterate(o, p, s, j))
  }

  /** The check that ends a loop is decided by one of the stopping rules of the
      table (convergence, budget, too small an improvement or a rise), and every
      earlier check by none of them. */
  lemma StopDecidedByRule(o: Oracles, p: StopParams, s: LoopState, n: nat, j: nat)
    requires StopsAt(o, p, s, n) && j <= n
    ensures var t := Iterate(o, p, s, j);
            var d := Deciding(p, t.errAvg, t.pObj, t.cObj, t.iter);
            (j == n <==> d.Some? && d.value != NotEvaluationPoint)
  {
    var t := Iterate(o, p, s, j);
    IsSatisfiedFollowsPriority(p, t.errAvg, t.pObj, t.cObj, t.iter);
  }

  /** An iteration number at which a check is an evaluation point and the budget
      is spent: max_iter rounded up to a multiple of test_conv. */
  function StopBound(p: StopParams): nat
  {
    if p.testConv == 0 then p.maxIter
    else ((p.maxIter + p.testConv - 1) / p.testConv) * p.testConv
  }

  lemma RoundUpIsMultiple(m: nat, t: nat)
    requires 0 < t
    ensures m <= ((m + t - 1) / t) * t
    ensures (((m + t - 1) / t) * t) % t == 0
  {
    var q := (m + t - 1) / t;
    assert m + t - 1 == q * t + (m + t - 1) % t;
    MultipleModulo(q, t);
  }

  lemma MultipleModulo(q: nat, t: nat)
    requires 0 < t
    ensures (q * t) % t == 0
  {
    DivUnique(q * t, t, q, 0);
    assert q * t == ((q * t) / t) * t + (q * t) % t;
  }

  /** With max_iter set, the check at StopBound(p) stops, whatever the scalars are. */
  lemma {:induction false} StopsAtBound(p: StopParams, errAvg: real, pObj: real, cObj: real)
    requires 0 < p.maxIter
    ensures p.maxIter <= StopBound(p)
    ensures !IsSatisfied(p, errAvg, pObj, cObj, StopBound(p))
  {
    if p.testConv != 0 {
      RoundUpIsMultiple(p.maxIter, p.testConv);
    }
  }

  /** The caching of objective values never disturbs the factors: after k bodies
      they are those of k plain updates. */
  lemma {:induction false} IterateFollowsUpdates(o: Oracles, p: StopParams, s: LoopState, k: nat)
    ensures Iterate(o, p, s, k).f == StepN(o, s.f, k)
  {
    if k > 0 {
      IterateFollowsUpdates(o, p, s, k - 1);
    }
  }

  /** A loop stops at one index only. */
  lemma StopIndexUnique(o: Oracles, p: StopParams, s: LoopState, n: nat, m: nat)
    requires StopsAt(o, p, s, n) && StopsAt(o, p, s, m)
    ensures n == m
  {
  }

  /** With max_iter set a loop started at iteration 0 ends by StopBound(p); with
      test_conv unset as well, after at most max_iter updates. */
  lemma StopsWithinBudget(o: Oracles, p: StopParams, s: LoopState, n: nat)
    requires 0 < p.maxIter && s.iter == 0
    requires StopsAt(o, p, s, n)
    ensures n <= StopBound(p)
    ensures p.testConv == 0 ==> n <= p.maxIter
  {
    var t := Iterate(o, p, s, StopBound(p));
    StopsAtBound(p, t.errAvg, t.pObj, t.cObj);
  }

  /** With test_conv unset every check sees the objective of the current factors. */
  lemma {:induction false} EvaluatedObjectiveIsCurrent(o: Oracles, p: StopParams, s: LoopState, k: nat)
    requires p.testConv == 0
    requires s.cObj == Evaluate(o, s.f).obj && s.errAvg == Evaluate(o, s.f).errAvg
    ensures Iterate(o, p, s, k).cObj == Evaluate(o, Iterate(o, p, s, k).f).obj
    ensures Iterate(o, p, s, k).errAvg == Evaluate(o, Iterate(o, p, s, k).f).errAvg
  {
    if k > 0 {
      EvaluatedObjectiveIsCurrent(o, p, s, k - 1);
    }
  }

  /** With test_conv unset, p_obj at check k is c_obj of check k - 1. */
  lemma PreviousObjective(o: Oracles, p: StopParams, s: LoopState, k: nat)
    requires p.testConv == 0 && 0 < k
    ensures Iterate(o, p, s, k).pObj == Iterate(o, p, s, k - 1).cObj
  {
  }

  /** With test_conv unset, a check after iteration 0 that lets the loop go on sees
      an objective no larger than the check before it. */
  lemma ContinuingCheckDoesNotRise(o: Oracles, p: StopParams, s: LoopState, k: nat)
    requires p.testConv == 0 && s.iter == 0 && 0 < k
    ensures Continues(p, Iterate(o, p, s, k)) ==> Iterate(o, p, s, k).cObj <= Iterate(o, p, s, k - 1).cObj
  {
    PreviousObjective(o, p, s, k);
  }

  /** With test_conv unset, the objectives seen by the checks that let the loop go
      on never increase. */
  lemma {:induction false} ObjectivesNonIncreasing(o: Oracles, p: StopParams, s: LoopState, n: nat, i: nat, j: nat)
    requires p.testConv == 0 && s.iter == 0
    requires forall k :: 0 <= k < n ==> Continues(p, Iterate(o, p, s, k))
    requires i <= j < n
    ensures Iterate(o, p, s, j).cObj <= Iterate(o, p, s, i).cObj
  {
    if i < j {
      ObjectivesNonIncreasing(o, p, s, n, i, j - 1);
      ContinuingCheckDoesNotRise(o, p, s, j);
    }
  }

  /** With test_conv unset a rise of the objective ends the run at that check. */
  lemma RiseEndsRun(o: Oracles, p: StopParams, s: LoopState, n: nat, j: nat)
    requires p.testConv == 0 && s.iter == 0
    requires StopsAt(o, p, s, n)
    requires 0 < j <= n
    requires Iterate(o, p, s, j - 1).cObj < Iterate(o, p, s, j).cObj
    ensures j == n
  {
    ContinuingCheckDoesNotRise(o, p, s, j);
  }

  /** The number of bodies after which the c_obj seen at check j (j >= 1) was
      computed: the body at iteration i evaluates when test_conv divides i, the
      checks after it then see the objective of i + 1 updates. */
  function LastEvaluated(p: StopParams, j: nat): (m: nat)
    requires 0 < j
    ensures 0 < m <= j
    ensures p.testConv == 0 ==> m == j
  {
    if p.testConv == 0 then j else ((j - 1) / p.testConv) * p.testConv + 1
  }

  lemma DivOfPredecessor(a: nat, t: nat)
    requires 0 < t && 0 < a && a % t != 0
    ensures (a - 1) / t == a / t
  {
    var q, r := a / t, a % t;
    assert a == q * t + r;
    assert a - 1 == q * t + (r - 1);
    DivUnique(a - 1, t, q, r - 1);
  }

  lemma DivUnique(a: nat, t: nat, q: nat, r: nat)
    requires 0 < t && r < t && a == q * t + r
    ensures a / t == q
  {
    var q', r' := a / t, a % t;
    assert a == q' * t + r';
    if q' < q {
      assert q' * t + t <= q * t by { MulMonotone(q' + 1, q, t); }
    } else if q < q' {
      assert q * t + t <= q' * t by { MulMonotone(q + 1, q', t); }
    }
  }

  lemma MulMonotone(a: nat, b: nat, t: nat)
    requires a <= b
    ensures a * t <= b * t
  {
  }

  /** How LastEvaluated moves from check j - 1 to check j: it jumps to j after an
      evaluating body and stays put otherwise. */
  lemma LastEvaluatedStep(p: StopParams, j: nat)
    requires 0 < j
    ensures IsEvaluationPoint(p, j - 1) ==> LastEvaluated(p, j) == j
    ensures !IsEvaluationPoint(p, j - 1) ==> 1 < j && LastEvaluated(p, j) == LastEvaluated(p, j - 1)
  {
    if p.testConv != 0 {
      var a, t := j - 1, p.testConv;
      assert a == (a / t) * t + a % t;
      if a % t != 0 {
        DivOfPredecessor(a, t);
      }
    }
  }

  /** With test_conv set, the objective and err_avg a check sees lag behind the
      factors: at check j they are those of the factors after LastEvaluated(p, j)
      updates. */
  lemma {:induction false} CheckedObjectiveLags(o: Oracles, p: StopParams, s: LoopState, j: nat)
    requires s.iter == 0 && 0 < j
    ensures Iterate(o, p, s, j).cObj == Evaluate(o, Iterate(o, p, s, LastEvaluated(p, j)).f).obj
    ensures Iterate(o, p, s, j).errAvg == Evaluate(o, Iterate(o, p, s, LastEvaluated(p, j)).f).errAvg
  {
    LastEvaluatedStep(p, j);
    if !IsEvaluationPoint(p, j - 1) {
      CheckedObjectiveLags(o, p, s, j - 1);
    }
  }
}
