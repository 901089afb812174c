/** The `Snmnmf` model object: its factor fields, the objective call that also
    sets `err_avg`, the in-place multiplicative update, and `factorize`, the
    multi-run driver with its shape check, seeding, iteration loop, callback and
    tracking hooks, and best-run selection. */
module Factorization {
  import opened Types
  import opened Stopping
  import opened Iteration
  import opened Selection

  /** The options `factorize` reads: rank, number of runs, stopping parameters
      and whether a callback, error tracking or factor tracking is configured. */
  datatype Config = Config(
    rank: nat, nRun: nat, stop: StopParams,
    callback: bool, trackError: bool, trackFactor: bool)

  /** The calls made to the external collaborators, in order. */
  datatype Event =
    | Seeded(run: nat, idx: nat)
    | ErrorTracked(value: real, run: nat)
    | CalledBack(fit: Fit)
    | FactorsTracked(fit: Fit)

  /** The factors a run starts from: W and H seeded from V with idx 0, H1 the
      coefficients of a seeding of V1 with idx 1, whose basis is discarded. */
  function SeedRun(o: Oracles, cfg: Config, V: Matrix, V1: Matrix, run: nat): (f: Factors)
    ensures f.W == o.seed(V, cfg.rank, 0, run).0 && f.H == o.seed(V, cfg.rank, 0, run).1
    ensures f.H1 == o.seed(V1, cfg.rank, 1, run).1
  {
    var (w, h) := o.seed(V, cfg.rank, 0, run);
    var (_, h1) := o.seed(V1, cfg.rank, 1, run);
    Factors(w, h, h1)
  }

  /** `out` is what run `run` leaves: the loop from the seeded factors stops after
      out.nIter updates, with out's factors, c_obj and err_avg. */
  ghost predicate RunSpec(o: Oracles, cfg: Config, V: Matrix, V1: Matrix, run: nat, out: RunOutcome)
  {
    var s0 := Start(o, SeedRun(o, cfg, V, V1, run));
    var t := Iterate(o, cfg.stop, s0, out.nIter);
    && StopsAt(o, cfg.stop, s0, out.nIter)
    && out.f == t.f && out.obj == t.cObj && out.errAvg == t.errAvg
  }

  /** The error-tracking calls of the first n loop bodies: each records the c_obj
      at the end of its body. */
  ghost function ErrorEvents(o: Oracles, p: StopParams, s0: LoopState, n: nat, run: nat): seq<Event>
  {
    if n == 0 then [] else ErrorEvents(o, p, s0, n - 1, run) + [ErrorTracked(Iterate(o, p, s0, n).cObj, run)]
  }

  /** The n_iter field while the runs `prev` are finished: the kept run's, or the
      value before `factorize` if no run has finished. */
  function NIterAfter(prev: seq<RunOutcome>, nIter0: nat): nat
  {
    if prev == [] then nIter0 else prev[KeptIndex(Objectives(prev))].nIter
  }

  /** The collaborator calls of one run. */
  ghost function RunEvents(o: Oracles, cfg: Config, V: Matrix, V1: Matrix, run: nat, out: RunOutcome, nIterBefore: nat): seq<Event>
  {
    [Seeded(run, 0), Seeded(run, 1)]
    + (if cfg.trackError then ErrorEvents(o, cfg.stop, Start(o, SeedRun(o, cfg, V, V1, run)), out.nIter, run) else [])
    + (if cfg.callback then [CalledBack(Snapshot(out, nIterBefore))] else [])
    + (if cfg.trackFactor then [FactorsTracked(Snapshot(out, out.nIter))] else [])
  }

  /** The collaborator calls of the runs `outs`, in run order. */
  ghost function Events(o: Oracles, cfg: Config, V: Matrix, V1: Matrix, outs: seq<RunOutcome>, nIter0: nat): seq<Event>
  {
    if outs == [] then []
    else
      var prev := outs[..|outs| - 1];
      Events(o, cfg, V, V1, prev, nIter0)
      + RunEvents(o, cfg, V, V1, |outs| - 1, outs[|outs| - 1], NIterAfter(prev, nIter0))
  }

  lemma EventsAppend(o: Oracles, cfg: Config, V: Matrix, V1: Matrix, outs: seq<RunOutcome>, x: RunOutcome, nIter0: nat)
    ensures Events(o, cfg, V, V1, outs + [x], nIter0) ==
            Events(o, cfg, V, V1, outs, nIter0) + RunEvents(o, cfg, V, V1, |outs|, x, NIterAfter(outs, nIter0))
  {
    assert (outs + [x])[..|outs|] == outs;
  }

  lemma RunSpecsAppend(o: Oracles, cfg: Config, V: Matrix, V1: Matrix, outs: seq<RunOutcome>, x: RunOutcome)
    requires forall k :: 0 <= k < |outs| ==> RunSpec(o, cfg, V, V1, k, outs[k])
    requires RunSpec(o, cfg, V, V1, |outs|, x)
    ensures forall k :: 0 <= k < |outs| + 1 ==> RunSpec(o, cfg, V, V1, k, (outs + [x])[k])
  {
    forall k | 0 <= k < |outs| + 1
      ensures RunSpec(o, cfg, V, V1, k, (outs + [x])[k])
    {
      if k < |outs| {
        assert (outs + [x])[k] == outs[k];
      }
    }
  }

  /** The selection variables of `factorize` once the runs `outs` are finished:
      `mffit`, `best_obj` and the n_iter and final_obj fields, given n_iter's
      value nIter0 before the first run. */
  ghost predicate Retained(outs: seq<RunOutcome>, callback: bool, nIter0: nat,
                           mffit: Option<Fit>, bestObj: real, nIter: nat, finalObj: real)
  {
    if outs == [] then mffit == None && nIter == nIter0
    else
      var kept := outs[KeptIndex(Objectives(outs))];
      var last := outs[|outs| - 1];
      && mffit == Some(ReturnedSnapshot(outs, callback))
      && bestObj == kept.obj && nIter == kept.nIter
      && finalObj == (if callback then last.obj else kept.obj)
  }

  /** One more finished run x updates the selection variables as lines 95-107 do:
      the callback overwrites final_obj and mffit, and the run is kept when it is
      the first or its objective is at most the best so far. */
  lemma RetainedAppend(outs: seq<RunOutcome>, x: RunOutcome, callback: bool, nIter0: nat,
                       mffit: Option<Fit>, bestObj: real, nIter: nat, finalObj: real)
    requires Retained(outs, callback, nIter0, mffit, bestObj, nIter, finalObj)
    ensures nIter == NIterAfter(outs, nIter0)
    ensures var kept := x.obj <= bestObj || |outs| == 0;
            Retained(outs + [x], callback, nIter0,
                     if kept then Some(Snapshot(x, x.nIter))
                     else if callback then Some(Snapshot(x, nIter)) else mffit,
                     if kept then x.obj else bestObj,
                     if kept then x.nIter else nIter,
                     if kept || callback then x.obj else finalObj)
  {
    if outs == [] {
      assert Objectives([x]) == [x.obj];
    } else {
      KeptIndexAppend(outs, x);
    }
  }

  /** A run with max_iter set applies at most StopBound updates; with test_conv
      unset as well, at most max_iter. */
  lemma RunsWithinBudget(o: Oracles, cfg: Config, V: Matrix, V1: Matrix, outs: seq<RunOutcome>, run: nat)
    requires 0 < cfg.stop.maxIter && run < |outs|
    requires forall k :: 0 <= k < |outs| ==> RunSpec(o, cfg, V, V1, k, outs[k])
    ensures outs[run].nIter <= StopBound(cfg.stop)
    ensures cfg.stop.testConv == 0 ==> outs[run].nIter <= cfg.stop.maxIter
  {
    assert RunSpec(o, cfg, V, V1, run, outs[run]);
    StopsWithinBudget(o, cfg.stop, Start(o, SeedRun(o, cfg, V, V1, run)), outs[run].nIter);
  }

  /** What the selection variables hold once at least one run has finished. */
  lemma RetainedResult(outs: seq<RunOutcome>, callback: bool, nIter0: nat,
                       mffit: Option<Fit>, bestObj: real, nIter: nat, finalObj: real)
    requires 0 < |outs|
    requires Retained(outs, callback, nIter0, mffit, bestObj, nIter, finalObj)
    ensures mffit.Some? && mffit.value == ReturnedSnapshot(outs, callback)
    ensures !callback ==> mffit.value == KeptSnapshot(outs)
    ensures nIter == outs[KeptIndex(Objectives(outs))].nIter
    ensures finalObj == if callback then outs[|outs| - 1].obj else outs[KeptIndex(Objectives(outs))].obj
    ensures mffit.value.nIter == outs[KeptIndex(Objectives(outs))].nIter
    ensures !callback ==> forall j :: 0 <= j < |outs| ==> finalObj <= outs[j].obj
  {
  }

  /** The log after one more run is the log of all runs so far. */
  lemma RunLog(o: Oracles, cfg: Config, V: Matrix, V1: Matrix, outcomes: seq<RunOutcome>, out: RunOutcome,
               nIter0: nat, log0: seq<Event>, logStart: seq<Event>, logEnd: seq<Event>)
    requires logStart == log0 + Events(o, cfg, V, V1, outcomes, nIter0)
    requires logEnd ==
               ((logStart + [Seeded(|outcomes|, 0), Seeded(|outcomes|, 1)]
                 + (if cfg.trackError
                    then ErrorEvents(o, cfg.stop, Start(o, SeedRun(o, cfg, V, V1, |outcomes|)), out.nIter, |outcomes|)
                    else []))
                + (if cfg.callback then [CalledBack(Snapshot(out, NIterAfter(outcomes, nIter0)))] else []))
               + (if cfg.trackFactor then [FactorsTracked(Snapshot(out, out.nIter))] else [])
    ensures logEnd == log0 + Events(o, cfg, V, V1, outcomes + [out], nIter0)
  {
    var run := |outcomes|;
    var errs := if cfg.trackError then ErrorEvents(o, cfg.stop, Start(o, SeedRun(o, cfg, V, V1, run)), out.nIter, run) else [];
    var calls := if cfg.callback then [CalledBack(Snapshot(out, NIterAfter(outcomes, nIter0)))] else [];
    var tracks := if cfg.trackFactor then [FactorsTracked(Snapshot(out, out.nIter))] else [];
    var runEvents := RunEvents(o, cfg, V, V1, run, out, NIterAfter(outcomes, nIter0));
    var earlier := Events(o, cfg, V, V1, outcomes, nIter0);
    assert runEvents == (([Seeded(run, 0), Seeded(run, 1)] + errs) + calls) + tracks;
    SeqAssoc(logStart, [Seeded(run, 0), Seeded(run, 1)], errs, calls, tracks);
    assert logEnd == logStart + runEvents;
    Assoc(log0, earlier, runEvents);
    EventsAppend(o, cfg, V, V1, outcomes, out, nIter0);
  }

  /** The conclusion of one run, lines 95-107, carried from one run to the next at
      the level of the selection variables and of the log. */
  lemma ConcludeStep(o: Oracles, cfg: Config, V: Matrix, V1: Matrix, outcomes: seq<RunOutcome>, out: RunOutcome,
                     nIter0: nat, log0: seq<Event>, logMid: seq<Event>, logEnd: seq<Event>,
                     mffit: Option<Fit>, bestObj: real, nIter: nat, finalObj: real,
                     fit: Option<Fit>, best: real, nIter': nat, finalObj': real)
    requires Retained(outcomes, cfg.callback, nIter0, mffit, bestObj, nIter, finalObj)
    requires logMid == (log0 + Events(o, cfg, V, V1, outcomes, nIter0)) + [Seeded(|outcomes|, 0), Seeded(|outcomes|, 1)]
                       + (if cfg.trackError
                          then ErrorEvents(o, cfg.stop, Start(o, SeedRun(o, cfg, V, V1, |outcomes|)), out.nIter, |outcomes|)
                          else [])
    requires var kept := out.obj <= bestObj || |outcomes| == 0;
             && best == (if kept then out.obj else bestObj)
             && nIter' == (if kept then out.nIter else nIter)
             && finalObj' == (if kept || cfg.callback then out.obj else finalObj)
             && fit == (if kept then Some(Snapshot(out, out.nIter))
                        else if cfg.callback then Some(Snapshot(out, nIter))
                        else mffit)
             && logEnd == logMid
                          + (if cfg.callback then [CalledBack(Snapshot(out, nIter))] else [])
                          + (if cfg.trackFactor then [FactorsTracked(Snapshot(out, out.nIter))] else [])
    ensures Retained(outcomes + [out], cfg.callback, nIter0, fit, best, nIter', finalObj')
    ensures logEnd == log0 + Events(o, cfg, V, V1, outcomes + [out], nIter0)
  {
    RetainedAppend(outcomes, out, cfg.callback, nIter0, mffit, bestObj, nIter, finalObj);
    RunLog(o, cfg, V, V1, outcomes, out, nIter0, log0, log0 + Events(o, cfg, V, V1, outcomes, nIter0), logEnd);
  }

  lemma Assoc<T>(a: seq<T>, b: seq<T>, c: seq<T>)
    ensures (a + b) + c == a + (b + c)
  {
  }

  lemma SeqAssoc<T>(a: seq<T>, b: seq<T>, c: seq<T>, d: seq<T>, e: seq<T>)
    ensures a + ((((b + c) + d) + e)) == (((a + b) + c) + d) + e
  {
  }

  class Snmnmf {
    const V: Matrix
    const V1: Matrix
    const cfg: Config
    const o: Oracles
    var W: Matrix
    var H: Matrix
    var H1: Matrix
    var errAvg: real
    var nIter: nat
    var finalObj: real
    ghost var log: seq<Event>

    constructor (V: Matrix, V1: Matrix, cfg: Config, o: Oracles)
      ensures this.V == V && this.V1 == V1 && this.cfg == cfg && this.o == o
      ensures nIter == 0 && log == []
    {
      this.V, this.V1, this.cfg, this.o := V, V1, cfg, o;
      W, H, H1 := [], [], [];
      errAvg, nIter, finalObj := 0.0, 0, 0.0;
      log := [];
    }

    function Current(): Factors
      reads this
    {
      Factors(W, H, H1)
    }

    /** What `mf_fit.Mf_fit(self)` captures. */
    function Fitted(): Fit
      reads this
    {
      Fit(W, H, H1, finalObj, nIter)
    }

    /** The objective of the current factors; sets err_avg as a side effect. */
    method Objective() returns (obj: real)
      modifies this`errAvg
      ensures obj == Evaluate(o, Current()).obj
      ensures errAvg == Evaluate(o, Current()).errAvg
    {
      var e := o.objective(W, H, H1);
      errAvg := e.errAvg;
      obj := e.obj;
    }

    /** One multiplicative update in the source's order. */
    method Update(iter: nat)
      modifies this`W, this`H, this`H1
      // The basis is recomputed from the old factors and not touched afterwards.
      ensures W == o.fW(old(W), old(H), old(H1))
      // Both coefficient matrices come from the new W and the OLD H and H1.
      ensures H1 == o.fH1(W, old(H), old(H1))
      ensures H == o.fH(W, old(H), old(H1))
      ensures Current() == Step(o, old(Current()))
    {
      W := o.fW(W, H, H1);
      var hh1 := o.fH(W, H, H1);
      H1 := o.fH1(W, H, H1);
      H := hh1;
    }

    /** The seeding at the top of a run. */
    method SeedFactors(run: nat)
      modifies this`W, this`H, this`H1, this`log
      ensures Current() == SeedRun(o, cfg, V, V1, run)
      ensures log == old(log) + [Seeded(run, 0), Seeded(run, 1)]
    {
      log := log + [Seeded(run, 0)];
      var (w, h) := o.seed(V, cfg.rank, 0, run);
      W, H := w, h;
      log := log + [Seeded(run, 1)];
      var (_, h1) := o.seed(V1, cfg.rank, 1, run);
      H1 := h1;
    }

    /** The loop body without its tracking call: p_obj and c_obj are refreshed
        around the update at an evaluation point and carried over otherwise. */
    method Advance(iter: nat, pObj: real, cObj: real) returns (pObj': real, cObj': real)
      modifies this`W, this`H, this`H1, this`errAvg
      ensures LoopState(Current(), pObj', cObj', errAvg, iter + 1)
              == Body(o, cfg.stop, LoopState(old(Current()), pObj, cObj, old(errAvg), iter))
    {
      pObj' := if IsEvaluationPoint(cfg.stop, iter) then cObj else pObj;
      Update(iter);
      cObj' := cObj;
      if IsEvaluationPoint(cfg.stop, iter) {
        cObj' := Objective();
      }
    }

    /** The `while self.is_satisfied(...)` loop of one run, from p_obj = pObj0 and
      c_obj = cObj0 at iteration 0. With max_iter unset the loop need not end;
      there it gives up after `fuel` updates and reports `exhausted`. */
    method Converge(run: nat, pObj0: real, cObj0: real, fuel: nat)
      returns (pObj: real, cObj: real, iter: nat, exhausted: bool)
      modifies this`W, this`H, this`H1, this`errAvg, this`log
      ensures var s0 := LoopState(old(Current()), pObj0, cObj0, old(errAvg), 0);
              && LoopState(Current(), pObj, cObj, errAvg, iter) == Iterate(o, cfg.stop, s0, iter)
              && (forall j :: 0 <= j < iter ==> Continues(cfg.stop, Iterate(o, cfg.stop, s0, j)))
              && (exhausted <==> Continues(cfg.stop, Iterate(o, cfg.stop, s0, iter)))
              && (exhausted ==> cfg.stop.maxIter == 0 && iter == fuel)
              && log == old(log) + (if cfg.trackError then ErrorEvents(o, cfg.stop, s0, iter, run) else [])
    {
      ghost var s0 := LoopState(Current(), pObj0, cObj0, errAvg, 0);
      pObj, cObj, iter := pObj0, cObj0, 0;
      while IsSatisfied(cfg.stop, errAvg, pObj, cObj, iter) && (0 < cfg.stop.maxIter || iter < fuel)
        invariant LoopState(Current(), pObj, cObj, errAvg, iter) == Iterate(o, cfg.stop, s0, iter)
        invariant forall j :: 0 <= j < iter ==> Continues(cfg.stop, Iterate(o, cfg.stop, s0, j))
        invariant 0 < cfg.stop.maxIter ==> iter <= StopBound(cfg.stop)
        invariant cfg.stop.maxIter == 0 ==> iter <= fuel
        invariant log == old(log) + (if cfg.trackError then ErrorEvents(o, cfg.stop, s0, iter, run) else [])
        decreases (if 0 < cfg.stop.maxIter then StopBound(cfg.stop) else fuel) - iter
      {
        if 0 < cfg.stop.maxIter {
          StopsAtBound(cfg.stop, errAvg, pObj, cObj);
        }
        pObj, cObj := Advance(iter, pObj, cObj);
        iter := iter + 1;
        if cfg.trackError {
          Assoc(old(log), ErrorEvents(o, cfg.stop, s0, iter - 1, run), [ErrorTracked(cObj, run)]);
          log := log + [ErrorTracked(cObj, run)];
        }
      }
      exhausted := IsSatisfied(cfg.stop, errAvg, pObj, cObj, iter);
    }

    /** One run up to the end of its loop: seeding, the initial objective (also
        returned as c0) and the iteration. Unless the fuel ran out, `out` is what
        the run leaves, as RunSpec describes it. */
    method RunOnce(run: nat, fuel: nat) returns (c0: real, cObj: real, iter: nat, exhausted: bool, ghost out: RunOutcome)
      modifies this`W, this`H, this`H1, this`errAvg, this`log
      ensures out == RunOutcome(Current(), cObj, errAvg, iter)
      ensures exhausted ==> cfg.stop.maxIter == 0
      ensures !exhausted ==> RunSpec(o, cfg, V, V1, run, out)
      ensures !exhausted ==>
                log == old(log) + [Seeded(run, 0), Seeded(run, 1)]
                       + (if cfg.trackError then ErrorEvents(o, cfg.stop, Start(o, SeedRun(o, cfg, V, V1, run)), iter, run) else [])
    {
      SeedFactors(run);
      c0 := Objective();
      var pObj;
      pObj, cObj, iter, exhausted := Converge(run, c0, c0, fuel);
      out := RunOutcome(Current(), cObj, errAvg, iter);
    }

    /** The end of a run: the callback with a snapshot, factor tracking, and the
        comparison against the best objective so far. The run is kept when its
        c_obj is at most the best or it is run 0. */
    method Conclude(run: nat, cObj: real, iter: nat, bestObj: real, mffit: Option<Fit>, ghost out: RunOutcome)
      returns (best: real, fit: Option<Fit>)
      requires out == RunOutcome(Current(), cObj, errAvg, iter)
      modifies this`finalObj, this`nIter, this`log
      ensures var kept := cObj <= bestObj || run == 0;
              && best == (if kept then cObj else bestObj)
              && nIter == (if kept then iter else old(nIter))
              && finalObj == (if kept || cfg.callback then cObj else old(finalObj))
              && fit == (if kept then Some(Snapshot(out, iter))
                         else if cfg.callback then Some(Snapshot(out, old(nIter)))
                         else mffit)
              && log == old(log)
                        + (if cfg.callback then [CalledBack(Snapshot(out, old(nIter)))] else [])
                        + (if cfg.trackFactor then [FactorsTracked(Snapshot(out, iter))] else [])
    {
      best, fit := bestObj, mffit;
      if cfg.callback {
        finalObj := cObj;
        fit := Some(Fitted());
        log := log + [CalledBack(Fitted())];
      }
      if cfg.trackFactor {
        log := log + [FactorsTracked(Fit(W, H, H1, cObj, iter))];
      }
      if cObj <= best || run == 0 {
        best := cObj;
        nIter := iter;
        finalObj := cObj;
        fit := Some(Fitted());
      }
    }

    /** One iteration of the `for run` loop: the run itself and then its
        conclusion, stated as the effect on the selection variables and on the
        log of collaborator calls. */
    method RunAndSelect(run: nat, fuel: nat, ghost nIter0: nat, ghost log0: seq<Event>,
                        ghost outcomes: seq<RunOutcome>, bestObj: real, mffit: Option<Fit>)
      returns (exhausted: bool, best: real, fit: Option<Fit>, ghost out: RunOutcome)
      requires |outcomes| == run
      requires Retained(outcomes, cfg.callback, nIter0, mffit, bestObj, nIter, finalObj)
      requires log == log0 + Events(o, cfg, V, V1, outcomes, nIter0)
      modifies this`W, this`H, this`H1, this`errAvg, this`log, this`finalObj, this`nIter
      ensures exhausted ==> cfg.stop.maxIter == 0
      ensures !exhausted ==>
                && RunSpec(o, cfg, V, V1, run, out)
                && Retained(outcomes + [out], cfg.callback, nIter0, fit, best, nIter, finalObj)
                && Current() == out.f && errAvg == out.errAvg
                && log == log0 + Events(o, cfg, V, V1, outcomes + [out], nIter0)
    {
      best, fit := bestObj, mffit;
      var c0, cObj, iter;
      c0, cObj, iter, exhausted, out := RunOnce(run, fuel);
      if run == 0 {
        best := c0;
      }
      if exhausted {
        return;
      }
      ghost var logMid := log;
      best, fit := Conclude(run, cObj, iter, best, fit, out);
      ConcludeStep(o, cfg, V, V1, outcomes, out, nIter0, log0, logMid, log,
                   mffit, bestObj, old(nIter), old(finalObj), fit, best, nIter, finalObj);
    }

    /** The `for run` loop of `factorize`, lines 79-107, from a first run to the
        last or to a run that exhausts the fuel. */
    method RunAll(fuel: nat) returns (exhausted: bool, bestObj: real, mffit: Option<Fit>, ghost outcomes: seq<RunOutcome>)
      modifies this`W, this`H, this`H1, this`errAvg, this`log, this`finalObj, this`nIter
      ensures exhausted ==> cfg.stop.maxIter == 0
      ensures cfg.nRun == 0 ==> !exhausted && outcomes == [] && unchanged(this)
      ensures !exhausted ==>
                && |outcomes| == cfg.nRun
                && (forall run :: 0 <= run < cfg.nRun ==> RunSpec(o, cfg, V, V1, run, outcomes[run]))
                && Retained(outcomes, cfg.callback, old(nIter), mffit, bestObj, nIter, finalObj)
                && (0 < cfg.nRun ==> Current() == outcomes[cfg.nRun - 1].f && errAvg == outcomes[cfg.nRun - 1].errAvg)
                && log == old(log) + Events(o, cfg, V, V1, outcomes, old(nIter))
    {
      outcomes := [];
      mffit := None;
      bestObj := 0.0;
      exhausted := false;
      var run: nat := 0;
      while run < cfg.nRun
        invariant run <= cfg.nRun && |outcomes| == run
        invariant forall k :: 0 <= k < run ==> RunSpec(o, cfg, V, V1, k, outcomes[k])
        invariant run == 0 ==> unchanged(this)
        invariant Retained(outcomes, cfg.callback, old(nIter), mffit, bestObj, nIter, finalObj)
        invariant 0 < run ==> Current() == outcomes[run - 1].f && errAvg == outcomes[run - 1].errAvg
        invariant log == old(log) + Events(o, cfg, V, V1, outcomes, old(nIter))
      {
        ghost var out;
        exhausted, bestObj, mffit, out := RunAndSelect(run, fuel, old(nIter), old(log), outcomes, bestObj, mffit);
        if exhausted {
          return;
        }
        RunSpecsAppend(o, cfg, V, V1, outcomes, out);
        outcomes := outcomes + [out];
        run := run + 1;
      }
    }

    /** `factorize`. `outcomes` names, per run, what that run left behind. */
    method Factorize(fuel: nat) returns (r: Result<Fit, Error>, ghost outcomes: seq<RunOutcome>)
      modifies this
      // Mismatched row counts fail before anything is seeded or changed.
      ensures Rows(V) != Rows(V1) ==> r == Err(ShapeMismatch) && unchanged(this)
      // No run: `return mffit` finds the local unbound.
      ensures Rows(V) == Rows(V1) && cfg.nRun == 0 ==> r == Err(NoRuns) && unchanged(this)
      // Only a loop without max_iter can exceed the model's fuel.
      ensures r == Err(OutOfFuel) ==> cfg.stop.maxIter == 0
      ensures Rows(V) == Rows(V1) && 0 < cfg.nRun && 0 < cfg.stop.maxIter ==> r.Ok?
      ensures r.Ok? ==>
                && Rows(V) == Rows(V1) && 0 < cfg.nRun && |outcomes| == cfg.nRun
                && (forall run :: 0 <= run < cfg.nRun ==> RunSpec(o, cfg, V, V1, run, outcomes[run]))
                && r.value == ReturnedSnapshot(outcomes, cfg.callback)
                && (!cfg.callback ==> r.value == KeptSnapshot(outcomes))
      // Without a callback the stored final_obj is the least final objective of all runs.
      ensures r.Ok? && !cfg.callback ==> forall run :: 0 <= run < cfg.nRun ==> finalObj <= outcomes[run].obj
      // With max_iter set and test_conv unset, the reported n_iter is within max_iter.
      ensures r.Ok? && 0 < cfg.stop.maxIter && cfg.stop.testConv == 0 ==> r.value.nIter <= cfg.stop.maxIter
      // The fields: the last run's factors and err_avg, the kept run's n_iter, and
      // the kept run's objective unless a callback overwrote it with the last one.
      ensures r.Ok? ==>
                var kept := outcomes[KeptIndex(Objectives(outcomes))];
                var last := outcomes[cfg.nRun - 1];
                && Current() == last.f && errAvg == last.errAvg && nIter == kept.nIter
                && finalObj == (if cfg.callback then last.obj else kept.obj)
                && log == old(log) + Events(o, cfg, V, V1, outcomes, old(nIter))
    {
      outcomes := [];
      if Rows(V) != Rows(V1) {
        return Err(ShapeMismatch), outcomes;
      }
      var exhausted, bestObj, mffit;
      exhausted, bestObj, mffit, outcomes := RunAll(fuel);
      if exhausted {
        return Err(OutOfFuel), outcomes;
      }
      if mffit.None? {
        return Err(NoRuns), outcomes;
      }
      RetainedResult(outcomes, cfg.callback, old(nIter), mffit, bestObj, nIter, finalObj);
      if 0 < cfg.stop.maxIter {
        RunsWithinBudget(o, cfg, V, V1, outcomes, KeptIndex(Objectives(outcomes)));
      }
      return Ok(mffit.value), outcomes;
    }
  }
}
