/** Choosing among the runs of `Snmnmf.factorize`: what each run leaves behind,
    which run the lowest-objective rule keeps, and which snapshot the method hands
    back with and without a callback configured. */
module Selection {
  import opened Types

  /** What one finished run leaves: its final factors, its last c_obj, the
      err_avg field and the number of updates applied. */
  datatype RunOutcome = RunOutcome(f: Factors, obj: real, errAvg: real, nIter: nat)

  /** The fitted-model snapshot, taken as a copy of (W, H, H1, final_obj, n_iter). */
  datatype Fit = Fit(W: Matrix, H: Matrix, H1: Matrix, finalObj: real, nIter: nat)

  function Snapshot(out: RunOutcome, nIter: nat): Fit
  {
    Fit(out.f.W, out.f.H, out.f.H1, out.obj, nIter)
  }

  function Objectives(outs: seq<RunOutcome>): (objs: seq<real>)
    ensures |objs| == |outs|
    ensures forall r :: 0 <= r < |outs| ==> objs[r] == outs[r].obj
  {
    seq(|outs|, r requires 0 <= r < |outs| => outs[r].obj)
  }

  /** The run kept by the source's fold over the final objectives: run 0 is taken
      first, and a later run replaces the kept one when its objective is at most
      the best so far. The result is the LAST run reaching the minimum. */
  function KeptIndex(objs: seq<real>): (k: nat)
    requires 0 < |objs|
    ensures k < |objs|
    ensures forall j :: 0 <= j < |objs| ==> objs[k] <= objs[j]
    ensures forall j :: k < j < |objs| ==> objs[k] < objs[j]
  {
    var last := |objs| - 1;
    if last == 0 then 0
    else
      var k := KeptIndex(objs[..last]);
      if objs[last] <= objs[k] then last else k
  }

  /** The minimum-and-last-of-its-kind property pins down the kept run. */
  lemma KeptIndexUnique(objs: seq<real>, k: nat)
    requires k < |objs|
    requires forall j :: 0 <= j < |objs| ==> objs[k] <= objs[j]
    requires forall j :: k < j < |objs| ==> objs[k] < objs[j]
    ensures KeptIndex(objs) == k
  {
  }

  /** Appending a run: it is kept exactly when its objective is at most the best so far. */
  lemma KeptIndexAppend(outs: seq<RunOutcome>, x: RunOutcome)
    requires 0 < |outs|
    ensures var k := KeptIndex(Objectives(outs));
            KeptIndex(Objectives(outs + [x])) == if x.obj <= outs[k].obj then |outs| else k
  {
    assert Objectives(outs + [x])[..|outs|] == Objectives(outs);
  }

  /** The snapshot of the run the lowest-objective rule keeps. */
  function KeptSnapshot(outs: seq<RunOutcome>): (fit: Fit)
    requires 0 < |outs|
    ensures forall j :: 0 <= j < |outs| ==> fit.finalObj <= outs[j].obj
    ensures fit.finalObj in Objectives(outs)
  {
    var k := KeptIndex(Objectives(outs));
    Snapshot(outs[k], outs[k].nIter)
  }

  /** The kept snapshot is the whole snapshot (factors, objective and n_iter) of
      the last run reaching the least final objective. */
  lemma KeptSnapshotIsLastMinimal(outs: seq<RunOutcome>)
    requires 0 < |outs|
    ensures exists k :: 0 <= k < |outs| && KeptSnapshot(outs) == Snapshot(outs[k], outs[k].nIter) &&
                        (forall j :: 0 <= j < |outs| ==> outs[k].obj <= outs[j].obj) &&
                        (forall j :: k < j < |outs| ==> outs[k].obj < outs[j].obj)
  {
    var k := KeptIndex(Objectives(outs));
    assert KeptSnapshot(outs) == Snapshot(outs[k], outs[k].nIter);
  }

  /** The snapshot `factorize` returns as written. Without a callback it is the
      kept run's. With one, the local `mffit` is overwritten by every run's
      callback snapshot, so the last run's factors and objective come back,
      paired with the kept run's n_iter. */
  function ReturnedSnapshot(outs: seq<RunOutcome>, callback: bool): (fit: Fit)
    requires 0 < |outs|
    // Without a callback it is the kept run's snapshot.
    ensures !callback ==> fit == KeptSnapshot(outs)
    // With one, factors and objective are the last run's, n_iter the kept run's.
    ensures callback ==>
              var last := outs[|outs| - 1];
              fit.W == last.f.W && fit.H == last.f.H && fit.H1 == last.f.H1 && fit.finalObj == last.obj
    ensures fit.nIter == KeptSnapshot(outs).nIter
  {
    if callback then Snapshot(outs[|outs| - 1], outs[KeptIndex(Objectives(outs))].nIter)
    else KeptSnapshot(outs)
  }

  /** The two scripted selections: final objectives 10.0 then 7.0 keep run 1;
      5.0 then 8.0 keep run 0; equal objectives keep the later run. */
  lemma ScriptedSelections(outs: seq<RunOutcome>)
    requires |outs| == 2
    ensures outs[0].obj == 10.0 && outs[1].obj == 7.0 ==> KeptSnapshot(outs) == Snapshot(outs[1], outs[1].nIter)
    ensures outs[0].obj == 5.0 && outs[1].obj == 8.0 ==> KeptSnapshot(outs) == Snapshot(outs[0], outs[0].nIter)
    ensures outs[0].obj == outs[1].obj ==> KeptSnapshot(outs) == Snapshot(outs[1], outs[1].nIter)
  {
    assert Objectives(outs)[..1] == [outs[0].obj];
  }

  /** As written, a callback makes `factorize` return a run that is not the best:
      with final objectives 5.0 then 8.0 the returned snapshot carries run 1's
      factors and objective 8.0 and run 0's iteration count, while the kept run
      is run 0 with objective 5.0. */
  lemma CallbackReturnsLastRun(outs: seq<RunOutcome>)
    requires |outs| == 2 && outs[0].obj == 5.0 && outs[1].obj == 8.0
    ensures ReturnedSnapshot(outs, true) == Snapshot(outs[1], outs[0].nIter)
    ensures ReturnedSnapshot(outs, true).finalObj == 8.0
    ensures KeptSnapshot(outs).finalObj == 5.0
  {
    assert Objectives(outs)[..1] == [outs[0].obj];
  }

  /** With a callback, the returned snapshot is the best one only if the last run's
      objective is the minimum. */
  lemma CallbackSnapshotBestOnlyWhenLastIsMinimal(outs: seq<RunOutcome>)
    requires 0 < |outs|
    ensures ReturnedSnapshot(outs, true).finalObj == KeptSnapshot(outs).finalObj <==>
            forall j :: 0 <= j < |outs| ==> outs[|outs| - 1].obj <= outs[j].obj
  {
  }
}
