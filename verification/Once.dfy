/** At-least-once looks like exactly-once: leave out of a run that returned nil every attempt but those
    whose success was recorded, and it ends alike, but for one family of runs, which is given exactly. */
module Once {
  import opened Types
  import opened Attempts
  import opened Workflow
  import opened Machine
  import opened Inv
  import opened Safety
  import opened SafetyTheorems
  import opened StatusOrder
  import opened Blocks
  import opened Redundant
  import opened Reachable
  import opened Premises

  // ---- Runs that returned nil ----

  predicate ReturnsNil(s: Upload) {
    s.wf.Some? && s.wf.value.code.Closed? && s.wf.value.code.res.Nil?
  }

  /** A workflow that returned nil has no failed activity behind it. */
  lemma NilMeansAllOk(n: nat, v: Wf)
    requires WfInv(n, v) && v.code.Closed? && v.code.res.Nil?
    ensures forall a :: IsScheduled(v, a) ==> Outcome(FutOf(v.futs, a)) == Some(Ok)
  {
    LastErrIsError(v.futs, n);
    forall a | IsScheduled(v, a)
      ensures Outcome(FutOf(v.futs, a)) == Some(Ok)
    {
      assert Scheduled(n, v.code, a);
      assert a == v.code.a || Behind(n, v.code.a, a);
    }
  }

  lemma NilHeads(cfg: Config, s: Upload)
    requires SInv(cfg, s) && ReturnsNil(s)
    ensures Heading(s, FutsOf(s))
  {
    NilMeansAllOk(|cfg.specs|, s.wf.value);
    forall a
      ensures var f := FutOf(FutsOf(s), a); Heads(f, f) && (f.Finished? ==> f.used <= MaxAttempts(a))
    {
      assert FutFits(a, FutOf(s.wf.value.futs, a));
    }
  }

  /** `t` ends like `s`, every scheduled activity having made one attempt, which succeeded; all but the
      original is the same. */
  ghost predicate OneAttemptEach(s: Upload, t: Upload) {
    && s.wf.Some? && t.wf.Some? && t.now == s.now && t.neg == s.neg && t.url == s.url && t.env.row == s.env.row
    && t.env.objs - {ORIGINAL} == s.env.objs - {ORIGINAL}
    && var v, w := s.wf.value, t.wf.value;
       && w.code == v.code && w.hist == v.hist && w.issued == v.issued && w.timer == v.timer
       && forall a :: FutOf(w.futs, a) == if IsScheduled(v, a) then Finished(1, Ok) else Idle
  }

  lemma AllReady(cfg: Config, e: Env, v: Wf)
    requires StoreInv(cfg, e, v)
    requires forall a :: IsScheduled(v, a) ==> Outcome(FutOf(v.futs, a)) == Some(Ok)
    ensures forall name :: name in e.objs && name != ORIGINAL ==> Ready(cfg, v.futs, v, name)
  {
    forall name | name in e.objs && name != ORIGINAL
      ensures Ready(cfg, v.futs, v, name)
    {
      assert Variant(cfg, v, name);
    }
  }

  lemma AllStoredAlike(cfg: Config, last: map<Act, Fut>, v: Wf, e: map<string, Bytes>, d: map<string, Bytes>,
                       stranded: bool)
    requires ObjsSim(cfg, last, v, e, d, stranded)
    requires forall name :: name in e && name != ORIGINAL ==> Ready(cfg, last, v, name)
    ensures d - {ORIGINAL} == e - {ORIGINAL} && (!stranded ==> d == e)
  {
  }

  lemma ClosedFuts(n: nat, v: Wf, w: Wf)
    requires WfInv(n, v) && v.code.Closed? && v.code.res.Nil? && WfSim(v.futs, v, w)
    ensures forall a :: FutOf(w.futs, a) == if IsScheduled(v, a) then Finished(1, Ok) else Idle
  {
    NilMeansAllOk(n, v);
    forall a
      ensures FutOf(w.futs, a) == if IsScheduled(v, a) then Finished(1, Ok) else Idle
    {
      assert FutSim(v.futs, a, FutOf(v.futs, a), FutOf(w.futs, a));
    }
  }

  lemma ClosedSim(cfg: Config, s: Upload, t: Upload, stranded: bool)
    requires SInv(cfg, s) && ReturnsNil(s) && Sim(cfg, FutsOf(s), s, t, stranded)
    ensures OneAttemptEach(s, t)
    ensures if stranded then ORIGINAL in t.env.objs && ORIGINAL !in s.env.objs else t.env == s.env
    ensures stranded ==> IsScheduled(s.wf.value, ActAbandon)
  {
    var v := s.wf.value;
    NilMeansAllOk(|cfg.specs|, v);
    AllReady(cfg, s.env, v);
    AllStoredAlike(cfg, v.futs, v, s.env.objs, t.env.objs, stranded);
    ClosedFuts(|cfg.specs|, v, t.wf.value);
    assert OnceStatus(v.futs, v, s.env.row.value.status) == s.env.row.value.status;
  }

  /** For every prompt run that returned nil, whatever PUTs, retries, timeouts and lost acknowledgements it
      holds: the run without its redundant attempts has the same clock, URL, row, variants, history and
      commands, and one successful attempt of each scheduled activity. It has the same original too, if
      and only if it is not so that a redundant attempt of Abandon deleted an original, no PUT was
      accepted since, and the acknowledged attempt's delete was lost. */
  lemma DroppingAgreesIff(cfg: Config, ms: seq<Move>)
    requires Good(cfg) && Prompt(ms) && ReturnsNil(Run(cfg, Begin(), ms))
    ensures var s, t := Run(cfg, Begin(), ms), Run(cfg, Begin(), Dropped(cfg, ms));
            && Prompt(Dropped(cfg, ms)) && OneAttemptEach(s, t)
            && (t.env == s.env <==> !OnlyRedundantDeleted(cfg, ms))
            && (OnlyRedundantDeleted(cfg, ms) ==>
                  ORIGINAL in t.env.objs && ORIGINAL !in s.env.objs && s.wf.value.code.a.ActAbandon?)
  {
    var s := Run(cfg, Begin(), ms);
    var last := FutsOf(s);
    RunSafe(cfg, Begin(), ms);
    NilHeads(cfg, s);
    KeptPrompt(cfg, last, ms, false);
    OnceSimulates(cfg, last, ms, false);
    StrandedMeans(cfg, last, ms);
    ClosedSim(cfg, s, Run(cfg, Begin(), Dropped(cfg, ms)), Stranded(cfg, last, ms, false));
    AbandonIsLast(|cfg.specs|, s.wf.value);
  }

  lemma AbandonIsLast(n: nat, v: Wf)
    requires FutsFit(n, v) && v.code.Closed?
    ensures IsScheduled(v, ActAbandon) ==> v.code.a.ActAbandon?
  {
    assert IsScheduled(v, ActAbandon) <==> Scheduled(n, v.code, ActAbandon);
  }

  /** On the signalled path there is no exception. */
  lemma CompleteDropsAll(cfg: Config, ms: seq<Move>)
    requires Good(cfg) && Prompt(ms) && ReturnsNil(Run(cfg, Begin(), ms))
    requires Run(cfg, Begin(), ms).wf.value.code.a.ActComplete?
    ensures var s, t := Run(cfg, Begin(), ms), Run(cfg, Begin(), Dropped(cfg, ms));
            Prompt(Dropped(cfg, ms)) && OneAttemptEach(s, t) && t.env == s.env
  {
    DroppingAgreesIff(cfg, ms);
  }

  // ---- With one delete mended ----

  /** The acknowledged attempt of Abandon is past its delete. */
  predicate PastDelete(last: map<Act, Fut>, f: Fut) {
    || (f.Finished? && f.res.Ok? && IsAcked(last, ActAbandon, f.used))
    || (f.Running? && IsAcked(last, ActAbandon, f.used) && !f.att.ADrop?)
  }

  lemma MendStep(cfg: Config, last: map<Act, Fut>, s: Upload, m: Move, was: bool)
    requires Good(cfg) && SInv(cfg, s)
    requires was ==> !PastDelete(last, FutOf(FutsOf(s), ActAbandon))
    ensures StrandsNext(last, s, m, was, true) ==> !PastDelete(last, FutOf(FutsOf(Step(cfg, s, m)), ActAbandon))
  {
    if s.wf.Some? {
      if m.RunTask? {
        TaskGrows(|cfg.specs|, s.wf.value, s.now);
      } else if m.Crash? {
        CrashIsInvisible(|cfg.specs|, s.wf.value, s.now);
      } else {
        MendMove(cfg, last, s, m, was);
      }
    }
  }

  lemma MendMove(cfg: Config, last: map<Act, Fut>, s: Upload, m: Move, was: bool)
    requires s.wf.Some? && !s.neg.RowMade? && !m.RunTask? && !m.Crash?
    requires was ==> !PastDelete(last, FutOf(FutsOf(s), ActAbandon))
    ensures StrandsNext(last, s, m, was, true) ==> !PastDelete(last, FutOf(FutsOf(Step(cfg, s, m)), ActAbandon))
  {
  }

  lemma {:induction false} MendedIsNotStranded(cfg: Config, last: map<Act, Fut>, ms: seq<Move>)
    requires Good(cfg)
    ensures Stranded(cfg, last, ms, true) ==> !PastDelete(last, FutOf(FutsOf(Run(cfg, Begin(), ms)), ActAbandon))
    decreases |ms|
  {
    if ms != [] {
      var rest := ms[..|ms| - 1];
      MendedIsNotStranded(cfg, last, rest);
      RunSafe(cfg, Begin(), rest);
      MendStep(cfg, last, Run(cfg, Begin(), rest), ms[|ms| - 1], Stranded(cfg, last, rest, true));
    }
  }

  /** So every prompt run that returned nil, without exception, ends like one in which every scheduled
      activity made a single attempt: its own acknowledged attempts, where they were, with at most one
      lost delete of Abandon made not lost. */
  lemma AtLeastOnceIsExactlyOnce(cfg: Config, ms: seq<Move>)
    requires Good(cfg) && Prompt(ms) && ReturnsNil(Run(cfg, Begin(), ms))
    ensures var s, t := Run(cfg, Begin(), ms), Run(cfg, Begin(), Once(cfg, ms));
            Prompt(Once(cfg, ms)) && OneAttemptEach(s, t) && t.env == s.env
  {
    var s := Run(cfg, Begin(), ms);
    var last := FutsOf(s);
    RunSafe(cfg, Begin(), ms);
    NilHeads(cfg, s);
    KeptPrompt(cfg, last, ms, true);
    OnceSimulates(cfg, last, ms, true);
    MendedIsNotStranded(cfg, last, ms);
    ClosedSim(cfg, s, Run(cfg, Begin(), Once(cfg, ms)), Stranded(cfg, last, ms, true));
    NilMeansAllOk(|cfg.specs|, s.wf.value);
  }

  // ---- The exception happens ----

  /** The workflow has turned to Abandon, with an original in the store. */
  lemma ToAbandonWithOriginal(cfg: Config, data: Bytes) returns (s: Upload)
    requires Good(cfg)
    ensures JustScheduled(cfg, s, ActAbandon, Pending) && ORIGINAL in s.env.objs
  {
    var s0 := ToSelect(cfg, NoFault);
    var s1 := Step(cfg, s0, ClientPut(data));
    ReachStep(cfg, s0, ClientPut(data));
    var s2 := Step(cfg, s1, Tick(UPLOAD_TIMEOUT));
    ReachStep(cfg, s1, Tick(UPLOAD_TIMEOUT));
    var s3 := Step(cfg, s2, FireTimer);
    ReachStep(cfg, s2, FireTimer);
    assert s3.wf.value.hist == [Task] + [TimerFired];
    ReachSafe(cfg, s3);
    AbandonStep(cfg, s3);
    s := Step(cfg, s3, RunTask);
    ReachStep(cfg, s3, RunTask);
  }

  /** Two attempts of Abandon: the first deletes but loses its status write, the second is acknowledged
      but loses its delete. */
  const TWO_SWEEPS: seq<Move> := AbandonTry(NoFault, Before) + AbandonTry(Before, NoFault)

  lemma AttemptBegins(cfg: Config, s: Upload)
    requires s.wf.Some? && FutOf(s.wf.value.futs, ActAbandon).Backoff?
    ensures var used := FutOf(s.wf.value.futs, ActAbandon).used + 1;
            Run(cfg, s, [Dispatch(ActAbandon)]) == With(s, ActAbandon, Running(used, ADrop), s.env, s.wf.value.log)
  {
    RunOne(cfg, s, Dispatch(ActAbandon));
  }

  lemma DeleteIsLost(cfg: Config, s: Upload)
    requires s.wf.Some? && FutOf(s.wf.value.futs, ActAbandon).Backoff?
    ensures var used := FutOf(s.wf.value.futs, ActAbandon).used + 1;
            FutOf(FutsOf(Run(cfg, s, [Dispatch(ActAbandon)] + [Call(ActAbandon, Before)])), ActAbandon)
            == Running(used, AMark)
  {
    var a := ActAbandon;
    AttemptBegins(cfg, s);
    RunSnoc(cfg, s, [Dispatch(a)], Call(a, Before));
    CallInside(cfg, s, a, FutOf(s.wf.value.futs, a).used + 1, ADrop, s.env, s.wf.value.log, Before);
  }

  lemma TwoSweepsEnd(cfg: Config, s: Upload)
    requires s.wf.Some? && FutOf(s.wf.value.futs, ActAbandon) == Backoff(0)
    ensures var u := Run(cfg, s, AbandonTry(NoFault, Before));
            u.wf.Some? && FutOf(u.wf.value.futs, ActAbandon) == Backoff(1)
    ensures var t := Run(cfg, s, TWO_SWEEPS);
            && t.wf.Some? && FutOf(t.wf.value.futs, ActAbandon) == Finished(2, Ok)
            && t.wf.value.code == s.wf.value.code && TaskDue(t.wf.value)
  {
    AbandonTryRuns(cfg, s, NoFault, Before);
    AbandonTryRuns(cfg, Run(cfg, s, AbandonTry(NoFault, Before)), Before, NoFault);
    RunAppend(cfg, s, AbandonTry(NoFault, Before), AbandonTry(Before, NoFault));
  }

  lemma TwoSweepsMidway(cfg: Config, s: Upload)
    requires s.wf.Some? && FutOf(s.wf.value.futs, ActAbandon) == Backoff(0)
    ensures Run(cfg, s, TWO_SWEEPS[..1]) == With(s, ActAbandon, Running(1, ADrop), s.env, s.wf.value.log)
    ensures FutOf(FutsOf(Run(cfg, s, TWO_SWEEPS[..6])), ActAbandon) == Running(2, AMark)
  {
    var a, first := ActAbandon, AbandonTry(NoFault, Before);
    TwoSweepsEnd(cfg, s);
    AttemptBegins(cfg, s);
    DeleteIsLost(cfg, Run(cfg, s, first));
    RunAppend(cfg, s, first, [Dispatch(a)] + [Call(a, Before)]);
    assert TWO_SWEEPS[..1] == [Dispatch(a)] && TWO_SWEEPS[..6] == first + ([Dispatch(a)] + [Call(a, Before)]);
  }

  lemma SecondMissed(cfg: Config, pre: seq<Move>)
    requires var s := Run(cfg, Begin(), pre);
             s.wf.Some? && FutOf(s.wf.value.futs, ActAbandon) == Backoff(0) && ORIGINAL in s.env.objs
    requires var t := Run(cfg, Begin(), pre + TWO_SWEEPS + [RunTask]);
             FutOf(FutsOf(t), ActAbandon) == Finished(2, Ok)
    ensures OnlyRedundantDeleted(cfg, pre + TWO_SWEEPS + [RunTask])
  {
    var s, ms := Run(cfg, Begin(), pre), pre + TWO_SWEEPS + [RunTask];
    var last := FutsOf(Run(cfg, Begin(), ms));
    var k := |pre| + 1;
    TwoSweepsMidway(cfg, s);
    assert ms[..k] == pre + TWO_SWEEPS[..1];
    RunAppend(cfg, Begin(), pre, TWO_SWEEPS[..1]);
    assert RedundantDelete(cfg, last, ms, k);
    forall j: nat | k < j
      ensures !MakesUp(cfg, last, ms, j)
    {
      if j == |pre| + 6 {
        assert ms[..j] == pre + TWO_SWEEPS[..6];
        RunAppend(cfg, Begin(), pre, TWO_SWEEPS[..6]);
      } else if j < |ms| {
        assert ms[j] == if j < |pre| + 8 then TWO_SWEEPS[j - |pre|] else RunTask;
      }
    }
    assert DeletedFor(cfg, last, ms, k);
  }

  /** So there is a prompt run that returned nil, with no original left, from which leaving out the
      redundant attempts would leave the original behind. */
  lemma DroppingDiffers(cfg: Config, data: Bytes) returns (ms: seq<Move>)
    requires Good(cfg)
    ensures Prompt(ms) && ReturnsNil(Run(cfg, Begin(), ms)) && OnlyRedundantDeleted(cfg, ms)
    ensures ORIGINAL !in Run(cfg, Begin(), ms).env.objs
    ensures ORIGINAL in Run(cfg, Begin(), Dropped(cfg, ms)).env.objs
  {
    var s := ToAbandonWithOriginal(cfg, data);
    var pre :| Prompt(pre) && Run(cfg, Begin(), pre) == s;
    TwoSweepsEnd(cfg, s);
    var t := Run(cfg, s, TWO_SWEEPS);
    ReachRun(cfg, s, TWO_SWEEPS);
    ReachSafe(cfg, t);
    CloseStep(cfg, t);
    ms := pre + TWO_SWEEPS + [RunTask];
    RunAppend(cfg, Begin(), pre, TWO_SWEEPS);
    RunSnoc(cfg, Begin(), pre + TWO_SWEEPS, RunTask);
    PromptAppend(pre, TWO_SWEEPS);
    PromptAppend(pre + TWO_SWEEPS, [RunTask]);
    SecondMissed(cfg, pre);
    DroppingAgreesIff(cfg, ms);
  }
}
