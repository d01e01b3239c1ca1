/** Runs that exist: every entry of the close table is reached. */
module Reachable {
  import opened Types
  import opened Attempts
  import opened Workflow
  import opened Machine
  import opened Inv
  import opened Safety
  import opened SafetyTheorems
  import opened StatusOrder
  import opened Blocks
  import opened FanOut
  import opened Progress

  ghost predicate Reach(cfg: Config, s: Upload) {
    exists ms :: Prompt(ms) && Run(cfg, Begin(), ms) == s
  }

  /** Reached by a run in which no timed-out attempt of Processing lingers. */
  ghost predicate SteadyReach(cfg: Config, s: Upload) {
    exists ms :: Steady(ms) && Run(cfg, Begin(), ms) == s
  }

  lemma PromptIsSteady(cfg: Config, s: Upload)
    requires Reach(cfg, s)
    ensures SteadyReach(cfg, s)
  {
    var ms :| Prompt(ms) && Run(cfg, Begin(), ms) == s;
    assert Steady(ms);
  }

  predicate WorkersOnly(ms: seq<Move>) {
    forall i :: 0 <= i < |ms| ==> EngineMove(ms[i])
  }

  lemma ReachRun(cfg: Config, s: Upload, ms: seq<Move>)
    requires Good(cfg) && Reach(cfg, s) && Prompt(ms)
    ensures Reach(cfg, Run(cfg, s, ms))
  {
    var pre :| Prompt(pre) && Run(cfg, Begin(), pre) == s;
    RunAppend(cfg, Begin(), pre, ms);
    assert Prompt(pre + ms);
  }

  lemma ReachSafe(cfg: Config, s: Upload)
    requires Good(cfg) && Reach(cfg, s)
    ensures SInv(cfg, s)
  {
    var ms :| Prompt(ms) && Run(cfg, Begin(), ms) == s;
    RunSafe(cfg, Begin(), ms);
  }

  lemma ReachStep(cfg: Config, s: Upload, m: Move)
    requires Good(cfg) && Reach(cfg, s) && PromptMove(m)
    ensures Reach(cfg, Step(cfg, s, m))
  {
    ReachRun(cfg, s, [m]);
    RunOne(cfg, s, m);
  }

  function StatusOf(s: Upload): Status
    requires s.env.row.Some?
  {
    s.env.row.value.status
  }

  /** The workflow has just scheduled `a` and waits for it. */
  ghost predicate JustScheduled(cfg: Config, s: Upload, a: Act, st: Status) {
    && Reach(cfg, s) && s.wf.Some? && s.env.row.Some? && StatusOf(s) == st
    && s.wf.value.code.Await? && s.wf.value.code.a == a && FutOf(s.wf.value.futs, a) == Backoff(0)
  }

  ghost predicate ClosesWith(cfg: Config, a: Act, ok: bool, st: Status) {
    exists s :: SteadyReach(cfg, s) && s.wf.Some? && s.env.row.Some? && StatusOf(s) == st
      && s.wf.value.code.Closed? && s.wf.value.code.a == a && s.wf.value.code.res.Nil? == ok
  }

  /** What issuing a single Close or Schedule does. */
  lemma IssueOne(wf: Wf, c: Cmd, now: nat)
    requires c.Close? || c.Schedule?
    ensures Issue(wf, [c], now) ==
            wf.(issued := wf.issued + [c], futs := if c.Schedule? then wf.futs[c.a := Backoff(0)] else wf.futs)
  {
    assert [c][..0] == [];
    assert Launch(wf.futs, []) == wf.futs;
  }

  /** The code waits for an activity whose recorded result makes it return. */
  predicate Closing(wf: Wf) {
    && wf.code.Await? && TaskDue(wf) && FutOf(wf.futs, wf.code.a).Finished?
    && (wf.code.a.ActValidate? || wf.code.a.ActProcessing? ==> FutOf(wf.futs, wf.code.a).res.Err?)
  }

  /** The record after it has returned. */
  function AfterClose(wf: Wf): Wf
    requires Closing(wf)
  {
    var res := Return(wf.code.a, FutOf(wf.futs, wf.code.a).res, wf.code.carry);
    wf.(code := Closed(wf.code.a, res), hist := wf.hist + [Task], issued := wf.issued + [Close(res)])
  }

  lemma CloseCode(n: nat, wf: Wf, now: nat)
    requires WfInv(n, wf) && Closing(wf)
    ensures TaskStep(n, wf, now) == AfterClose(wf)
    ensures AfterClose(wf).code.res.Nil? <==> FutOf(wf.futs, wf.code.a).res.Ok? && !wf.code.a.ActFail?
  {
    EndedMeansClosed(n, wf);
    TaskSees(n, wf);
    LastErrIsError(wf.futs, n);
    var res := AfterClose(wf).code.res;
    assert Seen(wf.hist + [Task], wf.code.a) == Outcome(FutOf(wf.futs, wf.code.a));
    assert Advance(n, wf.code, wf.hist + [Task]) == Trace(Closed(wf.code.a, res), [Close(res)]);
    IssueOne(wf.(code := Closed(wf.code.a, res), hist := wf.hist + [Task]), Close(res), now);
  }

  /** A workflow task that finds the awaited activity settled. */
  lemma CloseStep(cfg: Config, s: Upload)
    requires s.wf.Some? && WfInv(|cfg.specs|, s.wf.value) && Closing(s.wf.value)
    ensures Step(cfg, s, RunTask) == s.(wf := Some(AfterClose(s.wf.value)))
    ensures var wf := s.wf.value;
            AfterClose(wf).code.res.Nil? <==> FutOf(wf.futs, wf.code.a).res.Ok? && !wf.code.a.ActFail?
  {
    CloseCode(|cfg.specs|, s.wf.value, s.now);
    TaskMove(cfg, s);
  }

  lemma TaskMove(cfg: Config, s: Upload)
    requires s.wf.Some?
    ensures Step(cfg, s, RunTask) == s.(wf := Some(TaskStep(|cfg.specs|, s.wf.value, s.now)))
  {
  }

  lemma CloseTask(cfg: Config, s: Upload, a: Act, ok: bool)
    requires Good(cfg) && Reach(cfg, s) && s.wf.Some? && s.env.row.Some?
    requires s.wf.value.code.Await? && s.wf.value.code.a == a && TaskDue(s.wf.value)
    requires var f := FutOf(s.wf.value.futs, a);
             f.Finished? && (a.ActValidate? || a.ActProcessing? ==> f.res.Err?)
             && ok == (f.res.Ok? && !a.ActFail?)
    ensures ClosesWith(cfg, a, ok, StatusOf(s))
  {
    ReachSafe(cfg, s);
    CloseStep(cfg, s);
    ReachStep(cfg, s, RunTask);
    var t := Step(cfg, s, RunTask);
    PromptIsSteady(cfg, t);
    assert t.wf.value.code.Closed? && t.wf.value.code.a == a && t.wf.value.code.res.Nil? == ok;
  }

  /** Three attempts of a one-call activity, each failing before or after its write. */
  lemma MarkFails(cfg: Config, s: Upload, a: Act, st: Status, fault: Fault)
    requires Good(cfg) && OneCall(a) && JustScheduled(cfg, s, a, st) && !fault.NoFault?
    ensures ClosesWith(cfg, a, false, if fault.Before? then st else Target(a))
  {
    var ms := MarkTry(a, fault);
    var s1 := Run(cfg, s, ms);
    var s2 := Run(cfg, s1, ms);
    var s3 := Run(cfg, s2, ms);
    MarkTryRuns(cfg, s, a, fault);
    ReachRun(cfg, s, ms);
    assert FutOf(s1.wf.value.futs, a) == Backoff(1);
    MarkTryRuns(cfg, s1, a, fault);
    ReachRun(cfg, s1, ms);
    assert FutOf(s2.wf.value.futs, a) == Backoff(2);
    MarkTryRuns(cfg, s2, a, fault);
    ReachRun(cfg, s2, ms);
    assert FutOf(s3.wf.value.futs, a) == Finished(3, Err(CallFailed));
    CloseTask(cfg, s3, a, false);
  }

  lemma MarkSucceeds(cfg: Config, s: Upload, a: Act)
    requires Good(cfg) && Reach(cfg, s) && OneCall(a) && s.wf.Some? && FutOf(s.wf.value.futs, a).Backoff?
    ensures var t := Run(cfg, s, MarkTry(a, NoFault));
            && Reach(cfg, t)
            && t == s.(env := Effect(s.env, Update(Target(a))), wf := t.wf) && t.wf.Some?
            && t.wf.value.code == s.wf.value.code && TaskDue(t.wf.value)
            && t.wf.value.futs == s.wf.value.futs[a := Finished(FutOf(s.wf.value.futs, a).used + 1, Ok)]
  {
    MarkTryRuns(cfg, s, a, NoFault);
    ReachRun(cfg, s, MarkTry(a, NoFault));
  }

  lemma AbandonFails(cfg: Config, s: Upload, fault: Fault)
    requires Good(cfg) && JustScheduled(cfg, s, ActAbandon, Pending) && !fault.NoFault?
    ensures ClosesWith(cfg, ActAbandon, false, if fault.Before? then Pending else Abandoned)
  {
    var a := ActAbandon;
    var ms := AbandonTry(NoFault, fault);
    var s1 := Run(cfg, s, ms);
    var s2 := Run(cfg, s1, ms);
    var s3 := Run(cfg, s2, ms);
    AbandonTryRuns(cfg, s, NoFault, fault);
    ReachRun(cfg, s, ms);
    assert FutOf(s1.wf.value.futs, a) == Backoff(1);
    AbandonTryRuns(cfg, s1, NoFault, fault);
    ReachRun(cfg, s1, ms);
    assert FutOf(s2.wf.value.futs, a) == Backoff(2);
    AbandonTryRuns(cfg, s2, NoFault, fault);
    ReachRun(cfg, s2, ms);
    assert FutOf(s3.wf.value.futs, a) == Finished(3, Err(CallFailed));
    CloseTask(cfg, s3, a, false);
  }

  lemma AbandonSucceeds(cfg: Config, s: Upload)
    requires Good(cfg) && JustScheduled(cfg, s, ActAbandon, Pending)
    ensures ClosesWith(cfg, ActAbandon, true, Abandoned)
  {
    AbandonTryRuns(cfg, s, NoFault, NoFault);
    ReachRun(cfg, s, AbandonTry(NoFault, NoFault));
    CloseTask(cfg, Run(cfg, s, AbandonTry(NoFault, NoFault)), ActAbandon, true);
  }

  // ---- Reaching each stage ----

  lemma FirstAdvance(n: nat)
    ensures Advance(n, Init, [Task]) == Trace(Select, [StartTimer])
  {
    assert [StartTimer] + [] == [StartTimer];
  }

  lemma IssueTimer(wf: Wf, now: nat)
    ensures Issue(wf, [StartTimer], now) == wf.(issued := wf.issued + [StartTimer], timer := Armed(now))
  {
    assert [StartTimer][..0] == [];
    assert Launch(wf.futs, []) == wf.futs;
  }

  lemma FirstTask(n: nat, now: nat)
    ensures TaskStep(n, NEW_WF, now) == Wf(Select, [Task], [StartTimer], map[], Armed(now), [], [])
  {
    assert [] + [Task] == [Task] && [] + [StartTimer] == [StartTimer];
    FirstAdvance(n);
    IssueTimer(NEW_WF.(code := Select, hist := [Task]), now);
  }

  /** Row and workflow exist and the URL is yet to be signed. */
  lemma ToUnsigned(cfg: Config) returns (s: Upload)
    requires Good(cfg)
    ensures Reach(cfg, s) && s.now == 0 && s.neg.Started? && s.url.None?
    ensures s.env.row.Some? && StatusOf(s) == Pending && s.env.objs == map[]
    ensures s.wf == Some(NEW_WF)
  {
    var s0 := Begin();
    assert Run(cfg, Begin(), []) == s0 && Prompt([]);
    var s1 := Step(cfg, s0, CreateRow("", "", "", NoFault));
    ReachStep(cfg, s0, CreateRow("", "", "", NoFault));
    s := Step(cfg, s1, StartWf(NoFault));
    ReachStep(cfg, s1, StartWf(NoFault));
  }

  /** Negotiated, with `sign` telling whether a URL was issued. */
  lemma ToStarted(cfg: Config, sign: Fault) returns (s: Upload)
    requires Good(cfg)
    ensures Reach(cfg, s) && s.now == 0
    ensures s.env.row.Some? && StatusOf(s) == Pending && s.env.objs == map[]
    ensures s.url == if sign.NoFault? then Some(0) else None
    ensures s.wf == Some(NEW_WF)
  {
    var s0 := ToUnsigned(cfg);
    s := Step(cfg, s0, Sign(sign));
    ReachStep(cfg, s0, Sign(sign));
  }

  /** Negotiated, the workflow waiting at the select. */
  lemma ToSelect(cfg: Config, sign: Fault) returns (s: Upload)
    requires Good(cfg)
    ensures Reach(cfg, s) && s.now == 0
    ensures s.env.row.Some? && StatusOf(s) == Pending && s.env.objs == map[]
    ensures s.url == if sign.NoFault? then Some(0) else None
    ensures s.wf == Some(Wf(Select, [Task], [StartTimer], map[], Armed(0), [], []))
  {
    var s0 := ToStarted(cfg, sign);
    FirstTask(|cfg.specs|, 0);
    ReachStep(cfg, s0, RunTask);
    s := Step(cfg, s0, RunTask);
  }

  /** From the select, the timer fires and the workflow turns to Abandon. */
  lemma ToAbandon(cfg: Config, sign: Fault) returns (s: Upload)
    requires Good(cfg)
    ensures JustScheduled(cfg, s, ActAbandon, Pending) && (!sign.NoFault? ==> s.url.None?)
  {
    var s0 := ToSelect(cfg, sign);
    var s1 := Step(cfg, s0, Tick(UPLOAD_TIMEOUT));
    ReachStep(cfg, s0, Tick(UPLOAD_TIMEOUT));
    var s2 := Step(cfg, s1, FireTimer);
    ReachStep(cfg, s1, FireTimer);
    s := Step(cfg, s2, RunTask);
    ReachStep(cfg, s2, RunTask);
    var h := [Task] + [TimerFired] + [Task];
    assert s2.wf.value.hist == [Task, TimerFired];
    assert Advance(|cfg.specs|, Select, [Task, TimerFired] + [Task])
        == Trace(Await(ActAbandon, None), [Schedule(ActAbandon)]) by {
      assert ([Task, TimerFired] + [Task])[1] == TimerFired;
    }
    LaunchFut(map[], [Schedule(ActAbandon)], ActAbandon);
  }

  /** The client puts `data` and completes; the workflow turns to Validate. */
  lemma ToValidate(cfg: Config, data: Bytes) returns (s: Upload)
    requires Good(cfg)
    ensures JustScheduled(cfg, s, ActValidate, Pending) && s.env.objs == map[ORIGINAL := data]
    ensures s.now == 0 && s.url == Some(0)
  {
    var s0 := ToSelect(cfg, NoFault);
    var s1 := Step(cfg, s0, ClientPut(data));
    ReachStep(cfg, s0, ClientPut(data));
    var s2 := Step(cfg, s1, Signal(NoFault));
    ReachStep(cfg, s1, Signal(NoFault));
    s := Step(cfg, s2, RunTask);
    ReachStep(cfg, s2, RunTask);
    assert s2.wf.value.hist == [Task, Signaled];
    assert Advance(|cfg.specs|, Select, [Task, Signaled] + [Task])
           == Trace(Await(ActValidate, None), [CancelTimer, Schedule(ActValidate)]) by {
      assert ([Task, Signaled] + [Task])[1] == Signaled;
    }
    LaunchFut(map[], [CancelTimer, Schedule(ActValidate)], ActValidate);
  }

  /** Validate run undisturbed, up to its report. */
  lemma ValidateEnds(cfg: Config, s: Upload, faults: nat -> Fault) returns (t: Upload)
    requires Good(cfg) && JustScheduled(cfg, s, ActValidate, Pending)
    ensures Reach(cfg, t) && t.wf.Some?
    ensures var (e, r) := Finish(cfg, ActValidate, VMark, s.env, faults, 0);
            && t.env == e && t.wf.value.code == s.wf.value.code && TaskDue(t.wf.value)
            && FutOf(t.wf.value.futs, ActValidate) == Finished(1, r)
  {
    var log := AttemptRuns(cfg, s, ActValidate, faults);
    var ms := [Dispatch(ActValidate)] + FinishMoves(cfg, ActValidate, VMark, s.env, faults, 0);
    ReachRun(cfg, s, ms);
    t := Run(cfg, s, ms);
  }

  lemma ValidateFails(cfg: Config, data: Bytes, fault: Fault)
    requires Good(cfg) && !fault.NoFault?
    ensures ClosesWith(cfg, ActValidate, false, if fault.Before? then Pending else Validating)
  {
    var s := ToValidate(cfg, data);
    var faults := (k: nat) => fault;
    assert Finish(cfg, ActValidate, VMark, s.env, faults, 0)
           == (Perform(cfg, s.env, Update(Validating), fault).0, Err(CallFailed));
    var t := ValidateEnds(cfg, s, faults);
    CloseTask(cfg, t, ActValidate, false);
  }

  lemma ValidateRejects(cfg: Config, bad: Bytes)
    requires Good(cfg) && !Passes(cfg, bad)
    ensures ClosesWith(cfg, ActValidate, false, Rejected)
  {
    var s := ToValidate(cfg, bad);
    var faults := (k: nat) => NoFault;
    ValidateVerdict(cfg, s.env, faults);
    var t := ValidateEnds(cfg, s, faults);
    CloseTask(cfg, t, ActValidate, false);
  }

  lemma {:induction false} FinishIsWork(cfg: Config, a: Act, att: Attempt, e: Env, faults: nat -> Fault, k: nat)
    ensures WorkersOnly(FinishMoves(cfg, a, att, e, faults, k))
    decreases CallsLeft(att)
  {
    if !att.Done? {
      var (e', reply) := Perform(cfg, e, Next(cfg, a, att), faults(k));
      ResumeDrops(cfg, att, reply);
      FinishIsWork(cfg, a, Resume(cfg, att, reply), e', faults, k + 1);
      WorkersAppend([Call(a, faults(k))], FinishMoves(cfg, a, Resume(cfg, att, reply), e', faults, k + 1));
    }
  }

  /** From the start of Validate on a good original, the workers come to Processing. */
  lemma ToProcessingFrom(cfg: Config, s0: Upload, good: Bytes) returns (s: Upload, ms: seq<Move>)
    requires Good(cfg) && Passes(cfg, good)
    requires JustScheduled(cfg, s0, ActValidate, Pending) && s0.env.objs == map[ORIGINAL := good]
    ensures JustScheduled(cfg, s, ActProcessing, Validating) && s.wf.value.code.carry.None?
    ensures ORIGINAL in s.env.objs && s.env.objs[ORIGINAL] == good
    ensures WorkersOnly(ms) && Prompt(ms) && s == Run(cfg, s0, ms)
  {
    var a := ActValidate;
    var faults := (k: nat) => NoFault;
    ValidateVerdict(cfg, s0.env, faults);
    var log := AttemptRuns(cfg, s0, a, faults);
    var run := FinishMoves(cfg, a, VMark, s0.env, faults, 0);
    var try := [Dispatch(a)] + run;
    FinishIsWork(cfg, a, VMark, s0.env, faults, 0);
    WorkersAppend([Dispatch(a)], run);
    ReachRun(cfg, s0, try);
    var t := Run(cfg, s0, try);
    ProcessingStep(cfg, t, good);
    s, ms := Step(cfg, t, RunTask), try + [RunTask];
    PromptAppend(try, [RunTask]);
    WorkersAppend(try, [RunTask]);
    RunSnoc(cfg, s0, try, RunTask);
  }

  /** A workflow task that finds Validate acknowledged. */
  lemma ProcessingStep(cfg: Config, s: Upload, good: Bytes)
    requires Good(cfg) && Reach(cfg, s) && s.wf.Some? && s.env.row.Some? && StatusOf(s) == Validating
    requires s.wf.value.code.Await? && s.wf.value.code.a.ActValidate? && TaskDue(s.wf.value)
    requires FutOf(s.wf.value.futs, ActValidate) == Finished(1, Ok)
    requires ORIGINAL in s.env.objs && s.env.objs[ORIGINAL] == good
    ensures var t := Step(cfg, s, RunTask);
            && JustScheduled(cfg, t, ActProcessing, Validating) && t.wf.value.code.carry.None?
            && t.env == s.env
  {
    ReachSafe(cfg, s);
    ReachStep(cfg, s, RunTask);
    NextTask(|cfg.specs|, s.wf.value, s.now);
    TaskMove(cfg, s);
  }

  lemma ToProcessing(cfg: Config, good: Bytes) returns (s: Upload)
    requires Good(cfg) && Passes(cfg, good)
    ensures JustScheduled(cfg, s, ActProcessing, Validating) && s.wf.value.code.carry.None?
    ensures ORIGINAL in s.env.objs && s.env.objs[ORIGINAL] == good
  {
    var s0 := ToValidate(cfg, good);
    var ms;
    s, ms := ToProcessingFrom(cfg, s0, good);
  }

  lemma NextTask(n: nat, wf: Wf, now: nat)
    requires WfInv(n, wf) && wf.code.Await? && wf.code.a.ActValidate? && TaskDue(wf) && Succeeded(wf, ActValidate)
    ensures TaskStep(n, wf, now).code == Await(ActProcessing, None)
    ensures FutOf(TaskStep(n, wf, now).futs, ActProcessing) == Backoff(0)
  {
    EndedMeansClosed(n, wf);
    TaskSees(n, wf);
    assert Seen(wf.hist + [Task], ActValidate) == Outcome(FutOf(wf.futs, ActValidate));
    LaunchFut(wf.futs, [Schedule(ActProcessing)], ActProcessing);
  }

  /** The first `k` resizes are over and the others have not begun. */
  ghost predicate Resizing(cfg: Config, s: Upload, good: Bytes, k: nat, ok: bool) {
    && Reach(cfg, s) && s.wf.Some? && s.env.row.Some? && StatusOf(s) == Processing
    && s.wf.value.code == Gather(0, None) && ORIGINAL in s.env.objs && s.env.objs[ORIGINAL] == good
    && (k > 0 ==> TaskDue(s.wf.value))
    && (forall i :: 0 <= i < k && i < |cfg.specs| ==>
          FutOf(s.wf.value.futs, ActResize(i)) == if ok then Finished(1, Ok) else Finished(3, Err(TimedOut)))
    && (forall i :: k <= i < |cfg.specs| ==> FutOf(s.wf.value.futs, ActResize(i)) == Backoff(0))
  }

  /** From any attempt of Processing that is yet to be made. */
  lemma FanOutFrom(cfg: Config, s0: Upload, good: Bytes, ok: bool) returns (s: Upload, ms: seq<Move>)
    requires Good(cfg) && |cfg.specs| > 0
    requires Reach(cfg, s0) && s0.wf.Some? && s0.env.row.Some?
    requires s0.wf.value.code == Await(ActProcessing, None) && FutOf(s0.wf.value.futs, ActProcessing).Backoff?
    requires ORIGINAL in s0.env.objs && s0.env.objs[ORIGINAL] == good
    ensures Resizing(cfg, s, good, 0, ok)
    ensures Prompt(ms) && WorkersOnly(ms) && Run(cfg, s0, ms) == s
  {
    var try := MarkTry(ActProcessing, NoFault);
    MarkSucceeds(cfg, s0, ActProcessing);
    var t := Run(cfg, s0, try);
    FanOutStep(cfg, t, good, ok);
    s, ms := Step(cfg, t, RunTask), try + [RunTask];
    PromptAppend(try, [RunTask]);
    WorkersAppend(try, [RunTask]);
    RunSnoc(cfg, s0, try, RunTask);
  }

  /** A workflow task that finds Processing acknowledged. */
  lemma FanOutStep(cfg: Config, s: Upload, good: Bytes, ok: bool)
    requires Good(cfg) && |cfg.specs| > 0 && Reach(cfg, s) && s.wf.Some? && TaskDue(s.wf.value)
    requires s.wf.value.code == Await(ActProcessing, None) && Succeeded(s.wf.value, ActProcessing)
    requires s.env.row.Some? && StatusOf(s) == Processing
    requires ORIGINAL in s.env.objs && s.env.objs[ORIGINAL] == good
    ensures Resizing(cfg, Step(cfg, s, RunTask), good, 0, ok)
  {
    FanOutReached(cfg, s);
    ReachStep(cfg, s, RunTask);
    TaskMove(cfg, s);
  }

  lemma FanOutReached(cfg: Config, s: Upload)
    requires Good(cfg) && |cfg.specs| > 0 && Reach(cfg, s) && s.wf.Some? && TaskDue(s.wf.value)
    requires s.wf.value.code == Await(ActProcessing, None) && Succeeded(s.wf.value, ActProcessing)
    ensures var w := TaskStep(|cfg.specs|, s.wf.value, s.now);
            && w.code == Gather(0, None)
            && forall i: nat :: i < |cfg.specs| ==> FutOf(w.futs, ActResize(i)) == Backoff(0)
  {
    ReachSafe(cfg, s);
    FanOutTask(|cfg.specs|, s.wf.value, s.now);
  }

  lemma ToFanOut(cfg: Config, good: Bytes, ok: bool) returns (s: Upload)
    requires Good(cfg) && Passes(cfg, good) && |cfg.specs| > 0
    ensures Resizing(cfg, s, good, 0, ok)
  {
    var s0 := ToProcessing(cfg, good);
    var ms;
    s, ms := FanOutFrom(cfg, s0, good, ok);
  }

  lemma FanOutTask(n: nat, wf: Wf, now: nat)
    requires WfInv(n, wf) && wf.code.Await? && wf.code.a.ActProcessing? && TaskDue(wf) && n > 0
    requires Succeeded(wf, ActProcessing)
    ensures var w := TaskStep(n, wf, now);
            w.code == Gather(0, None) && forall i: nat :: i < n ==> FutOf(w.futs, ActResize(i)) == Backoff(0)
  {
    var h := wf.hist + [Task];
    EndedMeansClosed(n, wf);
    TaskSees(n, wf);
    assert Seen(h, ActProcessing) == Outcome(FutOf(wf.futs, ActProcessing));
    assert !Scheduled(n, wf.code, ActResize(0));
    assert Seen(h, ActResize(0)) == Outcome(FutOf(wf.futs, ActResize(0)));
    assert Scan(n, h, 0, None) == (0, None);
    var cmds := ResizeCmds(n) + [];
    forall i: nat | i < n
      ensures FutOf(Launch(wf.futs, cmds), ActResize(i)) == Backoff(0)
    {
      LaunchFut(wf.futs, cmds, ActResize(i));
      assert cmds[i] == Schedule(ActResize(i));
    }
    assert Advance(n, wf.code, h) == Trace(Gather(0, None), cmds);
  }

  lemma ExpireThrice(cfg: Config, s: Upload, a: Act) returns (t: Upload)
    requires Good(cfg) && Reach(cfg, s) && s.wf.Some? && FutOf(s.wf.value.futs, a) == Backoff(0) && !a.ActValidate?
    ensures Reach(cfg, t)
    ensures t == Run(cfg, s, ExpireTry(a) + (ExpireTry(a) + ExpireTry(a)))
    ensures t == s.(wf := Some(s.wf.value.(futs := s.wf.value.futs[a := Finished(3, Err(TimedOut))],
                                           hist := s.wf.value.hist + [Settled(a, Err(TimedOut))])))
  {
    var f := s.wf.value.futs;
    var s1 := ExpireOnce(cfg, s, a);
    assert s1 == s.(wf := Some(s.wf.value.(futs := f[a := Backoff(1)])));
    var s2 := ExpireOnce(cfg, s1, a);
    assert f[a := Backoff(1)][a := Backoff(2)] == f[a := Backoff(2)];
    assert s2 == s.(wf := Some(s.wf.value.(futs := f[a := Backoff(2)])));
    t := ExpireOnce(cfg, s2, a);
    RunAppend(cfg, s, ExpireTry(a), ExpireTry(a) + ExpireTry(a));
    RunAppend(cfg, s1, ExpireTry(a), ExpireTry(a));
    assert f[a := Backoff(2)][a := Finished(3, Err(TimedOut))] == f[a := Finished(3, Err(TimedOut))];
  }

  lemma ExpireOnce(cfg: Config, s: Upload, a: Act) returns (t: Upload)
    requires Good(cfg) && Reach(cfg, s) && s.wf.Some? && FutOf(s.wf.value.futs, a).Backoff?
    ensures Reach(cfg, t) && t == Run(cfg, s, ExpireTry(a))
    ensures t == s.(wf := Some(Settle(s.wf.value, a, FutOf(s.wf.value.futs, a).used + 1, Err(TimedOut))))
  {
    ExpireTryRuns(cfg, s, a);
    ReachRun(cfg, s, ExpireTry(a));
    t := Run(cfg, s, ExpireTry(a));
  }

  /** The image service can resize `good` to every size. */
  ghost predicate Resizable(cfg: Config, good: Bytes) {
    forall i :: 0 <= i < |cfg.specs| ==> cfg.resize(good, cfg.specs[i].w, cfg.specs[i].h).Some?
  }

  function ResizeMoves(k: nat, ok: bool): seq<Move> {
    if ok then ResizeTry(k)
    else ExpireTry(ActResize(k)) + (ExpireTry(ActResize(k)) + ExpireTry(ActResize(k)))
  }

  lemma ResizeMovesArePrompt(k: nat, ok: bool)
    ensures Prompt(ResizeMoves(k, ok)) && WorkersOnly(ResizeMoves(k, ok))
  {
  }

  lemma WorkersAppend(a: seq<Move>, b: seq<Move>)
    requires WorkersOnly(a) && WorkersOnly(b)
    ensures WorkersOnly(a + b)
  {
  }

  lemma ResizeNext(cfg: Config, s: Upload, good: Bytes, k: nat, ok: bool) returns (u: Upload)
    requires Good(cfg) && k < |cfg.specs| && Resizing(cfg, s, good, k, ok) && (ok ==> Resizable(cfg, good))
    ensures Resizing(cfg, u, good, k + 1, ok) && u == Run(cfg, s, ResizeMoves(k, ok))
  {
    if ok {
      ResizeTryRuns(cfg, s, k);
      ReachRun(cfg, s, ResizeTry(k));
      u := Run(cfg, s, ResizeTry(k));
    } else {
      u := ExpireThrice(cfg, s, ActResize(k));
    }
    var f := if ok then Finished(1, Ok) else Finished(3, Err(TimedOut));
    assert u.wf.value.futs == s.wf.value.futs[ActResize(k) := f];
    OthersLeft(s.wf.value.futs, u.wf.value.futs, k, f);
  }

  lemma OthersLeft(f: map<Act, Fut>, g: map<Act, Fut>, k: nat, x: Fut)
    requires g == f[ActResize(k) := x]
    ensures FutOf(g, ActResize(k)) == x
    ensures forall i: nat :: i != k ==> FutOf(g, ActResize(i)) == FutOf(f, ActResize(i))
  {
  }

  lemma {:induction false} ResizeAll(cfg: Config, s: Upload, good: Bytes, k: nat, ok: bool)
    returns (t: Upload, ms: seq<Move>)
    requires Good(cfg) && k <= |cfg.specs| && Resizing(cfg, s, good, k, ok) && (ok ==> Resizable(cfg, good))
    ensures Resizing(cfg, t, good, |cfg.specs|, ok)
    ensures Prompt(ms) && WorkersOnly(ms) && Run(cfg, s, ms) == t
    decreases |cfg.specs| - k
  {
    if k == |cfg.specs| {
      t, ms := s, [];
    } else {
      var u := ResizeNext(cfg, s, good, k, ok);
      var rest;
      t, rest := ResizeAll(cfg, u, good, k + 1, ok);
      ms := ResizeMoves(k, ok) + rest;
      ResizeMovesArePrompt(k, ok);
      PromptAppend(ResizeMoves(k, ok), rest);
      WorkersAppend(ResizeMoves(k, ok), rest);
      RunAppend(cfg, s, ResizeMoves(k, ok), rest);
    }
  }

  lemma GatherTask(n: nat, wf: Wf, now: nat, ok: bool)
    requires WfInv(n, wf) && wf.code == Gather(0, None) && TaskDue(wf) && n > 0
    requires forall i: nat :: i < n ==>
               FutOf(wf.futs, ActResize(i)) == if ok then Finished(1, Ok) else Finished(3, Err(TimedOut))
    ensures var w := TaskStep(n, wf, now);
            var a := if ok then ActComplete else ActFail;
            w.code.Await? && w.code.a == a && FutOf(w.futs, a) == Backoff(0)
  {
    var h := wf.hist + [Task];
    EndedMeansClosed(n, wf);
    TaskSees(n, wf);
    GatherCollects(n, h, wf.futs, ok);
    var t := Collect(n, h, 0, None);
    assert Advance(n, wf.code, h) == t;
    IssueOne(wf.(code := t.code, hist := h), Schedule(if ok then ActComplete else ActFail), now);
  }

  lemma GatherCollects(n: nat, h: seq<Event>, futs: map<Act, Fut>, ok: bool)
    requires n > 0 && forall a :: Seen(h, a) == Outcome(FutOf(futs, a))
    requires forall i: nat :: i < n ==>
               FutOf(futs, ActResize(i)) == if ok then Finished(1, Ok) else Finished(3, Err(TimedOut))
    ensures Collect(n, h, 0, None)
            == if ok then Trace(Await(ActComplete, None), [Schedule(ActComplete)])
               else Trace(Await(ActFail, LastErr(futs, n)), [Schedule(ActFail)])
  {
    ScanFinds(n, h, futs, 0, None);
    if ok {
      forall i: nat | i < n
        ensures Outcome(FutOf(futs, ActResize(i))) == Some(Ok)
      {
      }
      NoErrors(futs, n);
    } else {
      assert LastErr(futs, n) == Some(Error(ActResize(n - 1), TimedOut));
    }
  }

  /** A workflow task that finds every resize over. */
  lemma GatherStep(cfg: Config, s: Upload, good: Bytes, ok: bool)
    requires Good(cfg) && |cfg.specs| > 0 && Resizing(cfg, s, good, |cfg.specs|, ok)
    ensures JustScheduled(cfg, Step(cfg, s, RunTask), if ok then ActComplete else ActFail, Processing)
  {
    ReachSafe(cfg, s);
    ReachStep(cfg, s, RunTask);
    GatherTask(|cfg.specs|, s.wf.value, s.now, ok);
  }

  lemma ToLast(cfg: Config, good: Bytes, ok: bool) returns (s: Upload)
    requires Good(cfg) && Passes(cfg, good) && |cfg.specs| > 0 && (ok ==> Resizable(cfg, good))
    ensures JustScheduled(cfg, s, if ok then ActComplete else ActFail, Processing)
  {
    var s0 := ToFanOut(cfg, good, ok);
    var t, ms := ResizeAll(cfg, s0, good, 0, ok);
    GatherStep(cfg, t, good, ok);
    s := Step(cfg, t, RunTask);
  }

  // ---- The close table is exact ----

  /** Given an image that passes and can be resized and one that does not pass, a workflow can close
      after `a` with `ok` and status `st` exactly when the table says so. */
  lemma CloseTableIsExact(cfg: Config, good: Bytes, bad: Bytes, a: Act, ok: bool, st: Status)
    requires Good(cfg) && |cfg.specs| > 0
    requires Passes(cfg, good) && Resizable(cfg, good) && !Passes(cfg, bad)
    ensures ClosesWith(cfg, a, ok, st) <==> st in CloseTable(a, ok)
  {
    if ClosesWith(cfg, a, ok, st) {
      var s :| SteadyReach(cfg, s) && s.wf.Some? && s.env.row.Some? && StatusOf(s) == st
        && s.wf.value.code.Closed? && s.wf.value.code.a == a && s.wf.value.code.res.Nil? == ok;
      var ms :| Steady(ms) && Run(cfg, Begin(), ms) == s;
      CloseStatus(cfg, ms);
    }
    if st in CloseTable(a, ok) {
      TableIsReached(cfg, good, bad, a, ok, st);
    }
  }

  lemma TableIsReached(cfg: Config, good: Bytes, bad: Bytes, a: Act, ok: bool, st: Status)
    requires Good(cfg) && |cfg.specs| > 0
    requires Passes(cfg, good) && Resizable(cfg, good) && !Passes(cfg, bad)
    requires st in CloseTable(a, ok)
    ensures ClosesWith(cfg, a, ok, st)
  {
    match a
    case ActAbandon =>
      var s := ToAbandon(cfg, NoFault);
      if ok { AbandonSucceeds(cfg, s); } else { AbandonFails(cfg, s, if st.Pending? then Before else After); }
    case ActValidate =>
      if st.Rejected? { ValidateRejects(cfg, bad); }
      else { ValidateFails(cfg, good, if st.Pending? then Before else After); }
    case ActProcessing =>
      var s := ToProcessing(cfg, good);
      MarkFails(cfg, s, a, Validating, if st.Validating? then Before else After);
    case ActComplete => CompleteIsReached(cfg, good, ok, st);
    case ActFail =>
      var s := ToLast(cfg, good, false);
      MarkFails(cfg, s, a, Processing, if st.Processing? then Before else After);
    case ActResize(_) =>
  }

  lemma CompleteIsReached(cfg: Config, good: Bytes, ok: bool, st: Status)
    requires Good(cfg) && |cfg.specs| > 0 && Passes(cfg, good) && Resizable(cfg, good)
    requires st in CloseTable(ActComplete, ok)
    ensures ClosesWith(cfg, ActComplete, ok, st)
  {
    var s := ToLast(cfg, good, true);
    if ok {
      MarkSucceeds(cfg, s, ActComplete);
      CloseTask(cfg, Run(cfg, s, MarkTry(ActComplete, NoFault)), ActComplete, true);
    } else {
      MarkFails(cfg, s, ActComplete, Processing, if st.Processing? then Before else After);
    }
  }
}
