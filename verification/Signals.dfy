/** Completion signals: the first one delivered while the workflow waits decides, it is never lost,
    and every other one changes nothing but the recorded history. */
module Signals {
  import opened Types
  import opened Attempts
  import opened Workflow
  import opened Machine
  import opened History
  import opened Inv
  import opened Safety
  import opened SafetyTheorems
  import opened StatusOrder

  /** Equal but for the recorded signals and the workflow tasks they caused. */
  ghost predicate Twins(v: Wf, w: Wf) {
    && v.code == w.code && v.issued == w.issued && v.futs == w.futs && v.timer == w.timer
    && v.late == w.late && v.log == w.log
    && (Phase(v.code).None? ==> (Signaled in v.hist <==> Signaled in w.hist))
  }

  ghost predicate Twin(s: Upload, t: Upload) {
    && s.now == t.now && s.env == t.env && s.neg == t.neg && s.url == t.url
    && (s.wf.Some? <==> t.wf.Some?)
    && (s.wf.Some? ==> Twins(s.wf.value, t.wf.value))
  }

  // ---- A task with nothing new to see ----

  lemma {:induction false} ScanSame(n: nat, h: seq<Event>, g: seq<Event>, k: nat, err: Option<Res>)
    requires k <= n && forall a :: Seen(h, a) == Seen(g, a)
    ensures Scan(n, h, k, err) == Scan(n, g, k, err)
    decreases n - k
  {
    if k < n {
      assert Seen(h, ActResize(k)) == Seen(g, ActResize(k));
      match Seen(h, ActResize(k))
      case None =>
      case Some(Ok) => ScanSame(n, h, g, k + 1, err);
      case Some(Err(w)) => ScanSame(n, h, g, k + 1, Some(Error(ActResize(k), w)));
    }
  }

  lemma ExecSame(n: nat, h: seq<Event>, g: seq<Event>)
    requires forall a :: Seen(h, a) == Seen(g, a)
    requires Choose(h) == Choose(g) && (Task in h <==> Task in g)
    ensures Exec(n, h) == Exec(n, g)
  {
    ScanSame(n, h, g, 0, None);
    assert Seen(h, ActValidate) == Seen(g, ActValidate) && Seen(h, ActProcessing) == Seen(g, ActProcessing);
    assert Seen(h, ActAbandon) == Seen(g, ActAbandon);
    assert Seen(h, ActComplete) == Seen(g, ActComplete) && Seen(h, ActFail) == Seen(g, ActFail);
    forall cmds
      ensures AfterGather(n, h, cmds) == AfterGather(n, g, cmds)
    {
    }
  }

  lemma {:induction false} UndecidedSeesNothing(h: seq<Event>)
    requires h != [] && h[|h| - 1].Task? && Choose(h).Undecided?
    ensures Signaled !in h && TimerFired !in h
  {
  }

  /** When no event has come since the last task, running the code again does nothing. */
  lemma NothingNew(n: nat, wf: Wf)
    requires WfInv(n, wf) && !TaskDue(wf)
    ensures Advance(n, wf.code, wf.hist + [Task]) == Trace(wf.code, [])
  {
    var h := wf.hist;
    var g := h + [Task];
    forall a {
      SeenSnoc(h, Task, a);
    }
    assert Visible(h) == h && g[..|h|] == h;
    assert Task in h by {
      assert h[|h| - 1] == Task;
    }
    if Choose(h).Undecided? {
      UndecidedSeesNothing(h);
    }
    ExecSame(n, g, h);
    ReplayGives(n, h, wf.code, wf.issued);
    AdvanceIsExec(n, wf);
    var t := Advance(n, wf.code, g);
    assert wf.issued + t.cmds == wf.issued;
  }

  // ---- Twins stay twins ----

  lemma CollectSame(n: nat, h: seq<Event>, g: seq<Event>, k: nat, err: Option<Res>)
    requires k <= n && forall a :: Seen(h, a) == Seen(g, a)
    ensures Collect(n, h, k, err) == Collect(n, g, k, err)
  {
    ScanSame(n, h, g, k, err);
  }

  lemma AdvanceSame(n: nat, c: Code, h: seq<Event>, g: seq<Event>)
    requires forall a :: Seen(h, a) == Seen(g, a)
    requires Phase(c).None? ==> (Signaled in h <==> Signaled in g) && (TimerFired in h <==> TimerFired in g)
    ensures Advance(n, c, h) == Advance(n, c, g)
  {
    match c
    case Await(a, _) =>
      assert Seen(h, a) == Seen(g, a);
      CollectSame(n, h, g, 0, None);
    case Gather(k, err) => if k <= n { CollectSame(n, h, g, k, err); }
    case _ =>
  }

  lemma TwinAdvance(n: nat, v: Wf, w: Wf)
    requires WfInv(n, v) && WfInv(n, w) && Twins(v, w)
    ensures Advance(n, v.code, v.hist + [Task]) == Advance(n, w.code, w.hist + [Task])
  {
    TaskSees(n, v);
    TaskSees(n, w);
    var h, g := v.hist + [Task], w.hist + [Task];
    forall a
      ensures Seen(h, a) == Seen(g, a)
    {
      assert Seen(h, a) == Outcome(FutOf(v.futs, a)) && Seen(g, a) == Outcome(FutOf(w.futs, a));
    }
    AdvanceSame(n, v.code, h, g);
  }

  lemma TwinTask(n: nat, v: Wf, w: Wf, now: nat)
    requires WfInv(n, v) && WfInv(n, w) && Twins(v, w)
    ensures Twins(TaskStep(n, v, now), TaskStep(n, w, now))
  {
    TwinAdvance(n, v, w);
    if !TaskDue(v) { NothingNew(n, v); }
    if !TaskDue(w) { NothingNew(n, w); }
    TwinIssue(n, v, w, now);
  }

  /** The same commands, or none on the side where no task is due. */
  lemma TwinIssue(n: nat, v: Wf, w: Wf, now: nat)
    requires Twins(v, w)
    requires Advance(n, v.code, v.hist + [Task]) == Advance(n, w.code, w.hist + [Task])
    requires !TaskDue(v) || !TaskDue(w) ==> Advance(n, v.code, v.hist + [Task]) == Trace(v.code, [])
    ensures Twins(TaskStep(n, v, now), TaskStep(n, w, now))
  {
    IssueNothing(v.(hist := v.hist + [Task]), now);
    IssueNothing(w.(hist := w.hist + [Task]), now);
    assert Signaled in v.hist + [Task] <==> Signaled in v.hist;
    assert Signaled in w.hist + [Task] <==> Signaled in w.hist;
  }

  lemma IssueNothing(wf: Wf, now: nat)
    ensures Issue(wf, [], now) == wf
  {
  }

  lemma TwinStep(cfg: Config, s: Upload, t: Upload, m: Move)
    requires SInv(cfg, s) && SInv(cfg, t) && Twin(s, t)
    ensures Twin(Step(cfg, s, m), Step(cfg, t, m))
  {
    if s.wf.Some? {
      var n := |cfg.specs|;
      if m.RunTask? {
        TwinTask(n, s.wf.value, t.wf.value, s.now);
      } else if m.Crash? {
        CrashIsInvisible(n, s.wf.value, s.now);
        CrashIsInvisible(n, t.wf.value, t.now);
      } else {
        TwinWorker(cfg, s, t, m);
      }
    }
  }

  lemma TwinCall(cfg: Config, s: Upload, t: Upload, m: Move)
    requires Twin(s, t) && s.wf.Some? && (m.Call? || m.LateCall?)
    ensures Twin(Step(cfg, s, m), Step(cfg, t, m))
  {
  }

  lemma TwinWorker(cfg: Config, s: Upload, t: Upload, m: Move)
    requires Twin(s, t) && s.wf.Some? && !m.RunTask? && !m.Crash?
    ensures Twin(Step(cfg, s, m), Step(cfg, t, m))
  {
    if m.Call? || m.LateCall? {
      TwinCall(cfg, s, t, m);
    }
  }

  // ---- Dropping the surplus ----

  /** A signal that reaches a workflow still waiting for its first one. */
  predicate Decisive(s: Upload, m: Move) {
    && m.Signal? && !m.fault.Before?
    && s.wf.Some? && !Ended(s.wf.value) && Phase(s.wf.value.code).None? && Signaled !in s.wf.value.hist
  }

  function OneSignal(cfg: Config, ms: seq<Move>): seq<Move> {
    if ms == [] then []
    else
      var rest := ms[..|ms| - 1];
      var m := ms[|ms| - 1];
      if m.Signal? && !Decisive(Run(cfg, Begin(), rest), m) then OneSignal(cfg, rest)
      else OneSignal(cfg, rest) + [m]
  }

  function CountSignals(ms: seq<Move>): nat {
    if ms == [] then 0
    else CountSignals(ms[..|ms| - 1]) + if ms[|ms| - 1].Signal? then 1 else 0
  }

  lemma SurplusIsTwin(cfg: Config, s: Upload, m: Move)
    requires SInv(cfg, s) && m.Signal? && !Decisive(s, m)
    ensures Twin(Step(cfg, s, m), s)
  {
  }

  lemma TwinTransitive(s: Upload, t: Upload, u: Upload)
    requires Twin(s, t) && Twin(t, u)
    ensures Twin(s, u)
  {
  }

  lemma SignaledStays(cfg: Config, s: Upload, m: Move)
    requires SInv(cfg, s) && s.wf.Some?
    ensures var t := Step(cfg, s, m); t.wf.Some? && (Signaled in s.wf.value.hist ==> Signaled in t.wf.value.hist)
  {
  }

  /** Any run, with any number of completion signals before or after close, ends like the run that
      keeps only the one that was consumed: same rows and objects, same program point, commands,
      attempts and writes. */
  lemma {:induction false} SurplusSignalsStutter(cfg: Config, ms: seq<Move>)
    requires Good(cfg)
    ensures Twin(Run(cfg, Begin(), ms), Run(cfg, Begin(), OneSignal(cfg, ms)))
    ensures CountSignals(OneSignal(cfg, ms)) <= 1
    ensures CountSignals(OneSignal(cfg, ms)) == 1 ==>
              var s := Run(cfg, Begin(), ms); s.wf.Some? && Signaled in s.wf.value.hist
    decreases |ms|
  {
    if ms != [] {
      var rest, m := ms[..|ms| - 1], ms[|ms| - 1];
      var s := Run(cfg, Begin(), rest);
      var kept := OneSignal(cfg, rest);
      var t := Run(cfg, Begin(), kept);
      SurplusSignalsStutter(cfg, rest);
      RunSafe(cfg, Begin(), rest);
      RunSafe(cfg, Begin(), kept);
      if s.wf.Some? {
        SignaledStays(cfg, s, m);
      }
      if m.Signal? && !Decisive(s, m) {
        SurplusIsTwin(cfg, s, m);
        TwinTransitive(Step(cfg, s, m), s, t);
      } else {
        TwinStep(cfg, s, t, m);
        RunSnoc(cfg, Begin(), kept, m);
        assert (kept + [m])[..|kept|] == kept;
      }
    }
  }

  /** A signal recorded while the workflow has not chosen its branch, even before its first step and
      even after the timer fired, decides: the next task schedules Validate, and Abandon never is. */
  lemma SignalIsNeverLost(cfg: Config, ms: seq<Move>, later: seq<Move>)
    requires Good(cfg)
    requires var s := Run(cfg, Begin(), ms);
             s.wf.Some? && Phase(s.wf.value.code).None? && Signaled in s.wf.value.hist
    ensures var u := Step(cfg, Run(cfg, Begin(), ms), RunTask);
            u.wf.Some? && u.wf.value.code == Await(ActValidate, None)
    ensures var t := Run(cfg, Begin(), ms + later); t.wf.Some? && !IsScheduled(t.wf.value, ActAbandon)
  {
    var s := Run(cfg, Begin(), ms);
    RunSafe(cfg, Begin(), ms);
    SignalDecides(|cfg.specs|, s.wf.value, s.now);
    SignalWins(cfg, s, later);
    RunAppend(cfg, Begin(), ms, later);
  }

  lemma SignalDecides(n: nat, wf: Wf, now: nat)
    requires WfInv(n, wf) && Phase(wf.code).None? && Signaled in wf.hist
    ensures TaskStep(n, wf, now).code == Await(ActValidate, None)
  {
    EndedMeansClosed(n, wf);
    TaskSees(n, wf);
    if !TaskDue(wf) {
      NothingNew(n, wf);
    }
  }

  lemma {:induction false} SignalWins(cfg: Config, s: Upload, ms: seq<Move>)
    requires Good(cfg) && SInv(cfg, s)
    requires s.wf.Some? && Phase(s.wf.value.code).None? && Signaled in s.wf.value.hist
    ensures var t := Run(cfg, s, ms);
            && SInv(cfg, t) && t.wf.Some? && Signaled in t.wf.value.hist
            && (Phase(t.wf.value.code).None? || IsScheduled(t.wf.value, ActValidate))
            && !IsScheduled(t.wf.value, ActAbandon)
    decreases |ms|
  {
    if ms != [] {
      var t, m := Run(cfg, s, ms[..|ms| - 1]), ms[|ms| - 1];
      SignalWins(cfg, s, ms[..|ms| - 1]);
      StepSafe(cfg, t, m);
      SignaledStays(cfg, t, m);
      StepGrows(cfg, t, m);
      var u := Step(cfg, t, m);
      if Phase(t.wf.value.code).None? { SignalWinsStep(cfg, t, m); }
      ScheduleExcludes(|cfg.specs|, u.wf.value);
    } else {
      assert !Scheduled(|cfg.specs|, s.wf.value.code, ActAbandon);
    }
  }

  lemma CodeStays(cfg: Config, t: Upload, m: Move)
    requires Chain(t) && t.wf.Some? && !m.RunTask? && !m.Crash?
    ensures Step(cfg, t, m).wf.Some? ==> Step(cfg, t, m).wf.value.code == t.wf.value.code
  {
  }

  lemma SignalWinsStep(cfg: Config, t: Upload, m: Move)
    requires Good(cfg) && SInv(cfg, t) && t.wf.Some? && Signaled in t.wf.value.hist
    requires Phase(t.wf.value.code).None?
    ensures Step(cfg, t, m).wf.Some?
    ensures var w := Step(cfg, t, m).wf.value;
            (Phase(w.code).None? && !IsScheduled(w, ActAbandon)) || IsScheduled(w, ActValidate)
  {
    StepSafe(cfg, t, m);
    StepGrows(cfg, t, m);
    if m.RunTask? {
      SignalDecides(|cfg.specs|, t.wf.value, t.now);
      assert Step(cfg, t, m).wf == Some(TaskStep(|cfg.specs|, t.wf.value, t.now));
    } else if m.Crash? {
      CrashIsInvisible(|cfg.specs|, t.wf.value, t.now);
      assert Step(cfg, t, m).wf == t.wf;
    } else {
      CodeStays(cfg, t, m);
    }
    PhaseSchedules(|cfg.specs|, Step(cfg, t, m).wf.value);
  }

  lemma PhaseSchedules(n: nat, wf: Wf)
    requires FutsFit(n, wf)
    ensures Phase(wf.code).None? ==> !IsScheduled(wf, ActAbandon)
    ensures Phase(wf.code) == Some(ActValidate) ==> IsScheduled(wf, ActValidate)
  {
    assert IsScheduled(wf, ActValidate) <==> Scheduled(n, wf.code, ActValidate);
    assert IsScheduled(wf, ActAbandon) <==> Scheduled(n, wf.code, ActAbandon);
  }
}
