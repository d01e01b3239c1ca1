/** The upload URL's lifetime against the workflow's timer. */
module Deadline {
  import opened Types
  import opened Attempts
  import opened Workflow
  import opened Machine
  import opened Inv
  import opened Safety
  import opened SafetyTheorems

  /** A PUT accepted once the timer has fired falls into a window that ends with the URL and is
      shorter than the delay between starting the timer and signing the URL; so there is no such
      window unless the URL was signed after the timer was started. */
  lemma LatePutWindow(cfg: Config, ms: seq<Move>)
    requires Good(cfg)
    requires var s := Run(cfg, Begin(), ms); s.wf.Some? && s.wf.value.timer.Fired? && Accepts(s)
    ensures var s := Run(cfg, Begin(), ms);
            var fires := s.wf.value.timer.at + UPLOAD_TIMEOUT;
            && fires <= s.now < s.url.value + PRESIGN_TTL
            && s.now - fires < s.url.value - s.wf.value.timer.at
            && s.wf.value.timer.at < s.url.value
  {
    RunSafe(cfg, Begin(), ms);
  }

  /** Once issued, a URL is never replaced, revoked or renewed. */
  lemma {:induction false} UrlStays(cfg: Config, s: Upload, ms: seq<Move>)
    requires s.neg.Issued?
    ensures Run(cfg, s, ms).url == s.url && Run(cfg, s, ms).neg.Issued?
    decreases |ms|
  {
    if ms != [] {
      UrlStays(cfg, s, ms[..|ms| - 1]);
    }
  }

  // ---- The timer once the branch is chosen ----

  lemma ChosenIsOver(n: nat, wf: Wf)
    requires WfInv(n, wf) && Phase(wf.code).Some?
    ensures TimerOver(wf.timer)
  {
  }

  lemma OverStays(cfg: Config, s: Upload, m: Move)
    requires Good(cfg) && SInv(cfg, s) && s.wf.Some? && TimerOver(s.wf.value.timer)
    ensures Step(cfg, s, m).wf.Some? && Step(cfg, s, m).wf.value.timer == s.wf.value.timer
  {
    if m.Crash? {
      CrashIsInvisible(|cfg.specs|, s.wf.value, s.now);
    } else if m.RunTask? {
      TaskStartsNoTimer(|cfg.specs|, s.wf.value);
    }
  }

  lemma {:induction false} OverStaysInRun(cfg: Config, s: Upload, ms: seq<Move>)
    requires Good(cfg) && SInv(cfg, s) && s.wf.Some? && TimerOver(s.wf.value.timer)
    ensures Run(cfg, s, ms).wf.Some? && Run(cfg, s, ms).wf.value.timer == s.wf.value.timer
    decreases |ms|
  {
    if ms != [] {
      OverStaysInRun(cfg, s, ms[..|ms| - 1]);
      RunSafe(cfg, s, ms[..|ms| - 1]);
      OverStays(cfg, Run(cfg, s, ms[..|ms| - 1]), ms[|ms| - 1]);
    }
  }

  /** In every run: once Validate is scheduled the timer is not armed, having been cancelled or having
      fired before; it stays as it is, and whether the history holds a firing is settled, for ever. So no
      timer lingers behind a signalled upload. */
  lemma NoZombieTimer(cfg: Config, ms: seq<Move>, later: seq<Move>)
    requires Good(cfg)
    requires var s := Run(cfg, Begin(), ms); s.wf.Some? && IsScheduled(s.wf.value, ActValidate)
    ensures var s, t := Run(cfg, Begin(), ms), Run(cfg, Begin(), ms + later);
            && !s.wf.value.timer.Armed? && !s.wf.value.timer.Unset?
            && (s.wf.value.timer.Cancelled? <==> TimerFired !in s.wf.value.hist)
            && t.wf.Some? && t.wf.value.timer == s.wf.value.timer
            && (TimerFired in t.wf.value.hist <==> TimerFired in s.wf.value.hist)
  {
    var s := Run(cfg, Begin(), ms);
    RunSafe(cfg, Begin(), ms);
    RunSafe(cfg, s, later);
    ValidateIsPhased(|cfg.specs|, s.wf.value);
    ChosenIsOver(|cfg.specs|, s.wf.value);
    OverStaysInRun(cfg, s, later);
    RunAppend(cfg, Begin(), ms, later);
  }

  lemma ValidateIsPhased(n: nat, wf: Wf)
    requires FutsFit(n, wf) && IsScheduled(wf, ActValidate)
    ensures Phase(wf.code).Some?
  {
    assert Scheduled(n, wf.code, ActValidate);
  }

  // ---- What the delete of Abandon leaves ----

  predicate Removed(wf: Wf) {
    Remove in wf.log
  }

  /** The workflow has taken the timer branch, Abandon's delete took effect, and the URL had been
      signed by the time the timer was started. */
  predicate Swept(s: Upload) {
    && s.wf.Some? && IsScheduled(s.wf.value, ActAbandon) && Removed(s.wf.value)
    && !s.wf.value.timer.Unset?
    && s.url.Some? && s.url.value <= s.wf.value.timer.at
  }

  lemma AbandonFired(n: nat, wf: Wf)
    requires WfInv(n, wf) && IsScheduled(wf, ActAbandon)
    ensures wf.timer.Fired? && FutOf(wf.futs, ActValidate).Idle?
  {
  }

  lemma RemovedEarned(wf: Wf)
    requires LogInv(wf) && Removed(wf)
    ensures IsScheduled(wf, ActAbandon) || Doomed(wf)
  {
  }

  /** What a move that is not a call leaves of the deletion, the timer and the branch. */
  ghost predicate SweptFacts(v: Wf, w: Wf) {
    && w.log == v.log
    && (IsScheduled(w, ActAbandon) ==> w.timer.Fired?)
    && (!v.timer.Unset? ==> !w.timer.Unset? && w.timer.at == v.timer.at)
    && (IsScheduled(v, ActAbandon) ==> IsScheduled(w, ActAbandon))
    && (Removed(w) && IsScheduled(w, ActAbandon) ==> IsScheduled(v, ActAbandon))
  }

  lemma MoveSweeps(n: nat, wf: Wf, now: nat, m: Move)
    requires WfInv(n, wf) && LogInv(wf)
    ensures SweptFacts(wf, WfStep(n, wf, now, m))
  {
    var w := WfStep(n, wf, now, m);
    WfStepKeeps(n, wf, now, m);
    WfStepGrows(n, wf, now, m);
    if !wf.timer.Unset? { TimerStays(n, wf, now, m); }
    if IsScheduled(w, ActAbandon) {
      AbandonFired(n, w);
      if Removed(wf) { RemovedEarned(wf); }
    }
  }

  lemma SweptStep(cfg: Config, s: Upload, m: Move)
    requires Good(cfg) && SInv(cfg, s) && (Swept(s) ==> ORIGINAL !in s.env.objs)
    ensures Swept(Step(cfg, s, m)) ==> ORIGINAL !in Step(cfg, s, m).env.objs
    ensures Swept(s) ==> Swept(Step(cfg, s, m))
  {
    if s.wf.Some? {
      if m.Call? || m.LateCall? {
        if CallOf(cfg, s.wf.value, m).Some? { SweptCall(cfg, s, m); }
      } else {
        MoveSweeps(|cfg.specs|, s.wf.value, s.now, m);
        ClocksKeep(cfg, s, m);
        SweptWorker(cfg, s, m);
      }
    }
  }

  lemma SweptCall(cfg: Config, s: Upload, m: Move)
    requires Good(cfg) && SInv(cfg, s) && (Swept(s) ==> ORIGINAL !in s.env.objs)
    requires s.wf.Some? && CallOf(cfg, s.wf.value, m).Some?
    ensures Swept(CallStep(cfg, s, m)) ==> ORIGINAL !in CallStep(cfg, s, m).env.objs
    ensures Swept(s) ==> Swept(CallStep(cfg, s, m))
  {
    var wf := s.wf.value;
    CallIsEarned(cfg, wf, m, Acked);
    DeliverGrows(cfg, wf, m, Perform(cfg, s.env, CallOf(cfg, wf, m).value, FaultOf(m)).1);
  }

  lemma TimerStays(n: nat, wf: Wf, now: nat, m: Move)
    requires WfInv(n, wf) && !wf.timer.Unset?
    ensures !WfStep(n, wf, now, m).timer.Unset? && WfStep(n, wf, now, m).timer.at == wf.timer.at
  {
    if m.Crash? {
      CrashIsInvisible(n, wf, now);
    } else if m.RunTask? && !Ended(wf) && TaskDue(wf) {
      TaskSees(n, wf);
      TaskStartsNoTimer(n, wf);
    }
  }

  lemma TaskStartsNoTimer(n: nat, wf: Wf)
    requires WfInv(n, wf) && !wf.timer.Unset?
    ensures StartTimer !in Advance(n, wf.code, wf.hist + [Task]).cmds
  {
  }

  lemma SweptWorker(cfg: Config, s: Upload, m: Move)
    requires Chain(s) && Clocks(s) && Clocks(Step(cfg, s, m)) && (Swept(s) ==> ORIGINAL !in s.env.objs)
    requires s.wf.Some? && !m.Call? && !m.LateCall?
    requires SweptFacts(s.wf.value, WfStep(|cfg.specs|, s.wf.value, s.now, m))
    ensures Swept(Step(cfg, s, m)) ==> ORIGINAL !in Step(cfg, s, m).env.objs
    ensures Swept(s) ==> Swept(Step(cfg, s, m))
  {
  }

  lemma {:induction false} SweptRun(cfg: Config, s: Upload, ms: seq<Move>)
    requires Good(cfg) && SInv(cfg, s) && (Swept(s) ==> ORIGINAL !in s.env.objs)
    ensures var t := Run(cfg, s, ms);
            && SInv(cfg, t) && (Swept(s) ==> Swept(t)) && (Swept(t) ==> ORIGINAL !in t.env.objs)
    decreases |ms|
  {
    if ms != [] {
      SweptRun(cfg, s, ms[..|ms| - 1]);
      StepSafe(cfg, Run(cfg, s, ms[..|ms| - 1]), ms[|ms| - 1]);
      SweptStep(cfg, Run(cfg, s, ms[..|ms| - 1]), ms[|ms| - 1]);
    }
  }

  /** If the URL was signed no later than the timer was started, then once Abandon's delete has
      taken effect there is no original, in that and in all later states. */
  lemma AbandonedStaysEmpty(cfg: Config, ms: seq<Move>, later: seq<Move>)
    requires Good(cfg) && Swept(Run(cfg, Begin(), ms))
    ensures ORIGINAL !in Run(cfg, Begin(), ms).env.objs
    ensures ORIGINAL !in Run(cfg, Begin(), ms + later).env.objs
  {
    SweptRun(cfg, Begin(), ms);
    SweptRun(cfg, Run(cfg, Begin(), ms), later);
    RunAppend(cfg, Begin(), ms, later);
  }
}
