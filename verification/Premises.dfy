/** What the timer repairs, and when a swept upload can hold an original again. */
module Premises {
  import opened Types
  import opened Attempts
  import opened Workflow
  import opened Machine
  import opened Inv
  import opened Safety
  import opened SafetyTheorems
  import opened StatusOrder
  import opened Signals
  import opened Blocks
  import opened FanOut
  import opened Deadline
  import opened Progress
  import opened Reachable

  // ---- The timer closes what Negotiate leaves behind ----

  /** The workflow waits, or is about to, and no signal has come. */
  predicate Unsignaled(s: Upload) {
    s.wf.Some? && Phase(s.wf.value.code).None? && Signaled !in s.wf.value.hist
  }

  /** Moves of the clock, the engine and the workers only. */
  predicate ClockWork(ms: seq<Move>) {
    Prompt(ms) && forall i :: 0 <= i < |ms| ==> ms[i].Tick? || ms[i].FireTimer? || EngineMove(ms[i])
  }

  /** A workflow task that finds the timer fired and no signal. */
  lemma TurnToAbandon(n: nat, wf: Wf, now: nat)
    requires WfInv(n, wf) && wf.code.Select? && wf.timer.Fired? && Signaled !in wf.hist && TaskDue(wf)
    ensures TaskStep(n, wf, now) ==
            wf.(code := Await(ActAbandon, None), hist := wf.hist + [Task],
                issued := wf.issued + [Schedule(ActAbandon)], futs := wf.futs[ActAbandon := Backoff(0)])
  {
    EndedMeansClosed(n, wf);
    TaskSees(n, wf);
    assert Advance(n, wf.code, wf.hist + [Task]) == Trace(Await(ActAbandon, None), [Schedule(ActAbandon)]);
    IssueOne(wf.(code := Await(ActAbandon, None), hist := wf.hist + [Task]), Schedule(ActAbandon), now);
  }

  lemma AbandonStep(cfg: Config, s: Upload)
    requires Good(cfg) && SInv(cfg, s) && Unsignaled(s)
    requires s.wf.value.code.Select? && s.wf.value.timer.Fired? && TaskDue(s.wf.value)
    ensures var wf := s.wf.value;
            var t := Step(cfg, s, RunTask);
            && s.env.row.Some?
            && t == s.(wf := Some(wf.(code := Await(ActAbandon, None), hist := wf.hist + [Task],
                                      issued := wf.issued + [Schedule(ActAbandon)],
                                      futs := wf.futs[ActAbandon := Backoff(0)])))
  {
    TurnToAbandon(|cfg.specs|, s.wf.value, s.now);
  }

  /** The fired timer leads to Abandon, which is carried out in one attempt. */
  lemma Reap(cfg: Config, s: Upload) returns (t: Upload, ms: seq<Move>)
    requires Good(cfg) && SInv(cfg, s) && Unsignaled(s)
    requires s.wf.value.code.Select? && s.wf.value.timer.Fired? && TaskDue(s.wf.value)
    ensures ClockWork(ms) && t == Run(cfg, s, ms) && Reaped(s, t)
  {
    var try := AbandonTry(NoFault, NoFault);
    AbandonStep(cfg, s);
    var s1 := Step(cfg, s, RunTask);
    AbandonTryRuns(cfg, s1, NoFault, NoFault);
    var s2 := Run(cfg, s1, try);
    StepSafe(cfg, s, RunTask);
    RunSafe(cfg, s1, try);
    CloseStep(cfg, s2);
    t := Step(cfg, s2, RunTask);
    ms := [RunTask] + (try + [RunTask]);
    RunFirst(cfg, s, RunTask, try + [RunTask]);
    RunSnoc(cfg, s1, try, RunTask);
    assert (s.wf.value.log + [Remove] + [Update(Abandoned)])[|s.wf.value.log|] == Remove;
  }

  /** What carrying out Abandon leaves. */
  predicate Reaped(s: Upload, t: Upload)
    requires s.wf.Some?
  {
    && t.wf.Some? && t.wf.value.code == Closed(ActAbandon, Nil) && t.url == s.url && t.now == s.now
    && t.env.row.Some? && StatusOf(t) == Abandoned && ORIGINAL !in t.env.objs
    && Removed(t.wf.value) && t.wf.value.timer == s.wf.value.timer
  }

  lemma StartWaiting(cfg: Config, s: Upload)
    requires Good(cfg) && SInv(cfg, s) && Unsignaled(s) && s.wf.value.code.Init?
    ensures var t := Step(cfg, s, RunTask);
            SInv(cfg, t) && Unsignaled(t) && t.wf.value.code.Select? && t.wf.value.timer.Armed? && t.url == s.url
  {
    var wf := s.wf.value;
    StepSafe(cfg, s, RunTask);
    FirstStep(|cfg.specs|, wf, s.now);
  }

  lemma FirstStep(n: nat, wf: Wf, now: nat)
    requires WfInv(n, wf) && wf.code.Init? && Signaled !in wf.hist
    ensures var w := TaskStep(n, wf, now); w.code.Select? && w.timer == Armed(now) && w.hist == wf.hist + [Task]
  {
    EndedMeansClosed(n, wf);
    assert TaskDue(wf) by {
      assert wf.hist != [] ==> wf.hist[|wf.hist| - 1] in wf.hist;
    }
    assert Advance(n, wf.code, wf.hist + [Task]) == Trace(Select, [StartTimer] + []);
  }

  lemma LetFire(cfg: Config, s: Upload) returns (t: Upload, ms: seq<Move>)
    requires Good(cfg) && SInv(cfg, s) && Unsignaled(s) && s.wf.value.code.Select?
    ensures ClockWork(ms) && t == Run(cfg, s, ms) && SInv(cfg, t) && Unsignaled(t) && t.url == s.url
    ensures t.wf.value.code.Select? && t.wf.value.timer.Fired? && TaskDue(t.wf.value)
  {
    var wf := s.wf.value;
    if wf.timer.Fired? {
      t, ms := s, [];
      if !TaskDue(wf) { NothingNew(|cfg.specs|, wf); }
    } else {
      EndedMeansClosed(|cfg.specs|, wf);
      var s1 := Step(cfg, s, Tick(UPLOAD_TIMEOUT));
      StepSafe(cfg, s, Tick(UPLOAD_TIMEOUT));
      StepSafe(cfg, s1, FireTimer);
      t, ms := Step(cfg, s1, FireTimer), [Tick(UPLOAD_TIMEOUT)] + [FireTimer];
      RunFirst(cfg, s, Tick(UPLOAD_TIMEOUT), [FireTimer]);
      RunOne(cfg, s1, FireTimer);
      assert wf.timer.at <= s.now;
    }
  }

  /** Any upload with an unsignaled workflow, in any state that satisfies the safety invariant, can be
      closed by the clock and the workers alone, as `abandoned` with no original. */
  lemma TimerReaps(cfg: Config, s: Upload)
    requires Good(cfg) && SInv(cfg, s) && Unsignaled(s)
    ensures exists ms :: ClockWork(ms) && ClosedEmpty(s, Run(cfg, s, ms))
  {
    var s1, ms1 := s, [];
    if s.wf.value.code.Init? {
      StartWaiting(cfg, s);
      RunOne(cfg, s, RunTask);
      s1, ms1 := Step(cfg, s, RunTask), [RunTask];
    }
    var s2, ms2 := LetFire(cfg, s1);
    var t, ms3 := Reap(cfg, s2);
    RunAppend(cfg, s1, ms2, ms3);
    RunAppend(cfg, s, ms1, ms2 + ms3);
    assert ClockWork(ms1 + (ms2 + ms3));
    assert ClosedEmpty(s, Run(cfg, s, ms1 + (ms2 + ms3)));
  }

  predicate ClosedEmpty(s: Upload, t: Upload) {
    && t.wf.Some? && t.wf.value.code == Closed(ActAbandon, Nil) && t.url == s.url
    && t.env.row.Some? && StatusOf(t) == Abandoned && ORIGINAL !in t.env.objs
  }

  /** After any run that has come as far as presigning, with no signal and the branch not chosen: a
      Negotiate that fails there, and nowhere before, leaves no URL, and clock and workers alone then
      close the upload, as `abandoned` with no original. */
  lemma FailedPresignIsReaped(cfg: Config, ms: seq<Move>, fault: Fault)
    requires Good(cfg) && !fault.NoFault?
    requires var s := Run(cfg, Begin(), ms); s.neg.Started? && Unsignaled(s)
    ensures exists later :: ClockWork(later)
              && var t := Run(cfg, Begin(), ms + ([Sign(fault)] + later));
                 && t.url.None? && t.neg.GaveUp? && t.wf.Some? && t.wf.value.code == Closed(ActAbandon, Nil)
                 && t.env.row.Some? && StatusOf(t) == Abandoned && ORIGINAL !in t.env.objs
  {
    var s := Run(cfg, Begin(), ms);
    RunSafe(cfg, Begin(), ms);
    StepSafe(cfg, s, Sign(fault));
    var u := Step(cfg, s, Sign(fault));
    TimerReaps(cfg, u);
    var later :| ClockWork(later) && ClosedEmpty(u, Run(cfg, u, later));
    RunFirst(cfg, s, Sign(fault), later);
    RunAppend(cfg, Begin(), ms, [Sign(fault)] + later);
    GaveUpStays(cfg, u, later);
  }

  lemma {:induction false} GaveUpStays(cfg: Config, s: Upload, ms: seq<Move>)
    requires s.neg.GaveUp?
    ensures Run(cfg, s, ms).neg.GaveUp?
    decreases |ms|
  {
    if ms != [] {
      GaveUpStays(cfg, s, ms[..|ms| - 1]);
    }
  }

  // ---- When an abandoned upload can hold an original again ----

  /** Row and workflow exist, the workflow waits, and the URL is signed `d` seconds later. */
  lemma SignLate(cfg: Config, d: nat) returns (s: Upload)
    requires Good(cfg)
    ensures Reach(cfg, s) && s.now == d && s.url == Some(d) && s.neg.Issued?
    ensures s.wf == Some(Wf(Select, [Task], [StartTimer], map[], Armed(0), [], [])) && s.env.row.Some?
  {
    var s0 := ToUnsigned(cfg);
    FirstTask(|cfg.specs|, 0);
    var s1 := Step(cfg, s0, RunTask);
    ReachStep(cfg, s0, RunTask);
    var s2 := Step(cfg, s1, Tick(d));
    ReachStep(cfg, s1, Tick(d));
    s := Step(cfg, s2, Sign(NoFault));
    ReachStep(cfg, s2, Sign(NoFault));
  }

  /** The timer has fired and nobody has signalled. */
  lemma FireLate(cfg: Config, delay: nat) returns (s: Upload)
    requires Good(cfg) && delay > 0
    ensures Reach(cfg, s) && s.url == Some(delay) && s.now < delay + PRESIGN_TTL && s.env.row.Some?
    ensures Unsignaled(s) && s.wf.value.code.Select? && s.wf.value.timer == Fired(0) && TaskDue(s.wf.value)
  {
    var wait := if delay < UPLOAD_TIMEOUT then UPLOAD_TIMEOUT - delay else 0;
    var s0 := SignLate(cfg, delay);
    var s1 := Step(cfg, s0, Tick(wait));
    ReachStep(cfg, s0, Tick(wait));
    s := Step(cfg, s1, FireTimer);
    ReachStep(cfg, s1, FireTimer);
    assert s.wf.value.hist == [Task] + [TimerFired];
  }

  /** The workflow has closed `abandoned` and its delete took effect. */
  predicate SweptAndClosed(s: Upload) {
    && s.wf.Some? && s.wf.value.code == Closed(ActAbandon, Nil) && Removed(s.wf.value)
    && !s.wf.value.timer.Unset? && s.url.Some? && s.env.row.Some? && StatusOf(s) == Abandoned
  }

  /** Some run ends swept and closed, with an original in the store, the URL having been signed
      `delay` seconds after the timer was started (before it, if negative). */
  ghost predicate HoldsOriginalAgain(cfg: Config, delay: int) {
    exists ms :: HoldsAfter(cfg, ms, delay)
  }

  predicate HoldsAfter(cfg: Config, ms: seq<Move>, delay: int) {
    var s := Run(cfg, Begin(), ms);
    SweptAndClosed(s) && s.url.value == s.wf.value.timer.at + delay && ORIGINAL in s.env.objs
  }

  lemma LateSigningLeavesOriginal(cfg: Config, data: Bytes, delay: nat)
    requires Good(cfg) && delay > 0
    ensures HoldsOriginalAgain(cfg, delay)
  {
    var s2 := FireLate(cfg, delay);
    ReachSafe(cfg, s2);
    var t, ms := Reap(cfg, s2);
    var pre :| Prompt(pre) && Run(cfg, Begin(), pre) == s2;
    RunAppend(cfg, Begin(), pre, ms);
    RunSnoc(cfg, Begin(), pre + ms, ClientPut(data));
    assert t.now < delay + PRESIGN_TTL;
    assert HoldsAfter(cfg, pre + ms + [ClientPut(data)], delay);
  }

  /** For any delay between starting the timer and signing the URL: an upload that has closed
      `abandoned`, its delete done, can hold an original if and only if the URL was signed after the
      timer was started. */
  lemma HoldsOriginalAgainIff(cfg: Config, delay: int)
    requires Good(cfg)
    ensures HoldsOriginalAgain(cfg, delay) <==> delay > 0
  {
    if delay > 0 {
      LateSigningLeavesOriginal(cfg, [], delay);
    } else if HoldsOriginalAgain(cfg, delay) {
      var ms :| HoldsAfter(cfg, ms, delay);
      ClosedIsSwept(cfg, ms);
      AbandonedStaysEmpty(cfg, ms, []);
    }
  }

  lemma ClosedIsSwept(cfg: Config, ms: seq<Move>)
    requires Good(cfg)
    requires var s := Run(cfg, Begin(), ms); SweptAndClosed(s) && s.url.value <= s.wf.value.timer.at
    ensures Swept(Run(cfg, Begin(), ms))
  {
    RunSafe(cfg, Begin(), ms);
    assert Scheduled(|cfg.specs|, Run(cfg, Begin(), ms).wf.value.code, ActAbandon);
  }
}
