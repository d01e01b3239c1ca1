/** What every reachable state of one upload satisfies, and the safety theorems that follow. None
    of this needs attempts to stop when they time out. */
module Safety {
  import opened Types
  import opened Attempts
  import opened Workflow
  import opened Machine
  import opened History
  import opened Inv

  /** Validate has failed, or its only attempt is on the way to fail. */
  predicate Doomed(wf: Wf) {
    match FutOf(wf.futs, ActValidate)
    case Running(_, att) => att.VDrop? || att.VReject? || (att.Done? && att.res.Err?)
    case Finished(_, r) => r.Err?
    case _ => false
  }

  predicate Succeeded(wf: Wf, a: Act) {
    Outcome(FutOf(wf.futs, a)) == Some(Ok)
  }

  /** The activity has succeeded, or its running attempt has and is yet to be reported. */
  predicate Achieved(wf: Wf, a: Act) {
    match FutOf(wf.futs, a)
    case Running(_, att) => att == Done(Ok)
    case Finished(_, r) => r.Ok?
    case _ => false
  }

  predicate IsScheduled(wf: Wf, a: Act) {
    !FutOf(wf.futs, a).Idle?
  }

  /** Negotiate's effects come in order: a row, then a workflow, then a URL, then objects. */
  ghost predicate Chain(s: Upload) {
    && (s.neg.Fresh? ==> s.env.row.None?)
    && (s.neg.Fresh? || s.neg.RowMade? ==> s.wf.None?)
    && (s.neg.RowMade? || s.neg.Started? || s.neg.Issued? ==> s.env.row.Some?)
    && (s.neg.Started? || s.neg.Issued? ==> s.wf.Some?)
    && (s.neg.Issued? <==> s.url.Some?)
    && (s.wf.Some? ==> s.env.row.Some?)
    && (s.wf.None? ==> s.env.row.Some? ==> s.env.row.value.status.Pending?)
    && (s.url.None? ==> ORIGINAL !in s.env.objs)
    && (s.wf.None? ==> s.env.objs == map[])
  }

  ghost predicate Clocks(s: Upload) {
    && (s.url.Some? ==> s.url.value <= s.now)
    && (s.wf.Some? && !s.wf.value.timer.Unset? ==> s.wf.value.timer.at <= s.now)
    && (s.wf.Some? && s.wf.value.timer.Fired? ==> s.wf.value.timer.at + UPLOAD_TIMEOUT <= s.now)
  }

  predicate Variant(cfg: Config, wf: Wf, name: string) {
    exists i :: 0 <= i < |cfg.specs| && cfg.specs[i].name == name && Begun(FutOf(wf.futs, ActResize(i)))
  }

  ghost predicate StoreInv(cfg: Config, e: Env, wf: Wf) {
    && (Achieved(wf, ActValidate) ==> ORIGINAL in e.objs)
    && (forall i :: 0 <= i < |cfg.specs| && Achieved(wf, ActResize(i)) ==> cfg.specs[i].name in e.objs)
    && (e.row.Some? && e.row.value.status.Complete? ==> IsScheduled(wf, ActComplete))
    && (forall name :: name in e.objs && name != ORIGINAL ==> Variant(cfg, wf, name))
  }

  /** Which writes the trace can hold, given how far the workflow has come. */
  ghost predicate Logged(wf: Wf, op: Op) {
    match op
    case Remove => IsScheduled(wf, ActAbandon) || Doomed(wf)
    case Store(_, _) => Succeeded(wf, ActValidate)
    case Update(Abandoned) => IsScheduled(wf, ActAbandon)
    case Update(Rejected) => Doomed(wf)
    case Update(Complete) => IsScheduled(wf, ActComplete)
    case Update(Failed) => IsScheduled(wf, ActFail)
    case _ => true
  }

  ghost predicate LogInv(wf: Wf) {
    forall j :: 0 <= j < |wf.log| ==> Logged(wf, wf.log[j])
  }

  ghost predicate SInv(cfg: Config, s: Upload) {
    && Chain(s)
    && Clocks(s)
    && (s.wf.Some? ==>
          && WfInv(|cfg.specs|, s.wf.value)
          && StoreInv(cfg, s.env, s.wf.value)
          && LogInv(s.wf.value))
  }

  // ---- Progress is never undone ----

  ghost predicate Grows(v: Wf, w: Wf) {
    && (forall a :: !FutOf(v.futs, a).Idle? ==> !FutOf(w.futs, a).Idle?)
    && (forall a :: Begun(FutOf(v.futs, a)) ==> Begun(FutOf(w.futs, a)))
    && (forall a :: FutOf(v.futs, a).Finished? ==> FutOf(w.futs, a) == FutOf(v.futs, a))
    && (Doomed(v) ==> Doomed(w))
  }

  lemma SettleGrows(n: nat, wf: Wf, a: Act, used: nat, r: Result, late: seq<Late>)
    requires FutFits(ActValidate, FutOf(wf.futs, ActValidate))
    requires FutOf(wf.futs, a).Running? && used == FutOf(wf.futs, a).used && used > 0
    requires a.ActValidate? && Doomed(wf) ==> r.Err?
    requires r.Ok? ==> Achieved(wf, a)
    ensures Grows(wf, Settle(wf.(late := late), a, used, r))
    ensures forall b :: Achieved(Settle(wf.(late := late), a, used, r), b) ==> Achieved(wf, b)
  {
  }

  lemma TaskGrows(n: nat, wf: Wf, now: nat)
    requires WfInv(n, wf)
    ensures Grows(wf, TaskStep(n, wf, now))
    ensures TaskStep(n, wf, now).late == wf.late && TaskStep(n, wf, now).log == wf.log
    ensures forall a :: IsScheduled(wf, a) ==> FutOf(TaskStep(n, wf, now).futs, a) == FutOf(wf.futs, a)
    ensures forall a :: !IsScheduled(wf, a) ==> FutOf(TaskStep(n, wf, now).futs, a) in {Idle, Backoff(0)}
  {
    if !Ended(wf) && TaskDue(wf) {
      TaskSees(n, wf);
      TaskAdvances(n, wf, wf.hist + [Task]);
      var cmds := Advance(n, wf.code, wf.hist + [Task]).cmds;
      var futs := Launch(wf.futs, cmds);
      forall a
        ensures IsScheduled(wf, a) ==> FutOf(futs, a) == FutOf(wf.futs, a)
        ensures !IsScheduled(wf, a) ==> FutOf(futs, a) in {Idle, Backoff(0)}
      {
        LaunchFut(wf.futs, cmds, a);
      }
    }
  }

  lemma WorkerStepGrows(n: nat, wf: Wf, now: nat, m: Move)
    requires forall a :: FutFits(a, FutOf(wf.futs, a))
    requires !m.RunTask? && !m.Crash?
    ensures Grows(wf, WfStep(n, wf, now, m))
    ensures forall a :: Achieved(WfStep(n, wf, now, m), a) ==> Achieved(wf, a)
  {
    match m
    case Report(a) =>
      var f := FutOf(wf.futs, a);
      if f.Running? && f.att.Done? { SettleGrows(n, wf, a, f.used, f.att.res, wf.late); }
    case Expire(a, lingers) =>
      var f := FutOf(wf.futs, a);
      if f.Running? {
        SettleGrows(n, wf, a, f.used, Err(TimedOut), if lingers then wf.late + [Late(a, f.att)] else wf.late);
      }
    case _ =>
  }

  lemma WfStepGrows(n: nat, wf: Wf, now: nat, m: Move)
    requires WfInv(n, wf)
    ensures Grows(wf, WfStep(n, wf, now, m))
    ensures WfStep(n, wf, now, m).log == wf.log
    ensures forall a :: Achieved(WfStep(n, wf, now, m), a) ==> Achieved(wf, a)
  {
    if m.RunTask? {
      TaskGrows(n, wf, now);
    } else if m.Crash? {
      CrashIsInvisible(n, wf, now);
    } else {
      WorkerStepGrows(n, wf, now, m);
    }
  }

  lemma DeliverGrows(cfg: Config, wf: Wf, m: Move, reply: Reply)
    requires WfInv(|cfg.specs|, wf) && CallOf(cfg, wf, m).Some?
    ensures Grows(wf, Deliver(cfg, wf, m, reply))
  {
  }

  lemma LogGrows(v: Wf, w: Wf)
    requires Grows(v, w) && LogInv(v)
    ensures forall j :: 0 <= j < |v.log| ==> Logged(w, v.log[j])
  {
  }

  lemma ResizeNeedsValidate(n: nat, wf: Wf, i: nat)
    requires WfInv(n, wf) && IsScheduled(wf, ActResize(i))
    ensures i < n && Succeeded(wf, ActValidate) && Succeeded(wf, ActProcessing)
  {
  }

  // ---- Each external call is one the workflow has earned ----

  /** The activity and attempt a call belongs to. */
  function Caller(wf: Wf, m: Move): (Act, Attempt)
    requires (m.Call? && FutOf(wf.futs, m.a).Running?) || (m.LateCall? && m.j < |wf.late|)
  {
    if m.Call? then (m.a, FutOf(wf.futs, m.a).att) else (wf.late[m.j].a, wf.late[m.j].att)
  }

  lemma CallIsEarned(cfg: Config, wf: Wf, m: Move, reply: Reply)
    requires WfInv(|cfg.specs|, wf) && CallOf(cfg, wf, m).Some?
    ensures Logged(Deliver(cfg, wf, m, reply), CallOf(cfg, wf, m).value)
    ensures var op := CallOf(cfg, wf, m).value;
            && (op == Update(Complete) ==> IsScheduled(wf, ActComplete))
            && (op.Remove? ==> !Achieved(wf, ActValidate))
            && (op.Store? ==> Variant(cfg, wf, op.name))
  {
    var n := |cfg.specs|;
    var (a, att) := Caller(wf, m);
    assert Begun(FutOf(wf.futs, a)) && Fits(a, att);
    assert Scheduled(n, wf.code, a);
    if a.ActResize? {
      ResizeNeedsValidate(n, wf, a.i);
      assert SpecOf(cfg, a) == cfg.specs[a.i] && a == ActResize(a.i);
    }
    if a.ActAbandon? {
      assert FutOf(wf.futs, ActValidate).Idle?;
    }
    if att.VDrop? {
      assert m.LateCall? ==> Doomed(wf);
    }
  }

  // ---- Every step keeps the invariant ----

  lemma WfStepSafe(cfg: Config, e: Env, wf: Wf, now: nat, m: Move)
    requires WfInv(|cfg.specs|, wf) && StoreInv(cfg, e, wf) && LogInv(wf)
    ensures var w := WfStep(|cfg.specs|, wf, now, m);
            WfInv(|cfg.specs|, w) && StoreInv(cfg, e, w) && LogInv(w)
  {
    var w := WfStep(|cfg.specs|, wf, now, m);
    WfStepKeeps(|cfg.specs|, wf, now, m);
    WfStepGrows(|cfg.specs|, wf, now, m);
    LogGrows(wf, w);
  }

  lemma DeliverSafe(cfg: Config, e: Env, wf: Wf, m: Move)
    requires WfInv(|cfg.specs|, wf) && StoreInv(cfg, e, wf) && LogInv(wf)
    requires CallOf(cfg, wf, m).Some?
    ensures var (e', reply) := Perform(cfg, e, CallOf(cfg, wf, m).value, FaultOf(m));
            var w := Deliver(cfg, wf, m, reply);
            WfInv(|cfg.specs|, w) && StoreInv(cfg, e', w) && LogInv(w)
  {
    var (e', reply) := Perform(cfg, e, CallOf(cfg, wf, m).value, FaultOf(m));
    var w := Deliver(cfg, wf, m, reply);
    DeliverKeeps(cfg, wf, m, reply);
    DeliverGrows(cfg, wf, m, reply);
    CallIsEarned(cfg, wf, m, reply);
    LogGrows(wf, w);
    StoreKeeps(cfg, e, wf, m);
  }

  /** An activity is achieved by the reply to the call that does its work. */
  lemma CallAchieves(cfg: Config, e: Env, wf: Wf, m: Move, a: Act)
    requires WfInv(|cfg.specs|, wf) && CallOf(cfg, wf, m).Some?
    requires var (e', reply) := Perform(cfg, e, CallOf(cfg, wf, m).value, FaultOf(m));
             Achieved(Deliver(cfg, wf, m, reply), a) && !Achieved(wf, a)
    ensures var e' := Perform(cfg, e, CallOf(cfg, wf, m).value, FaultOf(m)).0;
            && (a.ActValidate? ==> ORIGINAL in e'.objs)
            && (a.ActResize? && a.i < |cfg.specs| ==> cfg.specs[a.i].name in e'.objs)
  {
  }

  /** A call that deletes the original belongs to a workflow with no resizes. */
  lemma RemoveIsAlone(cfg: Config, wf: Wf, m: Move)
    requires WfInv(|cfg.specs|, wf) && CallOf(cfg, wf, m) == Some(Remove)
    ensures forall i :: !IsScheduled(wf, ActResize(i))
  {
  }

  lemma StoreKeeps(cfg: Config, e: Env, wf: Wf, m: Move)
    requires WfInv(|cfg.specs|, wf) && StoreInv(cfg, e, wf)
    requires CallOf(cfg, wf, m).Some?
    ensures var (e', reply) := Perform(cfg, e, CallOf(cfg, wf, m).value, FaultOf(m));
            StoreInv(cfg, e', Deliver(cfg, wf, m, reply))
  {
    var op := CallOf(cfg, wf, m).value;
    var (e', reply) := Perform(cfg, e, op, FaultOf(m));
    var w := Deliver(cfg, wf, m, reply);
    CallIsEarned(cfg, wf, m, reply);
    DeliverGrows(cfg, wf, m, reply);
    if op.Remove? {
      RemoveIsAlone(cfg, wf, m);
    }
    forall a | Achieved(w, a)
      ensures a.ActValidate? ==> ORIGINAL in e'.objs
      ensures a.ActResize? && a.i < |cfg.specs| ==> cfg.specs[a.i].name in e'.objs
    {
      if !Achieved(wf, a) {
        CallAchieves(cfg, e, wf, m, a);
      }
    }
    forall name | name in e'.objs && name != ORIGINAL
      ensures Variant(cfg, w, name)
    {
      VariantGrows(cfg, wf, w, name);
    }
  }

  lemma VariantGrows(cfg: Config, v: Wf, w: Wf, name: string)
    requires Grows(v, w)
    ensures Variant(cfg, v, name) ==> Variant(cfg, w, name)
  {
  }

  ghost predicate ClockFits(now: nat, timer: Timer) {
    && (!timer.Unset? ==> timer.at <= now)
    && (timer.Fired? ==> timer.at + UPLOAD_TIMEOUT <= now)
  }

  lemma TimerKeeps(n: nat, wf: Wf, now: nat, m: Move)
    requires WfInv(n, wf) && ClockFits(now, wf.timer)
    ensures ClockFits(now, WfStep(n, wf, now, m).timer)
  {
  }

  lemma ClocksKeep(cfg: Config, s: Upload, m: Move)
    requires SInv(cfg, s)
    ensures Clocks(Step(cfg, s, m))
  {
    if s.wf.Some? && !m.Call? && !m.LateCall? {
      TimerKeeps(|cfg.specs|, s.wf.value, s.now, m);
    }
  }

  lemma ChainKeeps(cfg: Config, s: Upload, m: Move)
    requires Good(cfg) && SInv(cfg, s)
    ensures Chain(Step(cfg, s, m))
  {
    if s.wf.Some? && (m.Call? || m.LateCall?) && CallOf(cfg, s.wf.value, m).Some? {
      CallIsEarned(cfg, s.wf.value, m, Acked);
    }
  }

  lemma StepSafe(cfg: Config, s: Upload, m: Move)
    requires Good(cfg) && SInv(cfg, s)
    ensures SInv(cfg, Step(cfg, s, m))
  {
    ClocksKeep(cfg, s, m);
    ChainKeeps(cfg, s, m);
    if s.wf.Some? {
      WfPartSafe(cfg, s, m);
    } else if m.StartWf? {
      NewWfInv(|cfg.specs|);
    }
  }

  lemma WfPartSafe(cfg: Config, s: Upload, m: Move)
    requires SInv(cfg, s) && s.wf.Some?
    ensures var t := Step(cfg, s, m);
            t.wf.Some? && WfInv(|cfg.specs|, t.wf.value) && StoreInv(cfg, t.env, t.wf.value) && LogInv(t.wf.value)
  {
    var wf := s.wf.value;
    if m.Call? || m.LateCall? {
      if CallOf(cfg, wf, m).Some? {
        DeliverSafe(cfg, s.env, wf, m);
      }
    } else {
      WfStepSafe(cfg, s.env, wf, s.now, m);
    }
  }

  lemma NewWfInv(n: nat)
    ensures WfInv(n, NEW_WF)
  {
  }

  lemma {:induction false} RunSafe(cfg: Config, s: Upload, ms: seq<Move>)
    requires Good(cfg) && SInv(cfg, s)
    ensures SInv(cfg, Run(cfg, s, ms))
    decreases |ms|
  {
    if ms != [] {
      RunSafe(cfg, s, ms[..|ms| - 1]);
      StepSafe(cfg, Run(cfg, s, ms[..|ms| - 1]), ms[|ms| - 1]);
    }
  }
}
