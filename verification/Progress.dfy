/** How much the engine and the workers can do, and that they are never stuck. */
module Progress {
  import opened Types
  import opened Attempts
  import opened Workflow
  import opened Machine
  import opened Inv
  import opened Safety
  import opened SafetyTheorems
  import opened Signals
  import opened Blocks

  // ---- A measure ----

  function Rank(n: nat, c: Code): nat {
    match c
    case Init => n + 7
    case Select => n + 6
    case Await(ActValidate, _) => n + 5
    case Await(ActProcessing, _) => n + 4
    case Gather(k, _) => if k < n then 3 + (n - k) else 3
    case Await(_, _) => 2
    case Closed(_, _) => 0
  }

  /** The calls and records an activity can still need. */
  function Work(a: Act, f: Fut): nat {
    match f
    case Idle => 0
    case Backoff(used) => if used < MaxAttempts(a) then 7 * (MaxAttempts(a) - used) else 0
    case Running(used, att) =>
      (if used < MaxAttempts(a) then 7 * (MaxAttempts(a) - used) else 0) + CallsLeft(att) + 1
    case Finished(_, _) => 0
  }

  function ResizeWork(futs: map<Act, Fut>, k: nat): nat {
    if k == 0 then 0 else ResizeWork(futs, k - 1) + Work(ActResize(k - 1), FutOf(futs, ActResize(k - 1)))
  }

  function TotalWork(n: nat, futs: map<Act, Fut>): nat {
    ResizeWork(futs, n)
    + Work(ActValidate, FutOf(futs, ActValidate)) + Work(ActProcessing, FutOf(futs, ActProcessing))
    + Work(ActComplete, FutOf(futs, ActComplete)) + Work(ActFail, FutOf(futs, ActFail))
    + Work(ActAbandon, FutOf(futs, ActAbandon))
  }

  /** More than all the work a set of futures can hold. */
  function Weight(n: nat): nat {
    56 * (n + 5) + 2
  }

  /** `r` times `w`. */
  function Times(r: nat, w: nat): nat {
    if r == 0 then 0 else Times(r - 1, w) + w
  }

  lemma {:induction false} TimesDrops(r: nat, r': nat, w: nat)
    requires r' < r
    ensures Times(r', w) + w <= Times(r, w)
    decreases r
  {
    if r' < r - 1 {
      TimesDrops(r - 1, r', w);
    }
  }

  /** Lexicographic in the program point, the work of the activities in flight, and whether a task
      is due; written as one number. */
  function Measure(n: nat, wf: Wf): nat {
    Times(Rank(n, wf.code), Weight(n)) + 2 * TotalWork(n, wf.futs) + if TaskDue(wf) then 1 else 0
  }

  predicate EngineMove(m: Move) {
    m.RunTask? || m.Dispatch? || m.Call? || m.Report? || m.Expire?
  }

  lemma WorkBound(a: Act, f: Fut)
    requires FutFits(a, f)
    ensures Work(a, f) <= 28
  {
  }

  lemma {:induction false} ResizeWorkBound(futs: map<Act, Fut>, k: nat)
    requires forall a :: FutFits(a, FutOf(futs, a))
    ensures ResizeWork(futs, k) <= 28 * k
  {
    if k > 0 {
      ResizeWorkBound(futs, k - 1);
      WorkBound(ActResize(k - 1), FutOf(futs, ActResize(k - 1)));
    }
  }

  lemma TotalWorkBound(n: nat, futs: map<Act, Fut>)
    requires forall a :: FutFits(a, FutOf(futs, a))
    ensures 2 * TotalWork(n, futs) + 2 <= Weight(n)
  {
    ResizeWorkBound(futs, n);
    WorkBound(ActValidate, FutOf(futs, ActValidate));
    WorkBound(ActProcessing, FutOf(futs, ActProcessing));
    WorkBound(ActComplete, FutOf(futs, ActComplete));
    WorkBound(ActFail, FutOf(futs, ActFail));
    WorkBound(ActAbandon, FutOf(futs, ActAbandon));
  }

  lemma {:induction false} ResizeWorkChange(f: map<Act, Fut>, g: map<Act, Fut>, a: Act, k: nat)
    requires forall b :: b != a ==> FutOf(g, b) == FutOf(f, b)
    ensures ResizeWork(g, k) == ResizeWork(f, k)
              + if InFanOut(k, a) then Work(a, FutOf(g, a)) - Work(a, FutOf(f, a)) else 0
  {
    if k > 0 {
      ResizeWorkChange(f, g, a, k - 1);
      assert a == ActResize(k - 1) || FutOf(g, ActResize(k - 1)) == FutOf(f, ActResize(k - 1));
    }
  }

  lemma WorkChange(n: nat, f: map<Act, Fut>, g: map<Act, Fut>, a: Act)
    requires forall b :: b != a ==> FutOf(g, b) == FutOf(f, b)
    requires a.ActResize? ==> a.i < n
    ensures TotalWork(n, g) == TotalWork(n, f) + Work(a, FutOf(g, a)) - Work(a, FutOf(f, a))
  {
    ResizeWorkChange(f, g, a, n);
  }

  // ---- It drops ----

  lemma TaskDrops(n: nat, wf: Wf, now: nat)
    requires WfInv(n, wf) && TaskStep(n, wf, now) != wf
    ensures Measure(n, TaskStep(n, wf, now)) < Measure(n, wf)
  {
    var w := TaskStep(n, wf, now);
    var t := Advance(n, wf.code, wf.hist + [Task]);
    assert w.code == t.code && !TaskDue(w) && TaskDue(wf);
    TaskRanks(n, wf);
    if t.code == wf.code {
      assert w.futs == wf.futs;
    } else {
      TaskKeeps(n, wf, now);
      TotalWorkBound(n, w.futs);
      TimesDrops(Rank(n, wf.code), Rank(n, w.code), Weight(n));
    }
  }

  lemma TaskRanks(n: nat, wf: Wf)
    requires WfInv(n, wf)
    ensures var t := Advance(n, wf.code, wf.hist + [Task]);
            if t.code == wf.code then t.cmds == [] else Rank(n, t.code) < Rank(n, wf.code)
  {
    var h := wf.hist + [Task];
    TaskSees(n, wf);
    match wf.code
    case Await(a, _) =>
      assert Seen(h, a) == Outcome(FutOf(wf.futs, a));
      if a.ActProcessing? {
        CollectFits(n, h, wf.futs, 0, None);
      }
    case Gather(k, err) =>
      CollectFits(n, h, wf.futs, k, err);
      ScanFinds(n, h, wf.futs, k, err);
    case _ =>
  }

  lemma WorkerWork(cfg: Config, s: Upload, m: Move)
    requires s.wf.Some? && EngineMove(m) && !m.RunTask? && Step(cfg, s, m) != s
    requires FutFits(m.a, FutOf(s.wf.value.futs, m.a))
    ensures var v, w := s.wf.value, Step(cfg, s, m).wf.value;
            && !FutOf(v.futs, m.a).Idle? && w.code == v.code
            && (forall b :: b != m.a ==> FutOf(w.futs, b) == FutOf(v.futs, b))
            && Work(m.a, FutOf(w.futs, m.a)) < Work(m.a, FutOf(v.futs, m.a))
  {
    var f := FutOf(s.wf.value.futs, m.a);
    if m.Call? {
      ResumeFits(cfg, m.a, f.att, Perform(cfg, s.env, Next(cfg, m.a, f.att), m.fault).1);
    }
  }

  lemma WorkerDrops(cfg: Config, s: Upload, m: Move)
    requires SInv(cfg, s) && s.wf.Some? && EngineMove(m) && !m.RunTask? && Step(cfg, s, m) != s
    ensures Measure(|cfg.specs|, Step(cfg, s, m).wf.value) < Measure(|cfg.specs|, s.wf.value)
  {
    var v, w := s.wf.value, Step(cfg, s, m).wf.value;
    WorkerWork(cfg, s, m);
    assert Scheduled(|cfg.specs|, v.code, m.a);
    WorkChange(|cfg.specs|, v.futs, w.futs, m.a);
  }

  /** Every move of the engine or a worker that changes anything lowers the measure. */
  lemma EngineMoveDrops(cfg: Config, s: Upload, m: Move)
    requires SInv(cfg, s) && s.wf.Some? && EngineMove(m) && Step(cfg, s, m) != s
    ensures Measure(|cfg.specs|, Step(cfg, s, m).wf.value) < Measure(|cfg.specs|, s.wf.value)
  {
    if m.RunTask? {
      TaskDrops(|cfg.specs|, s.wf.value, s.now);
    } else {
      WorkerDrops(cfg, s, m);
    }
  }

  /** Only a signal or the timer raises it, by at most one. */
  lemma OtherMovesAdd(cfg: Config, s: Upload, m: Move)
    requires SInv(cfg, s) && s.wf.Some? && !EngineMove(m)
    ensures Measure(|cfg.specs|, Step(cfg, s, m).wf.value)
            <= Measure(|cfg.specs|, s.wf.value) + if m.Signal? || m.FireTimer? then 1 else 0
  {
    if m.Crash? {
      CrashIsInvisible(|cfg.specs|, s.wf.value, s.now);
    }
  }

  /** The moves of the engine and the workers that changed something. */
  function Productive(cfg: Config, s: Upload, ms: seq<Move>): nat {
    if ms == [] then 0
    else
      var rest, m := ms[..|ms| - 1], ms[|ms| - 1];
      Productive(cfg, s, rest)
      + if EngineMove(m) && Step(cfg, Run(cfg, s, rest), m) != Run(cfg, s, rest) then 1 else 0
  }

  function Pokes(ms: seq<Move>): nat {
    if ms == [] then 0
    else Pokes(ms[..|ms| - 1]) + if ms[|ms| - 1].Signal? || ms[|ms| - 1].FireTimer? then 1 else 0
  }

  lemma MoveMeasured(cfg: Config, s: Upload, m: Move)
    requires SInv(cfg, s) && s.wf.Some?
    ensures var t := Step(cfg, s, m);
            && t.wf.Some?
            && (if EngineMove(m) && t != s then 1 else 0) + Measure(|cfg.specs|, t.wf.value)
               <= Measure(|cfg.specs|, s.wf.value) + if m.Signal? || m.FireTimer? then 1 else 0
  {
    if EngineMove(m) {
      if Step(cfg, s, m) != s {
        EngineMoveDrops(cfg, s, m);
      }
    } else {
      OtherMovesAdd(cfg, s, m);
    }
    StepGrows(cfg, s, m);
  }

  /** In any run from any reachable state with a workflow, what the engine and the workers do is
      bounded by the measure there plus the signals and timer firings along the way. */
  lemma {:induction false} EngineTerminates(cfg: Config, s: Upload, ms: seq<Move>)
    requires Good(cfg) && SInv(cfg, s) && s.wf.Some?
    ensures var t := Run(cfg, s, ms);
            && t.wf.Some?
            && Productive(cfg, s, ms) + Measure(|cfg.specs|, t.wf.value)
               <= Measure(|cfg.specs|, s.wf.value) + Pokes(ms)
    decreases |ms|
  {
    if ms != [] {
      var rest := ms[..|ms| - 1];
      EngineTerminates(cfg, s, rest);
      RunSafe(cfg, s, rest);
      MoveMeasured(cfg, Run(cfg, s, rest), ms[|ms| - 1]);
    }
  }

  // ---- It is never stuck ----

  /** The engine move a state calls for. */
  function DueMove(s: Upload): Move
    requires s.wf.Some?
  {
    var wf := s.wf.value;
    if TaskDue(wf) then RunTask
    else
      var a := match wf.code case Await(a, _) => a case Gather(k, _) => ActResize(k) case _ => ActValidate;
      match FutOf(wf.futs, a)
      case Running(_, att) => if att.Done? then Report(a) else Call(a, NoFault)
      case _ => Dispatch(a)
  }

  predicate Waiting(wf: Wf) {
    wf.code.Select? && !TaskDue(wf) && Signaled !in wf.hist && !wf.timer.Fired?
  }

  /** A reachable open workflow can always move on, unless it is waiting at the select with neither
      a signal nor the timer; there, and only there, no engine move changes anything. */
  lemma NeverStuck(cfg: Config, ms: seq<Move>)
    requires Good(cfg) && var s := Run(cfg, Begin(), ms); s.wf.Some? && !Ended(s.wf.value)
    ensures var s := Run(cfg, Begin(), ms);
            && (!Waiting(s.wf.value) ==> EngineMove(DueMove(s)) && Step(cfg, s, DueMove(s)) != s)
            && (Waiting(s.wf.value) ==> forall m :: EngineMove(m) ==> Step(cfg, s, m) == s)
  {
    RunSafe(cfg, Begin(), ms);
    CanMove(cfg, Run(cfg, Begin(), ms));
  }

  lemma CanMove(cfg: Config, s: Upload)
    requires SInv(cfg, s) && s.wf.Some? && !Ended(s.wf.value)
    ensures !Waiting(s.wf.value) ==> EngineMove(DueMove(s)) && Step(cfg, s, DueMove(s)) != s
    ensures Waiting(s.wf.value) ==> forall m :: EngineMove(m) ==> Step(cfg, s, m) == s
  {
    if TaskDue(s.wf.value) {
      TaskChanges(cfg, s);
    } else {
      NotDue(|cfg.specs|, s.wf.value);
      if s.wf.value.code.Select? {
        SelectIsQuiet(cfg, s);
      } else {
        StepsDiffer(cfg, s);
      }
    }
  }

  lemma TaskChanges(cfg: Config, s: Upload)
    requires s.wf.Some? && !Ended(s.wf.value) && TaskDue(s.wf.value)
    ensures DueMove(s) == RunTask && Step(cfg, s, RunTask) != s
  {
  }

  lemma NotDue(n: nat, wf: Wf)
    requires WfInv(n, wf) && !Ended(wf) && !TaskDue(wf)
    ensures wf.code.Select? ==> Signaled !in wf.hist && !wf.timer.Fired?
    ensures !wf.code.Select? ==>
              && (wf.code.Await? || wf.code.Gather?)
              && var a := if wf.code.Await? then wf.code.a else ActResize(wf.code.k);
                 FutFits(a, FutOf(wf.futs, a)) && (FutOf(wf.futs, a).Backoff? || FutOf(wf.futs, a).Running?)
  {
    EndedMeansClosed(n, wf);
    NothingNew(n, wf);
    TaskSees(n, wf);
    WaitsForSomething(n, wf);
  }

  lemma SelectIsQuiet(cfg: Config, s: Upload)
    requires s.wf.Some? && FutsFit(|cfg.specs|, s.wf.value)
    requires s.wf.value.code.Select? && !TaskDue(s.wf.value)
    ensures forall m :: EngineMove(m) ==> Step(cfg, s, m) == s
  {
  }

  /** With no task due, the future the code is blocked on is in flight. */
  lemma WaitsForSomething(n: nat, wf: Wf)
    requires WfInv(n, wf) && !TaskDue(wf) && !wf.code.Closed?
    requires Advance(n, wf.code, wf.hist + [Task]) == Trace(wf.code, [])
    requires forall a :: Seen(wf.hist + [Task], a) == Outcome(FutOf(wf.futs, a))
    ensures wf.code.Select? ==> Signaled !in wf.hist && !wf.timer.Fired?
    ensures !wf.code.Select? ==>
              && (wf.code.Await? || wf.code.Gather?)
              && var a := if wf.code.Await? then wf.code.a else ActResize(wf.code.k);
                 FutOf(wf.futs, a).Backoff? || FutOf(wf.futs, a).Running?
  {
    var h := wf.hist + [Task];
    match wf.code
    case Init =>
    case Select =>
      assert Signaled in wf.hist ==> Signaled in h;
      assert TimerFired in wf.hist ==> TimerFired in h;
    case Await(a, _) =>
      assert Seen(h, a) == Outcome(FutOf(wf.futs, a));
      assert Scheduled(n, wf.code, a);
    case Gather(k, err) =>
      assert Seen(h, ActResize(k)) == Outcome(FutOf(wf.futs, ActResize(k)));
      assert Scheduled(n, wf.code, ActResize(k));
      ScanFinds(n, h, wf.futs, k, err);
      CollectFits(n, h, wf.futs, k, err);
  }

  lemma StepsDiffer(cfg: Config, s: Upload)
    requires s.wf.Some? && !TaskDue(s.wf.value)
    requires s.wf.value.code.Await? || s.wf.value.code.Gather?
    requires var wf := s.wf.value;
             var a := if wf.code.Await? then wf.code.a else ActResize(wf.code.k);
             && FutFits(a, FutOf(wf.futs, a))
             && (FutOf(wf.futs, a).Backoff? || FutOf(wf.futs, a).Running?)
    ensures EngineMove(DueMove(s)) && Step(cfg, s, DueMove(s)) != s
  {
  }

  // ---- It always closes ----

  /** The branch is chosen, or there is something to choose it by. */
  predicate Resolved(wf: Wf) {
    Phase(wf.code).Some? || Signaled in wf.hist || TimerFired in wf.hist
  }

  lemma TaskResolved(n: nat, wf: Wf, now: nat)
    requires Resolved(wf)
    ensures Resolved(TaskStep(n, wf, now))
  {
  }

  lemma EngineMoveResolved(cfg: Config, s: Upload, m: Move)
    requires s.wf.Some? && EngineMove(m) && Resolved(s.wf.value)
    ensures Step(cfg, s, m).wf.Some? && Resolved(Step(cfg, s, m).wf.value)
  {
    if m.RunTask? {
      TaskResolved(|cfg.specs|, s.wf.value, s.now);
    } else if s.wf.value.code == Step(cfg, s, m).wf.value.code {
      assert s.wf.value.hist <= Step(cfg, s, m).wf.value.hist;
    }
  }

  /** From any reachable state in which a signal has come or the timer has fired, the engine and the
      workers can close the workflow by themselves, in at most as many moves as the measure says. */
  lemma {:induction false} EngineCloses(cfg: Config, s: Upload) returns (ms: seq<Move>)
    requires Good(cfg) && SInv(cfg, s) && s.wf.Some? && Resolved(s.wf.value)
    ensures var t := Run(cfg, s, ms); t.wf.Some? && Ended(t.wf.value)
    ensures forall i :: 0 <= i < |ms| ==> EngineMove(ms[i])
    ensures |ms| <= Measure(|cfg.specs|, s.wf.value)
    decreases Measure(|cfg.specs|, s.wf.value)
  {
    if Ended(s.wf.value) {
      ms := [];
    } else {
      CanMove(cfg, s);
      var m := DueMove(s);
      var t := Step(cfg, s, m);
      EngineMoveDrops(cfg, s, m);
      EngineMoveResolved(cfg, s, m);
      StepSafe(cfg, s, m);
      var rest := EngineCloses(cfg, t);
      ms := [m] + rest;
      RunFirst(cfg, s, m, rest);
    }
  }

  // ---- How many attempts ----

  function Used(f: Fut): nat {
    match f
    case Idle => 0
    case Backoff(used) => used
    case Running(used, _) => used
    case Finished(used, _) => used
  }

  function ResizeAttempts(futs: map<Act, Fut>, k: nat): nat {
    if k == 0 then 0 else ResizeAttempts(futs, k - 1) + Used(FutOf(futs, ActResize(k - 1)))
  }

  function AttemptCount(n: nat, futs: map<Act, Fut>): nat {
    ResizeAttempts(futs, n)
    + Used(FutOf(futs, ActValidate)) + Used(FutOf(futs, ActProcessing)) + Used(FutOf(futs, ActComplete))
    + Used(FutOf(futs, ActFail)) + Used(FutOf(futs, ActAbandon))
  }

  lemma {:induction false} ResizeAttemptsBound(futs: map<Act, Fut>, k: nat)
    requires forall a :: FutFits(a, FutOf(futs, a))
    ensures ResizeAttempts(futs, k) <= 3 * k
    ensures (forall i: nat :: i < k ==> FutOf(futs, ActResize(i)).Idle?) ==> ResizeAttempts(futs, k) == 0
  {
    if k > 0 {
      ResizeAttemptsBound(futs, k - 1);
      assert FutFits(ActResize(k - 1), FutOf(futs, ActResize(k - 1)));
    }
  }

  /** A run uses at most 7 + 3n activity attempts in all, and at most 3 if the timer won. */
  lemma AttemptsBounded(cfg: Config, ms: seq<Move>)
    requires Good(cfg) && Run(cfg, Begin(), ms).wf.Some?
    ensures var wf := Run(cfg, Begin(), ms).wf.value;
            var n := |cfg.specs|;
            && AttemptCount(n, wf.futs) <= 7 + 3 * n
            && (IsScheduled(wf, ActAbandon) ==> AttemptCount(n, wf.futs) <= 3)
  {
    RunSafe(cfg, Begin(), ms);
    var wf := Run(cfg, Begin(), ms).wf.value;
    var n := |cfg.specs|;
    ScheduleExcludes(n, wf);
    AttemptsBoundedAt(n, wf);
  }

  lemma AttemptsBoundedAt(n: nat, wf: Wf)
    requires FutsFit(n, wf)
    requires IsScheduled(wf, ActComplete) ==> !IsScheduled(wf, ActFail)
    ensures AttemptCount(n, wf.futs) <= 7 + 3 * n
    ensures IsScheduled(wf, ActAbandon) ==> AttemptCount(n, wf.futs) <= 3
  {
    ResizeAttemptsBound(wf.futs, n);
    assert FutFits(ActValidate, FutOf(wf.futs, ActValidate)) && FutFits(ActProcessing, FutOf(wf.futs, ActProcessing));
    assert FutFits(ActComplete, FutOf(wf.futs, ActComplete)) && FutFits(ActFail, FutOf(wf.futs, ActFail));
    assert FutFits(ActAbandon, FutOf(wf.futs, ActAbandon));
    if IsScheduled(wf, ActAbandon) {
      assert Scheduled(n, wf.code, ActAbandon);
      forall a | a != ActAbandon
        ensures FutOf(wf.futs, a).Idle?
      {
        assert !Scheduled(n, wf.code, a);
      }
    } else {
      assert FutOf(wf.futs, ActAbandon).Idle?;
    }
  }

  /** In every run: an activity has settled with an error that may be retried only after its last attempt,
      the third, or for Validate the first; with any other error only Validate has, after its one attempt;
      and no activity had more attempts than that. */
  lemma RetriesAreUsedUp(cfg: Config, ms: seq<Move>, a: Act)
    requires Good(cfg) && Run(cfg, Begin(), ms).wf.Some?
    ensures var f := FutOf(Run(cfg, Begin(), ms).wf.value.futs, a);
            && Used(f) <= (if a.ActValidate? then 1 else 3)
            && (f.Finished? ==> 1 <= f.used)
            && (f.Finished? && f.res in {Err(CallFailed), Err(TimedOut)} ==> f.used == if a.ActValidate? then 1 else 3)
            && (f.Finished? && f.res in {Err(BadType), Err(TooLarge)} ==> a.ActValidate?)
  {
    RunSafe(cfg, Begin(), ms);
    assert FutFits(a, FutOf(Run(cfg, Begin(), ms).wf.value.futs, a));
  }
}
