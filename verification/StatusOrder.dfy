/** How the status of a row moves, in every run in which no timed-out attempt of Processing lingers. */
module StatusOrder {
  import opened Types
  import opened Attempts
  import opened Workflow
  import opened Machine
  import opened Inv
  import opened Safety
  import opened SafetyTheorems

  predicate Edge(x: Status, y: Status) {
    match x
    case Pending => y.Validating? || y.Abandoned?
    case Validating => y.Processing? || y.Rejected?
    case Processing => y.Complete? || y.Failed?
    case _ => false
  }

  /** The order any two polls respect: the reflexive, transitive closure of `Edge`. */
  predicate Precedes(x: Status, y: Status) {
    match x
    case Pending => true
    case Validating => !y.Pending? && !y.Abandoned?
    case Processing => y.Processing? || y.Complete? || y.Failed?
    case _ => y == x
  }

  lemma PrecedesIsClosure(x: Status, y: Status, z: Status)
    ensures Precedes(x, x)
    ensures Edge(x, y) ==> Precedes(x, y)
    ensures Precedes(x, y) && Precedes(y, z) ==> Precedes(x, z)
    ensures Precedes(x, y) && x != y ==>
              || Edge(x, y)
              || (exists u :: Edge(x, u) && Edge(u, y))
              || (exists u, v :: Edge(x, u) && Edge(u, v) && Edge(v, y))
    ensures Precedes(x, y) && Precedes(y, x) ==> x == y
    ensures Terminal(x) && Precedes(x, y) ==> x == y
    ensures Terminal(x) <==> forall y' :: !Edge(x, y')
  {
    assert Edge(Pending, Validating) && Edge(Validating, Processing) && Edge(Validating, Rejected);
    assert Edge(Processing, Complete) && Edge(Processing, Failed);
  }

  /** What an activity leaves in the row, given the state of its future: `before` until its write
      may have happened, `after` once it is known to have. */
  predicate Between(wf: Wf, a: Act, st: Status, before: Status, after: Status) {
    st == after || (st == before && !Achieved(wf, a))
  }

  predicate ValidateLeaves(f: Fut, st: Status) {
    match f
    case Idle => false
    case Backoff(_) => st.Pending?
    case Running(_, VMark) => st.Pending?
    case Running(_, Done(Err(CallFailed))) => st.Pending? || st.Validating?
    case Running(_, Done(Err(_))) => st.Validating? || st.Rejected?
    case Running(_, _) => st.Validating?
    case Finished(_, Ok) => st.Validating?
    case Finished(_, Err(CallFailed)) => st.Pending? || st.Validating?
    case Finished(_, Err(TimedOut)) => st.Pending? || st.Validating? || st.Rejected?
    case Finished(_, Err(_)) => st.Validating? || st.Rejected?
  }

  predicate Leaves(wf: Wf, a: Act, st: Status) {
    match a
    case ActAbandon => Between(wf, a, st, Pending, Abandoned)
    case ActValidate => ValidateLeaves(FutOf(wf.futs, a), st)
    case ActProcessing => Between(wf, a, st, Validating, Processing)
    case ActResize(_) => st.Processing?
    case ActComplete => Between(wf, a, st, Processing, Complete)
    case ActFail => Between(wf, a, st, Processing, Failed)
  }

  predicate Shows(wf: Wf, st: Status) {
    if Phase(wf.code).None? then st.Pending? else Leaves(wf, Phase(wf.code).value, st)
  }

  /** What timed-out attempts that still act can do to the row: the one attempt of Validate is where
      the status says it is, and Processing is not among them. */
  ghost predicate LateShows(wf: Wf, st: Status) {
    && (forall j :: 0 <= j < |wf.late| ==> !wf.late[j].a.ActProcessing?)
    && (forall j :: 0 <= j < |wf.late| && wf.late[j].a.ActValidate? ==>
          && ValidateLeaves(Running(1, wf.late[j].att), st)
          && Outcome(FutOf(wf.futs, ActValidate)) == Some(Err(TimedOut)))
    && (forall j, k :: 0 <= j < k < |wf.late| ==> !(wf.late[j].a.ActValidate? && wf.late[k].a.ActValidate?))
  }

  ghost predicate OrderInv(cfg: Config, s: Upload) {
    && SInv(cfg, s)
    && (s.wf.Some? ==>
          && Shows(s.wf.value, s.env.row.value.status)
          && LateShows(s.wf.value, s.env.row.value.status))
  }

  lemma WorkerStepShows(cfg: Config, s: Upload, m: Move)
    requires OrderInv(cfg, s) && s.wf.Some? && SteadyMove(m)
    requires !m.Call? && !m.LateCall? && !m.RunTask? && !m.Crash?
    ensures var w := WfStep(|cfg.specs|, s.wf.value, s.now, m);
            Shows(w, s.env.row.value.status) && LateShows(w, s.env.row.value.status)
  {
    var wf := s.wf.value;
    if m.Expire? {
      if FutOf(wf.futs, m.a).Running? {
        if m.a.ActValidate? { InFlightPhase(|cfg.specs|, wf, m.a); }
        ExpireShows(wf, m.a, m.lingers, s.env.row.value.status);
      }
    } else {
      assert FutFits(ActValidate, FutOf(wf.futs, ActValidate));
      FutShows(|cfg.specs|, wf, s.now, m, s.env.row.value.status);
    }
  }

  /** The row still fits if the awaited activity has achieved nothing new and, for Validate, its new
      state allows the status. */
  lemma ShowsStays(wf: Wf, w: Wf, st: Status)
    requires Shows(wf, st) && w.code == wf.code
    requires forall a :: Achieved(w, a) ==> Achieved(wf, a)
    requires ValidateLeaves(FutOf(wf.futs, ActValidate), st) ==> ValidateLeaves(FutOf(w.futs, ActValidate), st)
    ensures Shows(w, st)
  {
  }

  /** An attempt that starts or is reported leaves the row and the timed-out attempts alone. */
  lemma FutShows(n: nat, wf: Wf, now: nat, m: Move, st: Status)
    requires Shows(wf, st) && LateShows(wf, st) && forall a :: FutFits(a, FutOf(wf.futs, a))
    requires !m.Call? && !m.LateCall? && !m.RunTask? && !m.Crash? && !m.Expire?
    ensures Shows(WfStep(n, wf, now, m), st) && LateShows(WfStep(n, wf, now, m), st)
  {
    var w := WfStep(n, wf, now, m);
    WorkerStepGrows(n, wf, now, m);
    ValidateMoves(n, wf, now, m, st);
    ShowsStays(wf, w, st);
  }

  lemma ValidateMoves(n: nat, wf: Wf, now: nat, m: Move, st: Status)
    requires FutFits(ActValidate, FutOf(wf.futs, ActValidate))
    requires !m.Call? && !m.LateCall? && !m.RunTask? && !m.Crash? && !m.Expire?
    ensures WfStep(n, wf, now, m).code == wf.code && WfStep(n, wf, now, m).late == wf.late
    ensures ValidateLeaves(FutOf(wf.futs, ActValidate), st) ==>
              ValidateLeaves(FutOf(WfStep(n, wf, now, m).futs, ActValidate), st)
  {
  }

  lemma ExpireShows(wf: Wf, a: Act, lingers: bool, st: Status)
    requires Shows(wf, st) && LateShows(wf, st) && FutOf(wf.futs, a).Running?
    requires lingers ==> !a.ActProcessing?
    requires FutFits(ActValidate, FutOf(wf.futs, ActValidate))
    requires a.ActValidate? ==> Phase(wf.code) == Some(a)
    ensures Shows(ExpireStep(wf, a, lingers), st) && LateShows(ExpireStep(wf, a, lingers), st)
  {
    ExpireLeaves(wf, a, lingers, st);
    ExpireLates(wf, a, lingers, st);
  }

  lemma ExpireLeaves(wf: Wf, a: Act, lingers: bool, st: Status)
    requires Shows(wf, st) && FutOf(wf.futs, a).Running?
    requires FutFits(ActValidate, FutOf(wf.futs, ActValidate))
    ensures Shows(ExpireStep(wf, a, lingers), st)
  {
    var w := ExpireStep(wf, a, lingers);
    assert forall b :: b != a ==> FutOf(w.futs, b) == FutOf(wf.futs, b);
    assert a.ActValidate? ==> FutOf(w.futs, a) == Finished(FutOf(wf.futs, a).used, Err(TimedOut));
    ShowsStays(wf, w, st);
  }

  lemma ExpireLates(wf: Wf, a: Act, lingers: bool, st: Status)
    requires LateShows(wf, st) && FutOf(wf.futs, a).Running?
    requires lingers ==> !a.ActProcessing?
    requires FutFits(ActValidate, FutOf(wf.futs, ActValidate))
    requires a.ActValidate? ==> ValidateLeaves(FutOf(wf.futs, a), st)
    ensures LateShows(ExpireStep(wf, a, lingers), st)
  {
    var w := ExpireStep(wf, a, lingers);
    assert forall j :: 0 <= j < |wf.late| ==> w.late[j] == wf.late[j];
    assert a != ActValidate ==> FutOf(w.futs, ActValidate) == FutOf(wf.futs, ActValidate);
  }

  lemma TaskShows(cfg: Config, s: Upload)
    requires OrderInv(cfg, s) && s.wf.Some?
    ensures var w := TaskStep(|cfg.specs|, s.wf.value, s.now);
            Shows(w, s.env.row.value.status) && LateShows(w, s.env.row.value.status)
  {
    var wf := s.wf.value;
    var n := |cfg.specs|;
    if !Ended(wf) && TaskDue(wf) {
      var h := wf.hist + [Task];
      var w := TaskStep(n, wf, s.now);
      TaskGrows(n, wf, s.now);
      TaskSees(n, wf);
      TaskMoves(n, wf, h);
      var st := s.env.row.value.status;
      match Phase(w.code)
      case None =>
      case Some(a) =>
        if Phase(wf.code) == Some(a) {
          assert !a.ActResize? ==> IsScheduled(wf, a);
        } else {
          assert !a.ActResize? ==> !IsScheduled(wf, a) by {
            assert Scheduled(n, wf.code, a) <==> IsScheduled(wf, a);
          }
        }
    }
  }

  /** Where a task can take the code. */
  ghost predicate Moves(wf: Wf, c: Code) {
    || Phase(c) == Phase(wf.code)
    || (Phase(wf.code).None? && Phase(c) in {None, Some(ActValidate), Some(ActAbandon)})
    || (Phase(wf.code) == Some(ActValidate) && Phase(c) == Some(ActProcessing) && Succeeded(wf, ActValidate))
    || (Phase(wf.code) == Some(ActProcessing) && Succeeded(wf, ActProcessing)
        && Phase(c) in {Some(ActResize(0)), Some(ActComplete), Some(ActFail)})
    || (wf.code.Gather? && Phase(c) in {Some(ActComplete), Some(ActFail)})
  }

  lemma TaskMoves(n: nat, wf: Wf, h: seq<Event>)
    requires FutsFit(n, wf) && CodeFits(n, wf)
    requires forall a :: Seen(h, a) == Outcome(FutOf(wf.futs, a))
    ensures Moves(wf, Advance(n, wf.code, h).code)
  {
  }

  /** A call by the activity `a` writes a status only if the code waits for `a`. */
  lemma CallLeaves(cfg: Config, wf: Wf, a: Act, fault: Fault, e: Env)
    requires CallOf(cfg, wf, Call(a, fault)).Some? && Fits(a, FutOf(wf.futs, a).att)
    requires !a.ActResize? ==> Phase(wf.code) == Some(a)
    requires e.row.Some? && Shows(wf, e.row.value.status)
    ensures var (e', reply) := Perform(cfg, e, CallOf(cfg, wf, Call(a, fault)).value, fault);
            && e'.row.Some?
            && Shows(Deliver(cfg, wf, Call(a, fault), reply), e'.row.value.status)
            && (e.row.value.status == e'.row.value.status || Edge(e.row.value.status, e'.row.value.status))
  {
  }

  /** While a timed-out attempt of Validate still acts, nothing else does. */
  lemma LateValidateAlone(n: nat, wf: Wf, j: nat)
    requires WfInv(n, wf) && j < |wf.late| && wf.late[j].a.ActValidate?
    ensures Phase(wf.code) == Some(ActValidate)
    ensures forall a :: a != ActValidate ==> FutOf(wf.futs, a).Idle?
  {
    var r := Outcome(FutOf(wf.futs, ActValidate));
    assert r.Some? && r.value.Err?;
    assert Scheduled(n, wf.code, ActValidate);
    assert !Behind(n, Phase(wf.code).value, ActValidate);
  }

  /** A late call of a last activity finds the code at that activity. */
  lemma LatePhase(n: nat, wf: Wf, j: nat)
    requires WfInv(n, wf) && j < |wf.late|
    ensures var a := wf.late[j].a;
            a.ActAbandon? || a.ActComplete? || a.ActFail? ==> Phase(wf.code) == Some(a)
  {
    assert Begun(FutOf(wf.futs, wf.late[j].a));
    assert Scheduled(n, wf.code, wf.late[j].a);
  }

  lemma LateCallLeaves(cfg: Config, wf: Wf, j: nat, fault: Fault, e: Env)
    requires CallOf(cfg, wf, LateCall(j, fault)).Some? && Fits(wf.late[j].a, wf.late[j].att)
    requires var a := wf.late[j].a; !a.ActResize? ==> Phase(wf.code) == Some(a)
    requires e.row.Some? && Shows(wf, e.row.value.status) && LateShows(wf, e.row.value.status)
    requires !wf.late[j].a.ActValidate? ==> forall k :: 0 <= k < |wf.late| ==> !wf.late[k].a.ActValidate?
    ensures var (e', reply) := Perform(cfg, e, CallOf(cfg, wf, LateCall(j, fault)).value, fault);
            && e'.row.Some?
            && Shows(Deliver(cfg, wf, LateCall(j, fault), reply), e'.row.value.status)
            && LateShows(Deliver(cfg, wf, LateCall(j, fault), reply), e'.row.value.status)
            && (e.row.value.status == e'.row.value.status || Edge(e.row.value.status, e'.row.value.status))
  {
  }

  lemma LateCallShows(cfg: Config, s: Upload, m: Move)
    requires Good(cfg) && OrderInv(cfg, s) && s.wf.Some? && m.LateCall?
    ensures OrderInv(cfg, Step(cfg, s, m))
    ensures Step(cfg, s, m).env.row.Some?
    ensures var (x, y) := (s.env.row.value.status, Step(cfg, s, m).env.row.value.status); x == y || Edge(x, y)
  {
    StepSafe(cfg, s, m);
    var wf := s.wf.value;
    if CallOf(cfg, wf, m).Some? {
      LatePhase(|cfg.specs|, wf, m.j);
      NoOtherValidate(|cfg.specs|, wf, m.j);
      LateCallLeaves(cfg, wf, m.j, m.fault, s.env);
    }
  }

  lemma NoOtherValidate(n: nat, wf: Wf, j: nat)
    requires WfInv(n, wf) && j < |wf.late|
    ensures wf.late[j].a.ActValidate? ==> Phase(wf.code) == Some(ActValidate)
    ensures !wf.late[j].a.ActValidate? ==> forall k :: 0 <= k < |wf.late| ==> !wf.late[k].a.ActValidate?
  {
    if wf.late[j].a.ActValidate? { LateValidateAlone(n, wf, j); }
    forall k | 0 <= k < |wf.late| && wf.late[k].a.ActValidate?
      ensures wf.late[j].a.ActValidate?
    {
      LateValidateAlone(n, wf, k);
      assert Begun(FutOf(wf.futs, wf.late[j].a));
    }
  }

  lemma CallShows(cfg: Config, s: Upload, m: Move)
    requires Good(cfg) && OrderInv(cfg, s) && s.wf.Some? && m.Call?
    ensures OrderInv(cfg, Step(cfg, s, m))
    ensures Step(cfg, s, m).env.row.Some?
    ensures var (x, y) := (s.env.row.value.status, Step(cfg, s, m).env.row.value.status); x == y || Edge(x, y)
  {
    StepSafe(cfg, s, m);
    var wf := s.wf.value;
    if CallOf(cfg, wf, m).Some? {
      if !m.a.ActResize? { InFlightPhase(|cfg.specs|, wf, m.a); }
      CallLeaves(cfg, wf, m.a, m.fault, s.env);
      CallFindsNoLateValidate(|cfg.specs|, wf, m.a);
    }
  }

  lemma CallFindsNoLateValidate(n: nat, wf: Wf, a: Act)
    requires WfInv(n, wf) && FutOf(wf.futs, a).Running?
    ensures forall k :: 0 <= k < |wf.late| ==> !wf.late[k].a.ActValidate?
  {
    forall k | 0 <= k < |wf.late| && wf.late[k].a.ActValidate?
      ensures false
    {
      LateValidateAlone(n, wf, k);
    }
  }

  /** What a move that is not a call leaves in the row, once there is a workflow. */
  lemma MoveShows(cfg: Config, s: Upload, m: Move)
    requires Good(cfg) && OrderInv(cfg, s) && SteadyMove(m) && s.wf.Some? && !m.Call? && !m.LateCall?
    ensures OrderInv(cfg, Step(cfg, s, m)) && Step(cfg, s, m).env.row == s.env.row
  {
    StepSafe(cfg, s, m);
    if m.RunTask? {
      TaskShows(cfg, s);
    } else if m.Crash? {
      CrashIsInvisible(|cfg.specs|, s.wf.value, s.now);
    } else {
      WorkerStepShows(cfg, s, m);
    }
  }

  lemma StepShows(cfg: Config, s: Upload, m: Move)
    requires Good(cfg) && OrderInv(cfg, s) && SteadyMove(m)
    ensures OrderInv(cfg, Step(cfg, s, m))
    ensures s.env.row.Some? ==>
              && Step(cfg, s, m).env.row.Some?
              && var (x, y) := (s.env.row.value.status, Step(cfg, s, m).env.row.value.status); x == y || Edge(x, y)
  {
    if s.wf.None? {
      StepSafe(cfg, s, m);
    } else if m.Call? {
      CallShows(cfg, s, m);
    } else if m.LateCall? {
      LateCallShows(cfg, s, m);
    } else {
      MoveShows(cfg, s, m);
    }
  }

  lemma {:induction false} RunShows(cfg: Config, s: Upload, ms: seq<Move>)
    requires Good(cfg) && OrderInv(cfg, s) && Steady(ms)
    ensures OrderInv(cfg, Run(cfg, s, ms))
    ensures s.env.row.Some? ==>
              && Run(cfg, s, ms).env.row.Some?
              && Precedes(s.env.row.value.status, Run(cfg, s, ms).env.row.value.status)
    decreases |ms|
  {
    if ms != [] {
      var t := Run(cfg, s, ms[..|ms| - 1]);
      RunShows(cfg, s, ms[..|ms| - 1]);
      StepShows(cfg, t, ms[|ms| - 1]);
    }
  }

  /** The stronger invariant of prompt runs: no timed-out attempt acts at all. */
  ghost predicate PromptInv(cfg: Config, s: Upload) {
    OrderInv(cfg, s) && (s.wf.Some? ==> s.wf.value.late == [])
  }

  lemma PromptStep(cfg: Config, s: Upload, m: Move)
    requires Good(cfg) && PromptInv(cfg, s) && PromptMove(m)
    ensures PromptInv(cfg, Step(cfg, s, m))
  {
    StepShows(cfg, s, m);
    NoneLinger(cfg, s, m);
  }

  lemma NoneLinger(cfg: Config, s: Upload, m: Move)
    requires PromptMove(m) && (s.wf.Some? ==> s.wf.value.late == [])
    ensures Step(cfg, s, m).wf.Some? ==> Step(cfg, s, m).wf.value.late == []
  {
  }

  lemma {:induction false} RunPrompt(cfg: Config, s: Upload, ms: seq<Move>)
    requires Good(cfg) && PromptInv(cfg, s) && Prompt(ms)
    ensures PromptInv(cfg, Run(cfg, s, ms))
    decreases |ms|
  {
    if ms != [] {
      RunPrompt(cfg, s, ms[..|ms| - 1]);
      PromptStep(cfg, Run(cfg, s, ms[..|ms| - 1]), ms[|ms| - 1]);
    }
  }

  /** Any two reads of a row, the second later, see statuses in order; so the terminal ones absorb. */
  lemma StatusIsMonotone(cfg: Config, ms: seq<Move>, later: seq<Move>)
    requires Good(cfg) && Steady(ms) && Steady(later)
    requires Run(cfg, Begin(), ms).env.row.Some?
    ensures Run(cfg, Begin(), ms + later).env.row.Some?
    ensures var x := Run(cfg, Begin(), ms).env.row.value.status;
            var y := Run(cfg, Begin(), ms + later).env.row.value.status;
            Precedes(x, y) && (Terminal(x) ==> y == x)
  {
    RunShows(cfg, Begin(), ms);
    RunShows(cfg, Run(cfg, Begin(), ms), later);
    RunAppend(cfg, Begin(), ms, later);
  }

  /** Each single step follows one edge of the status diagram or none. */
  lemma StatusFollowsEdges(cfg: Config, ms: seq<Move>, m: Move)
    requires Good(cfg) && Steady(ms) && SteadyMove(m)
    requires Run(cfg, Begin(), ms).env.row.Some?
    ensures var t := Run(cfg, Begin(), ms + [m]);
            && t.env.row.Some?
            && var (x, y) := (Run(cfg, Begin(), ms).env.row.value.status, t.env.row.value.status); x == y || Edge(x, y)
  {
    RunShows(cfg, Begin(), ms);
    RunSnoc(cfg, Begin(), ms, m);
    StepShows(cfg, Run(cfg, Begin(), ms), m);
  }

  // ---- What the row says when the workflow has closed ----

  /** The statuses a workflow that last awaited `a` can close with. */
  function CloseTable(a: Act, ok: bool): set<Status> {
    match a
    case ActAbandon => if ok then {Abandoned} else {Pending, Abandoned}
    case ActValidate => if ok then {} else {Pending, Validating, Rejected}
    case ActProcessing => if ok then {} else {Validating, Processing}
    case ActComplete => if ok then {Complete} else {Processing, Complete}
    case ActFail => if ok then {} else {Processing, Failed}
    case ActResize(_) => {}
  }

  /** A workflow that returned nil shows the status it acknowledged; one that returned an error
      shows what the activity it stopped at may have left. After Fail the error is the last failing
      resize's, in list order. */
  lemma CloseStatus(cfg: Config, ms: seq<Move>)
    requires Good(cfg) && Steady(ms)
    requires var s := Run(cfg, Begin(), ms); s.wf.Some? && s.wf.value.code.Closed?
    ensures var s := Run(cfg, Begin(), ms);
            var wf := s.wf.value;
            && s.env.row.Some?
            && s.env.row.value.status in CloseTable(wf.code.a, wf.code.res.Nil?)
            && (wf.code.a.ActFail? ==> Some(wf.code.res) == LastErr(wf.futs, |cfg.specs|))
  {
    RunShows(cfg, Begin(), ms);
    var s := Run(cfg, Begin(), ms);
    LastErrIsError(s.wf.value.futs, |cfg.specs|);
  }

  // ---- What a closed workflow returns ----

  /** `res` is the error of a failed resize, the last in list order. */
  predicate LastFailing(n: nat, futs: map<Act, Fut>, res: Res) {
    exists i :: 0 <= i < n && FailsLast(n, futs, i) && res == Error(ActResize(i), FutOf(futs, ActResize(i)).res.why)
  }

  predicate FailsLast(n: nat, futs: map<Act, Fut>, i: nat) {
    && FutOf(futs, ActResize(i)).Finished? && FutOf(futs, ActResize(i)).res.Err?
    && forall j :: i < j < n ==> FutOf(futs, ActResize(j)).Finished? && FutOf(futs, ActResize(j)).res.Ok?
  }

  lemma {:induction false} LastErrIsLast(n: nat, futs: map<Act, Fut>, k: nat)
    requires k <= n && AllFinished(futs, n) && LastErr(futs, k).Some?
    requires forall j :: k <= j < n ==> FutOf(futs, ActResize(j)).res.Ok?
    ensures LastFailing(n, futs, LastErr(futs, k).value)
  {
    if FutOf(futs, ActResize(k - 1)).res.Err? {
      assert FailsLast(n, futs, k - 1);
    } else {
      LastErrIsLast(n, futs, k - 1);
    }
  }

  /** In every run, late attempts included: a closed workflow has told the engine its result, which is nil
      if the activity it awaited last succeeded and that activity's own error if it failed; after Fail,
      however that went, it is the error of the last failing resize. */
  lemma ReturnsItsResult(cfg: Config, ms: seq<Move>)
    requires Good(cfg)
    requires var s := Run(cfg, Begin(), ms); s.wf.Some? && s.wf.value.code.Closed?
    ensures var wf := Run(cfg, Begin(), ms).wf.value;
            var a, res := wf.code.a, wf.code.res;
            && wf.issued != [] && wf.issued[|wf.issued| - 1] == Close(res)
            && FutOf(wf.futs, a).Finished?
            && (!a.ActFail? ==>
                  && (res == Nil <==> FutOf(wf.futs, a).res == Ok)
                  && (forall w :: res == Error(a, w) <==> FutOf(wf.futs, a).res == Err(w)))
            && (a.ActFail? ==> LastFailing(|cfg.specs|, wf.futs, res))
  {
    RunSafe(cfg, Begin(), ms);
    var wf := Run(cfg, Begin(), ms).wf.value;
    TellsTheEngine(|cfg.specs|, wf);
    if wf.code.a.ActFail? {
      LastErrIsLast(|cfg.specs|, wf.futs, |cfg.specs|);
    }
  }

  lemma TellsTheEngine(n: nat, wf: Wf)
    requires WfInv(n, wf) && wf.code.Closed?
    ensures wf.issued != [] && wf.issued[|wf.issued| - 1] == Close(wf.code.res)
  {
    ReplayGives(n, wf.hist, wf.code, wf.issued);
    ExecReached(n, Visible(wf.hist), wf.code.a);
  }

  // ---- When it says a terminal status ----

  /** A write of a terminal status took effect, acknowledged or not. */
  predicate EndLogged(wf: Wf) {
    exists j :: 0 <= j < |wf.log| && Ends(wf.log[j])
  }

  ghost predicate EndShows(s: Upload) {
    s.wf.Some? && s.env.row.Some? ==> (Terminal(s.env.row.value.status) <==> EndLogged(s.wf.value))
  }

  lemma EndSnoc(wf: Wf, w: Wf, op: Op)
    requires w.log == wf.log + [op]
    ensures EndLogged(w) <==> EndLogged(wf) || Ends(op)
  {
    assert w.log[|wf.log|] == op && forall j :: 0 <= j < |wf.log| ==> w.log[j] == wf.log[j];
  }

  lemma EndCall(cfg: Config, s: Upload, m: Move)
    requires s.wf.Some? && s.env.row.Some? && CallOf(cfg, s.wf.value, m).Some? && EndShows(s)
    requires var x, y := s.env.row.value.status, CallStep(cfg, s, m).env.row.value.status; x == y || Edge(x, y)
    ensures EndShows(CallStep(cfg, s, m))
  {
    var op := CallOf(cfg, s.wf.value, m).value;
    var w := CallStep(cfg, s, m).wf.value;
    if w.log != s.wf.value.log { EndSnoc(s.wf.value, w, op); }
  }

  lemma EndStep(cfg: Config, s: Upload, m: Move)
    requires Good(cfg) && OrderInv(cfg, s) && EndShows(s) && SteadyMove(m)
    ensures EndShows(Step(cfg, s, m))
  {
    StepShows(cfg, s, m);
    if s.wf.Some? {
      if m.Call? || m.LateCall? {
        if CallOf(cfg, s.wf.value, m).Some? { EndCall(cfg, s, m); }
      } else {
        WfStepGrows(|cfg.specs|, s.wf.value, s.now, m);
      }
    }
  }

  /** In every run in which no Processing attempt lingers: a row reads a terminal status if and only if a
      write of one took effect; and a workflow that returned nil leaves one. */
  lemma {:induction false} TerminalIffWritten(cfg: Config, ms: seq<Move>)
    requires Good(cfg) && Steady(ms)
    ensures var s := Run(cfg, Begin(), ms);
            s.wf.Some? ==>
              && s.env.row.Some?
              && (Terminal(s.env.row.value.status) <==> EndLogged(s.wf.value))
              && (s.wf.value.code.Closed? && s.wf.value.code.res.Nil? ==> Terminal(s.env.row.value.status))
    decreases |ms|
  {
    RunShows(cfg, Begin(), ms);
    if ms != [] {
      var s := Run(cfg, Begin(), ms[..|ms| - 1]);
      TerminalIffWritten(cfg, ms[..|ms| - 1]);
      RunShows(cfg, Begin(), ms[..|ms| - 1]);
      EndStep(cfg, s, ms[|ms| - 1]);
    }
    if Run(cfg, Begin(), ms).wf.Some? && Run(cfg, Begin(), ms).wf.value.code.Closed? { CloseStatus(cfg, ms); }
  }
}
