/** What every reachable workflow record satisfies, whatever the faults, timeouts and late effects. */
module Inv {
  import opened Types
  import opened Attempts
  import opened Workflow
  import opened Machine
  import opened History

  predicate InFanOut(n: nat, a: Act) {
    a.ActResize? && a.i < n
  }

  /** Activity `a` is scheduled by the time `b` is. */
  predicate Reached(n: nat, b: Act, a: Act) {
    match b
    case ActAbandon => a.ActAbandon?
    case ActValidate => a.ActValidate?
    case ActProcessing => a.ActValidate? || a.ActProcessing?
    case ActResize(_) => a.ActValidate? || a.ActProcessing? || InFanOut(n, a)
    case ActComplete => a.ActValidate? || a.ActProcessing? || InFanOut(n, a) || a.ActComplete?
    case ActFail => a.ActValidate? || a.ActProcessing? || InFanOut(n, a) || a.ActFail?
  }

  /** Activity `a` has succeeded by the time `b` is scheduled. */
  predicate Behind(n: nat, b: Act, a: Act) {
    match b
    case ActAbandon => false
    case ActValidate => false
    case ActProcessing => a.ActValidate?
    case ActResize(_) => a.ActValidate? || a.ActProcessing?
    case ActComplete => a.ActValidate? || a.ActProcessing? || InFanOut(n, a)
    case ActFail => a.ActValidate? || a.ActProcessing?
  }

  /** The activity the code is waiting for, or last waited for; any resize stands for them all. */
  function Phase(c: Code): Option<Act> {
    match c
    case Init => None
    case Select => None
    case Await(a, _) => Some(a)
    case Gather(_, _) => Some(ActResize(0))
    case Closed(a, _) => Some(a)
  }

  predicate Scheduled(n: nat, c: Code, a: Act) {
    Phase(c).Some? && Reached(n, Phase(c).value, a)
  }

  function Outcome(f: Fut): Option<Result> {
    if f.Finished? then Some(f.res) else None
  }

  ghost predicate FutFits(a: Act, f: Fut) {
    match f
    case Idle => true
    case Backoff(used) => used < MaxAttempts(a)
    case Running(used, att) => 1 <= used <= MaxAttempts(a) && Fits(a, att)
    case Finished(used, res) =>
      && 1 <= used <= MaxAttempts(a)
      && Fits(a, Done(res))
      && (res.Err? && Retryable(res.why) ==> used == MaxAttempts(a))
  }

  /** Some attempt of the activity has been started. */
  predicate Begun(f: Fut) {
    match f
    case Idle => false
    case Backoff(used) => used > 0
    case _ => true
  }

  /** The error of the last failing resize among the first `k`, in list order. */
  function LastErr(futs: map<Act, Fut>, k: nat): Option<Res> {
    if k == 0 then None
    else
      match FutOf(futs, ActResize(k - 1))
      case Finished(_, Err(w)) => Some(Error(ActResize(k - 1), w))
      case _ => LastErr(futs, k - 1)
  }

  predicate AllFinished(futs: map<Act, Fut>, k: nat) {
    forall i :: 0 <= i < k ==> FutOf(futs, ActResize(i)).Finished?
  }

  ghost predicate FutsFit(n: nat, wf: Wf) {
    && (forall a :: FutFits(a, FutOf(wf.futs, a)))
    && (forall a :: FutOf(wf.futs, a).Idle? <==> !Scheduled(n, wf.code, a))
    && (forall a :: Phase(wf.code).Some? && Behind(n, Phase(wf.code).value, a) ==>
          Outcome(FutOf(wf.futs, a)) == Some(Ok))
    && (forall a {:trigger Seen(wf.hist, a)} :: Seen(wf.hist, a) == Outcome(FutOf(wf.futs, a)))
  }

  function CarryOf(n: nat, futs: map<Act, Fut>, a: Act): Option<Res> {
    if a.ActFail? then LastErr(futs, n) else None
  }

  ghost predicate CarryFits(n: nat, futs: map<Act, Fut>, a: Act, carry: Option<Res>) {
    && !a.ActResize?
    && carry == CarryOf(n, futs, a)
    && (a.ActFail? ==> AllFinished(futs, n) && carry.Some?)
  }

  /** The timer cannot fire any more: it has, or it was cancelled first. */
  predicate TimerOver(timer: Timer) {
    timer.Cancelled? || timer.Fired?
  }

  ghost predicate CodeFits(n: nat, wf: Wf) {
    match wf.code
    case Init => Task !in wf.hist && TimerFired !in wf.hist && wf.timer.Unset?
    case Select => wf.timer.Armed? || wf.timer.Fired?
    case Await(a, carry) =>
      CarryFits(n, wf.futs, a, carry) && TimerOver(wf.timer) && (a.ActAbandon? ==> wf.timer.Fired?)
    case Gather(k, err) =>
      k < n && AllFinished(wf.futs, k) && err == LastErr(wf.futs, k) && TimerOver(wf.timer)
    case Closed(a, res) =>
      && TimerOver(wf.timer)
      && (a.ActAbandon? ==> wf.timer.Fired?)
      && FutOf(wf.futs, a).Finished?
      && (a.ActValidate? || a.ActProcessing? ==> FutOf(wf.futs, a).res.Err?)
      && CarryFits(n, wf.futs, a, CarryOf(n, wf.futs, a))
      && res == Return(a, FutOf(wf.futs, a).res, CarryOf(n, wf.futs, a))
  }

  ghost predicate LateFits(wf: Wf) {
    forall j :: 0 <= j < |wf.late| ==>
      && Fits(wf.late[j].a, wf.late[j].att)
      && Begun(FutOf(wf.futs, wf.late[j].a))
      && (wf.late[j].a.ActValidate? ==>
            var r := Outcome(FutOf(wf.futs, ActValidate)); r.Some? && r.value.Err?)
  }

  predicate IsVisible(hist: seq<Event>, h: seq<Event>) {
    h == Visible(hist)
  }

  /** Re-running the code from the top over what it has seen gives the cached program point and the
      commands issued. (Quantified so that `Exec` is unfolded only where `IsVisible` is mentioned.) */
  ghost predicate Replayed(n: nat, hist: seq<Event>, code: Code, issued: seq<Cmd>) {
    forall h {:trigger IsVisible(hist, h)} :: IsVisible(hist, h) ==> Exec(n, h) == Trace(code, issued)
  }

  ghost predicate WfInv(n: nat, wf: Wf) {
    && FutsFit(n, wf)
    && CodeFits(n, wf)
    && Replayed(n, wf.hist, wf.code, wf.issued)
    && LateFits(wf)
    && (wf.timer.Fired? <==> TimerFired in wf.hist)
  }

  // ---- Small facts ----

  lemma {:induction false} LaunchFut(futs: map<Act, Fut>, cmds: seq<Cmd>, a: Act)
    ensures FutOf(Launch(futs, cmds), a) == if Schedule(a) in cmds then Backoff(0) else FutOf(futs, a)
    decreases |cmds|
  {
    if cmds != [] {
      LaunchFut(futs, cmds[..|cmds| - 1], a);
      assert cmds == cmds[..|cmds| - 1] + [cmds[|cmds| - 1]];
    }
  }

  lemma {:induction false} LastErrFrame(f: map<Act, Fut>, g: map<Act, Fut>, k: nat)
    requires forall i :: 0 <= i < k ==> FutOf(f, ActResize(i)) == FutOf(g, ActResize(i))
    ensures LastErr(f, k) == LastErr(g, k)
  {
    if k > 0 {
      LastErrFrame(f, g, k - 1);
    }
  }

  lemma {:induction false} LastErrIsError(f: map<Act, Fut>, k: nat)
    ensures LastErr(f, k).Some? ==> LastErr(f, k).value.Error?
    ensures LastErr(f, k).None? && AllFinished(f, k) ==>
              forall i :: 0 <= i < k ==> Outcome(FutOf(f, ActResize(i))) == Some(Ok)
  {
    if k > 0 {
      LastErrIsError(f, k - 1);
    }
  }

  /** The fan-in loop computes, from any point on, the last failing spec in list order. */
  lemma {:induction false} ScanFinds(n: nat, h: seq<Event>, futs: map<Act, Fut>, k: nat, err: Option<Res>)
    requires k <= n && AllFinished(futs, k) && err == LastErr(futs, k)
    requires forall a :: Seen(h, a) == Outcome(FutOf(futs, a))
    ensures var (k', err') := Scan(n, h, k, err);
            && k <= k' <= n && AllFinished(futs, k') && err' == LastErr(futs, k')
            && (k' < n ==> !FutOf(futs, ActResize(k')).Finished?)
    decreases n - k
  {
    if k < n {
      assert Seen(h, ActResize(k)) == Outcome(FutOf(futs, ActResize(k)));
      match Seen(h, ActResize(k))
      case None =>
      case Some(Ok) => ScanFinds(n, h, futs, k + 1, err);
      case Some(Err(w)) => ScanFinds(n, h, futs, k + 1, Some(Error(ActResize(k), w)));
    }
  }

  lemma ReplayGives(n: nat, hist: seq<Event>, code: Code, issued: seq<Cmd>)
    requires Replayed(n, hist, code, issued)
    ensures Exec(n, Visible(hist)) == Trace(code, issued)
  {
    assert IsVisible(hist, Visible(hist));
  }

  lemma SameVisible(n: nat, hist: seq<Event>, hist': seq<Event>, code: Code, issued: seq<Cmd>)
    requires Replayed(n, hist, code, issued) && Visible(hist') == Visible(hist)
    ensures Replayed(n, hist', code, issued)
  {
    assert IsVisible(hist, Visible(hist));
  }

  lemma EndedMeansClosed(n: nat, wf: Wf)
    requires Replayed(n, wf.hist, wf.code, wf.issued)
    ensures Ended(wf) <==> wf.code.Closed?
  {
    var h := Visible(wf.hist);
    assert IsVisible(wf.hist, h);
    if Task in h && Choose(h).BySignal? && Seen(h, ActValidate) == Some(Ok)
       && Seen(h, ActProcessing) == Some(Ok) {
      var cmds := [StartTimer, CancelTimer, Schedule(ActValidate)] + [Schedule(ActProcessing)] + ResizeCmds(n);
      assert |cmds| == 4 + n && !cmds[|cmds| - 1].Close?;
    }
  }

  /** A running activity other than a resize is the one the code waits for. */
  lemma InFlightPhase(n: nat, v: Wf, a: Act)
    requires FutsFit(n, v) && FutOf(v.futs, a).Running? && !a.ActResize?
    ensures Phase(v.code) == Some(a)
  {
  }

  // ---- Every step keeps the invariant ----

  /** A signal or the timer is recorded. */
  lemma RecordKeeps(n: nat, wf: Wf, e: Event, timer: Timer)
    requires WfInv(n, wf) && (e.Signaled? || e.TimerFired?)
    requires if e.TimerFired? then wf.timer.Armed? && timer.Fired? else timer == wf.timer
    ensures WfInv(n, wf.(hist := wf.hist + [e], timer := timer))
  {
    VisibleSnoc(wf.hist, e);
    SameVisible(n, wf.hist, wf.hist + [e], wf.code, wf.issued);
    forall a {
      SeenSnoc(wf.hist, e, a);
    }
  }

  /** The future of one activity moves on, and if it settles the result is recorded. */
  lemma FutureKeeps(n: nat, wf: Wf, a: Act, f: Fut, late: seq<Late>)
    requires WfInv(n, wf)
    requires var g := FutOf(wf.futs, a); !g.Idle? && !g.Finished?
    requires !f.Idle? && FutFits(a, f)
    requires LateFits(wf.(futs := wf.futs[a := f], late := late))
    ensures var h := if f.Finished? then wf.hist + [Settled(a, f.res)] else wf.hist;
            WfInv(n, wf.(futs := wf.futs[a := f], hist := h, late := late))
  {
    var h := if f.Finished? then wf.hist + [Settled(a, f.res)] else wf.hist;
    var wf' := wf.(futs := wf.futs[a := f], hist := h, late := late);
    VisibleSnoc(wf.hist, Settled(a, if f.Finished? then f.res else Ok));
    SameVisible(n, wf.hist, h, wf.code, wf.issued);
    forall b
      ensures FutOf(wf'.futs, b) == if b == a then f else FutOf(wf.futs, b)
      ensures Seen(wf'.hist, b) == Outcome(FutOf(wf'.futs, b))
    {
      SeenSnoc(wf.hist, Settled(a, if f.Finished? then f.res else Ok), b);
    }
    forall k: nat | AllFinished(wf.futs, k)
      ensures LastErr(wf'.futs, k) == LastErr(wf.futs, k) && AllFinished(wf'.futs, k)
    {
      LastErrFrame(wf.futs, wf'.futs, k);
    }
  }

  lemma SettleKeeps(n: nat, wf: Wf, a: Act, used: nat, r: Result, late: seq<Late>)
    requires WfInv(n, wf) && FutOf(wf.futs, a).Running? && used == FutOf(wf.futs, a).used
    requires Fits(a, Done(r))
    requires late == wf.late || (late == wf.late + [Late(a, FutOf(wf.futs, a).att)] && r.Err?)
    ensures WfInv(n, Settle(wf.(late := late), a, used, r))
  {
    var settles := r.Ok? || !Retryable(r.why) || used >= MaxAttempts(a);
    FutureKeeps(n, wf, a, if settles then Finished(used, r) else Backoff(used), late);
  }

  lemma {:induction false} ChosenAtTask(h: seq<Event>)
    ensures !Choose(h).Undecided? ==> Task in h
    ensures Choose(h).ByTimer? ==> TimerFired in h
    decreases |h|
  {
    if h != [] {
      ChosenAtTask(h[..|h| - 1]);
    }
  }

  /** Facts about a workflow task: the code sees exactly the futures' outcomes, and a choice made
      earlier stands. */
  lemma TaskSees(n: nat, wf: Wf)
    requires WfInv(n, wf)
    ensures var h := wf.hist + [Task];
            && Visible(h) == h && Task in h
            && (forall a :: Seen(h, a) == Outcome(FutOf(wf.futs, a)))
            && Choose(h) == (if !Choose(wf.hist).Undecided? then Choose(wf.hist)
                             else if Signaled in wf.hist then BySignal
                             else if TimerFired in wf.hist then ByTimer else Undecided)
            && Choose(wf.hist) == Choose(Visible(wf.hist))
            && (Signaled in h <==> Signaled in wf.hist) && (TimerFired in h <==> TimerFired in wf.hist)
  {
    var h := wf.hist + [Task];
    assert h[..|wf.hist|] == wf.hist;
    VisibleIsPrefix(wf.hist);
    forall a {
      SeenSnoc(wf.hist, Task, a);
    }
  }

  lemma CollectIsExec(n: nat, wf: Wf, cmds: seq<Cmd>, k: nat, err: Option<Res>)
    requires WfInv(n, wf)
    requires k <= n && AllFinished(wf.futs, k) && err == LastErr(wf.futs, k)
    requires FutOf(wf.futs, ActComplete).Idle? && FutOf(wf.futs, ActFail).Idle?
    ensures var h := wf.hist + [Task];
            var t := Collect(n, h, k, err);
            AfterGather(n, h, cmds) == Trace(t.code, cmds + t.cmds)
  {
    var h := wf.hist + [Task];
    TaskSees(n, wf);
    assert Seen(h, ActComplete).None? && Seen(h, ActFail).None?;
    ScanFinds(n, h, wf.futs, k, err);
    ScanFinds(n, h, wf.futs, 0, None);
    var (k1, err1) := Scan(n, h, 0, None);
    var (k2, err2) := Scan(n, h, k, err);
    assert k1 < n ==> !FutOf(wf.futs, ActResize(k1)).Finished?;
    assert k2 < n ==> !FutOf(wf.futs, ActResize(k2)).Finished?;
    assert k1 == k2;
  }

  const TO_VALIDATE: seq<Cmd> := [StartTimer, CancelTimer, Schedule(ActValidate)]
  const TO_PROCESSING: seq<Cmd> := TO_VALIDATE + [Schedule(ActProcessing)]

  /** The commands issued by the time `a` is scheduled. */
  function CmdsTo(n: nat, a: Act): seq<Cmd> {
    match a
    case ActAbandon => [StartTimer, Schedule(ActAbandon)]
    case ActValidate => TO_VALIDATE
    case ActProcessing => TO_PROCESSING
    case ActResize(_) => TO_PROCESSING + ResizeCmds(n)
    case ActComplete => TO_PROCESSING + ResizeCmds(n) + [Schedule(ActComplete)]
    case ActFail => TO_PROCESSING + ResizeCmds(n) + [Schedule(ActFail)]
  }

  /** Where a replay that has scheduled `a` came along. */
  lemma ExecReached(n: nat, v: seq<Event>, a: Act)
    requires Phase(Exec(n, v).code) == Some(a)
    ensures Leads(n, v, a)
    ensures Exec(n, v).cmds ==
            CmdsTo(n, a) + if Exec(n, v).code.Closed? then [Close(Exec(n, v).code.res)] else []
    ensures Exec(n, v).code.Closed? ==> Seen(v, a).Some?
  {
    ScanResumes(n, v, v, 0, None);
    if a.ActComplete? || a.ActFail? {
      var cmds := CmdsTo(n, ActValidate) + [Schedule(ActProcessing)] + ResizeCmds(n);
      assert Exec(n, v) == AfterGather(n, v, cmds);
    }
  }

  /** What the history must hold for the code to have scheduled `a`. */
  ghost predicate Leads(n: nat, h: seq<Event>, a: Act) {
    && Task in h && Choose(h) == (if a.ActAbandon? then ByTimer else BySignal)
    && (a.ActProcessing? || a.ActComplete? || a.ActFail? ==> Seen(h, ActValidate) == Some(Ok))
    && (a.ActComplete? || a.ActFail? ==>
          && Seen(h, ActProcessing) == Some(Ok) && Scan(n, h, 0, None).0 == n
          && (Scan(n, h, 0, None).1.Some? <==> a.ActFail?))
  }

  /** The replay of such a history: past `a` if `a` has succeeded and is not the last step. */
  lemma ExecAt(n: nat, h: seq<Event>, a: Act)
    requires Leads(n, h, a) && !a.ActResize?
    ensures Exec(n, h) ==
            if a.ActValidate? && Seen(h, a) == Some(Ok) then AfterValidate(n, h, TO_PROCESSING)
            else if a.ActProcessing? && Seen(h, a) == Some(Ok) then AfterGather(n, h, TO_PROCESSING + ResizeCmds(n))
            else Last(h, CmdsTo(n, a), a, if a.ActFail? then Scan(n, h, 0, None).1 else None)
  {
  }

  /** A longer history leads where a shorter one led. */
  lemma LeadsOn(n: nat, v: seq<Event>, h: seq<Event>, a: Act)
    requires Leads(n, v, a) && v <= h
    ensures Leads(n, h, a) && (a.ActFail? ==> Scan(n, h, 0, None).1 == Scan(n, v, 0, None).1)
  {
    ChoosePrefix(v, h);
    if Seen(v, ActValidate).Some? { SeenPrefix(v, h, ActValidate); }
    if Seen(v, ActProcessing).Some? { SeenPrefix(v, h, ActProcessing); }
    ScanResumes(n, v, h, 0, None);
  }

  /** Resuming at an awaited activity, or after the return, agrees with the replay of `h` if it did
      with that of a prefix `v`. */
  lemma AwaitIsExec(n: nat, c: Code, issued: seq<Cmd>, v: seq<Event>, h: seq<Event>)
    requires (c.Await? || c.Closed?) && v <= h && Exec(n, v) == Trace(c, issued)
    requires c.Await? && c.a.ActValidate? ==> Seen(h, ActProcessing).None?
    requires c.Await? && c.a.ActProcessing? && Seen(h, c.a) == Some(Ok) ==>
               var t := Collect(n, h, 0, None);
               AfterGather(n, h, issued + ResizeCmds(n)) == Trace(t.code, issued + ResizeCmds(n) + t.cmds)
    ensures var t := Advance(n, c, h); Exec(n, h) == Trace(t.code, issued + t.cmds)
  {
    ExecReached(n, v, c.a);
    LeadsOn(n, v, h, c.a);
    ExecAt(n, v, c.a);
    ExecAt(n, h, c.a);
    if c.Closed? {
      SeenPrefix(v, h, c.a);
    } else if c.a.ActProcessing? && Seen(h, c.a) == Some(Ok) {
      var cmds := Collect(n, h, 0, None).cmds;
      assert issued + ResizeCmds(n) + cmds == issued + (ResizeCmds(n) + cmds);
    }
  }

  lemma AdvanceAwait(n: nat, wf: Wf)
    requires WfInv(n, wf) && (wf.code.Await? || wf.code.Closed?)
    ensures var h := wf.hist + [Task];
            var t := Advance(n, wf.code, h);
            Exec(n, h) == Trace(t.code, wf.issued + t.cmds)
  {
    var h := wf.hist + [Task];
    ReplayGives(n, wf.hist, wf.code, wf.issued);
    VisibleIsPrefix(wf.hist);
    TaskSees(n, wf);
    if wf.code.Await? && wf.code.a.ActProcessing? {
      assert FutOf(wf.futs, ActComplete).Idle? && FutOf(wf.futs, ActFail).Idle?;
      CollectIsExec(n, wf, wf.issued + ResizeCmds(n), 0, None);
    } else if wf.code.Await? && wf.code.a.ActValidate? {
      assert !Scheduled(n, wf.code, ActProcessing);
      assert Seen(h, ActProcessing) == Outcome(FutOf(wf.futs, ActProcessing));
    }
    AwaitIsExec(n, wf.code, wf.issued, Visible(wf.hist), h);
  }

  /** A replay that has not chosen a branch. */
  lemma ExecStart(n: nat, v: seq<Event>)
    requires Phase(Exec(n, v).code).None?
    ensures Choose(v).Undecided?
    ensures Exec(n, v) == if Task in v then Trace(Select, [StartTimer]) else Trace(Init, [])
  {
  }

  lemma AdvanceStart(n: nat, wf: Wf)
    requires WfInv(n, wf) && Phase(wf.code).None?
    ensures var h := wf.hist + [Task];
            var t := Advance(n, wf.code, h);
            Exec(n, h) == Trace(t.code, wf.issued + t.cmds)
  {
    var h := wf.hist + [Task];
    TaskSees(n, wf);
    ReplayGives(n, wf.hist, wf.code, wf.issued);
    ExecStart(n, Visible(wf.hist));
    VisibleIsPrefix(wf.hist);
    assert !Scheduled(n, wf.code, ActValidate) && !Scheduled(n, wf.code, ActAbandon);
    assert Seen(h, ActValidate).None? && Seen(h, ActAbandon).None?;
  }

  lemma AdvanceGather(n: nat, wf: Wf)
    requires WfInv(n, wf) && wf.code.Gather?
    ensures var h := wf.hist + [Task];
            var t := Advance(n, wf.code, h);
            Exec(n, h) == Trace(t.code, wf.issued + t.cmds)
  {
    var h := wf.hist + [Task];
    var futs := wf.futs;
    TaskSees(n, wf);
    ReplayGives(n, wf.hist, wf.code, wf.issued);
    ExecReached(n, Visible(wf.hist), ActResize(0));
    assert Behind(n, ActResize(0), ActValidate) && Behind(n, ActResize(0), ActProcessing);
    assert Seen(h, ActValidate) == Some(Ok) && Seen(h, ActProcessing) == Some(Ok);
    assert !Scheduled(n, wf.code, ActComplete) && !Scheduled(n, wf.code, ActFail);
    assert FutOf(futs, ActComplete).Idle? && FutOf(futs, ActFail).Idle?;
    CollectIsExec(n, wf, wf.issued, wf.code.k, wf.code.err);
  }

  /** Resuming the cached program point agrees with re-running the code from the top. */
  lemma AdvanceIsExec(n: nat, wf: Wf)
    requires WfInv(n, wf)
    ensures var h := wf.hist + [Task];
            var t := Advance(n, wf.code, h);
            Exec(n, h) == Trace(t.code, wf.issued + t.cmds)
  {
    match wf.code
    case Init => AdvanceStart(n, wf);
    case Select => AdvanceStart(n, wf);
    case Await(_, _) => AdvanceAwait(n, wf);
    case Gather(_, _) => AdvanceGather(n, wf);
    case Closed(_, _) => AdvanceAwait(n, wf);
  }

  /** What a workflow task does to the cached code `c`: exactly the newly reached activities are
      scheduled, and the activities behind the new program point had succeeded. */
  ghost predicate Advances(n: nat, c: Code, futs: map<Act, Fut>, t: Trace) {
    && (forall a :: Scheduled(n, c, a) ==> Scheduled(n, t.code, a))
    && (forall a :: Schedule(a) in t.cmds <==> Scheduled(n, t.code, a) && !Scheduled(n, c, a))
    && (forall a :: Phase(t.code).Some? && Behind(n, Phase(t.code).value, a) ==>
          Outcome(FutOf(futs, a)) == Some(Ok))
  }

  lemma ResizeCmdsSchedule(n: nat, a: Act)
    ensures Schedule(a) in ResizeCmds(n) <==> InFanOut(n, a)
  {
    if InFanOut(n, a) {
      assert ResizeCmds(n)[a.i] == Schedule(a);
    }
  }

  /** The code that collecting from `k` on leads to. */
  lemma CollectFits(n: nat, h: seq<Event>, futs: map<Act, Fut>, k: nat, err: Option<Res>)
    requires k <= n && AllFinished(futs, k) && err == LastErr(futs, k)
    requires forall a :: Seen(h, a) == Outcome(FutOf(futs, a))
    ensures var t := Collect(n, h, k, err);
            || (t.code.Gather? && t.code.k < n && AllFinished(futs, t.code.k)
                && t.code.err == LastErr(futs, t.code.k) && t.cmds == [])
            || (t.code == Await(ActComplete, None) && t.cmds == [Schedule(ActComplete)]
                && forall i :: 0 <= i < n ==> Outcome(FutOf(futs, ActResize(i))) == Some(Ok))
            || (t.code == Await(ActFail, LastErr(futs, n)) && t.cmds == [Schedule(ActFail)]
                && AllFinished(futs, n) && LastErr(futs, n).Some?)
  {
    ScanFinds(n, h, futs, k, err);
    LastErrIsError(futs, n);
  }

  lemma AdvanceGathers(n: nat, c: Code, futs: map<Act, Fut>, h: seq<Event>, k: nat, err: Option<Res>)
    requires k <= n && AllFinished(futs, k) && err == LastErr(futs, k)
    requires forall a :: Seen(h, a) == Outcome(FutOf(futs, a))
    requires c.Gather? || c == Await(ActProcessing, None)
    requires Outcome(FutOf(futs, ActValidate)) == Outcome(FutOf(futs, ActProcessing)) == Some(Ok)
    ensures var t := Collect(n, h, k, err);
            Advances(n, c, futs, if c.Gather? then t else Trace(t.code, ResizeCmds(n) + t.cmds))
  {
    var t := Collect(n, h, k, err);
    CollectFits(n, h, futs, k, err);
    var cmds := if c.Gather? then t.cmds else ResizeCmds(n) + t.cmds;
    forall a
      ensures Schedule(a) in cmds <==> Scheduled(n, t.code, a) && !Scheduled(n, c, a)
    {
      ResizeCmdsSchedule(n, a);
    }
    forall a | InFanOut(n, a) && Phase(t.code) == Some(ActComplete)
      ensures Outcome(FutOf(futs, a)) == Some(Ok)
    {
      assert a == ActResize(a.i);
    }
  }

  lemma TaskAdvances(n: nat, wf: Wf, h: seq<Event>)
    requires FutsFit(n, wf) && CodeFits(n, wf)
    requires forall a :: Seen(h, a) == Outcome(FutOf(wf.futs, a))
    ensures Advances(n, wf.code, wf.futs, Advance(n, wf.code, h))
  {
    var c, futs := wf.code, wf.futs;
    match c
    case Init =>
    case Select =>
    case Gather(k, err) =>
      assert Outcome(FutOf(futs, ActValidate)) == Outcome(FutOf(futs, ActProcessing)) == Some(Ok);
      AdvanceGathers(n, c, futs, h, k, err);
    case Await(a, carry) =>
      assert a.ActProcessing? ==> Outcome(FutOf(futs, ActValidate)) == Some(Ok);
      AwaitAdvances(n, c, futs, h);
    case Closed(_, _) =>
  }

  lemma AwaitAdvances(n: nat, c: Code, futs: map<Act, Fut>, h: seq<Event>)
    requires c.Await? && !c.a.ActResize? && (!c.a.ActFail? ==> c.carry.None?)
    requires forall a :: Seen(h, a) == Outcome(FutOf(futs, a))
    requires forall a :: Behind(n, c.a, a) ==> Outcome(FutOf(futs, a)) == Some(Ok)
    ensures Advances(n, c, futs, Advance(n, c, h))
  {
    assert Seen(h, c.a) == Outcome(FutOf(futs, c.a));
    if c.a.ActProcessing? && Seen(h, c.a) == Some(Ok) {
      assert Behind(n, c.a, ActValidate);
      AdvanceGathers(n, c, futs, h, 0, None);
    }
  }

  lemma TaskCodeFits(n: nat, wf: Wf, now: nat)
    requires WfInv(n, wf)
    ensures var h := wf.hist + [Task];
            var t := Advance(n, wf.code, h);
            var timer := SetTimer(wf.timer, t.cmds, now);
            CodeFits(n, wf.(code := t.code, hist := h, timer := timer)) && (timer.Fired? <==> wf.timer.Fired?)
  {
    var h := wf.hist + [Task];
    TaskSees(n, wf);
    match wf.code
    case Init =>
    case Select =>
    case Gather(k, err) =>
      CollectFits(n, h, wf.futs, k, err);
    case Await(a, carry) =>
      assert Seen(h, a) == Outcome(FutOf(wf.futs, a));
      if a.ActProcessing? && Seen(h, a) == Some(Ok) {
        CollectFits(n, h, wf.futs, 0, None);
        ResizeCmdsTimer(n);
      }
    case Closed(_, _) =>
  }

  lemma ResizeCmdsTimer(n: nat)
    ensures StartTimer !in ResizeCmds(n) && CancelTimer !in ResizeCmds(n)
  {
  }

  /** Launching new futures leaves the settled ones, and so what the code has collected, alone. */
  lemma LaunchKeeps(n: nat, wf: Wf, t: Trace, futs: map<Act, Fut>)
    requires FutsFit(n, wf) && CodeFits(n, wf.(code := t.code))
    requires Advances(n, wf.code, wf.futs, t)
    requires forall a :: FutOf(futs, a) == if Schedule(a) in t.cmds then Backoff(0) else FutOf(wf.futs, a)
    ensures FutsFit(n, wf.(code := t.code, futs := futs)) && CodeFits(n, wf.(code := t.code, futs := futs))
  {
    forall a | FutOf(wf.futs, a).Finished?
      ensures FutOf(futs, a) == FutOf(wf.futs, a)
    {
      assert Scheduled(n, wf.code, a);
    }
    forall k: nat | AllFinished(wf.futs, k)
      ensures LastErr(futs, k) == LastErr(wf.futs, k) && AllFinished(futs, k)
    {
      LastErrFrame(wf.futs, futs, k);
    }
  }

  lemma TaskKeeps(n: nat, wf: Wf, now: nat)
    requires WfInv(n, wf)
    ensures WfInv(n, TaskStep(n, wf, now))
  {
    if !Ended(wf) && TaskDue(wf) {
      var h := wf.hist + [Task];
      var t := Advance(n, wf.code, h);
      var timer := SetTimer(wf.timer, t.cmds, now);
      var futs := Launch(wf.futs, t.cmds);
      forall a
        ensures FutOf(futs, a) == if Schedule(a) in t.cmds then Backoff(0) else FutOf(wf.futs, a)
      {
        LaunchFut(wf.futs, t.cmds, a);
      }
      TaskIssued(n, wf, t, futs, timer, now);
    }
  }

  lemma TaskIssued(n: nat, wf: Wf, t: Trace, futs: map<Act, Fut>, timer: Timer, now: nat)
    requires WfInv(n, wf)
    requires t == Advance(n, wf.code, wf.hist + [Task]) && timer == SetTimer(wf.timer, t.cmds, now)
    requires forall a :: FutOf(futs, a) == if Schedule(a) in t.cmds then Backoff(0) else FutOf(wf.futs, a)
    ensures WfInv(n, wf.(code := t.code, hist := wf.hist + [Task], issued := wf.issued + t.cmds,
                         futs := futs, timer := timer))
  {
    TaskSees(n, wf);
    TaskAdvances(n, wf, wf.hist + [Task]);
    TaskCodeFits(n, wf, now);
    AdvanceIsExec(n, wf);
    LaunchKeeps(n, wf.(hist := wf.hist + [Task], timer := timer), t, futs);
    forall j | 0 <= j < |wf.late|
      ensures FutOf(futs, wf.late[j].a) == FutOf(wf.futs, wf.late[j].a)
    {
      assert Scheduled(n, wf.code, wf.late[j].a);
    }
    assert !FutOf(wf.futs, ActValidate).Idle? ==> FutOf(futs, ActValidate) == FutOf(wf.futs, ActValidate) by {
      assert !FutOf(wf.futs, ActValidate).Idle? ==> Scheduled(n, wf.code, ActValidate);
    }
  }

  /** Crashing and replaying is invisible: the code resumes at the same point and no command is
      issued again. */
  lemma CrashIsInvisible(n: nat, wf: Wf, now: nat)
    requires WfInv(n, wf)
    ensures CrashStep(n, wf, now) == wf
  {
    assert IsVisible(wf.hist, Visible(wf.hist));
  }

  lemma ResumeFits(cfg: Config, a: Act, att: Attempt, reply: Reply)
    requires Fits(a, att) && !att.Done?
    ensures Fits(a, Resume(cfg, att, reply))
    ensures CallsLeft(Resume(cfg, att, reply)) < CallsLeft(att)
  {
  }

  lemma DeliverKeeps(cfg: Config, wf: Wf, m: Move, reply: Reply)
    requires WfInv(|cfg.specs|, wf) && CallOf(cfg, wf, m).Some?
    ensures WfInv(|cfg.specs|, Deliver(cfg, wf, m, reply))
  {
    var n := |cfg.specs|;
    match m
    case Call(a, _) =>
      var f := FutOf(wf.futs, a);
      ResumeFits(cfg, a, f.att, reply);
      FutureKeeps(n, wf, a, Running(f.used, Resume(cfg, f.att, reply)), wf.late);
    case LateCall(j, _) =>
      ResumeFits(cfg, wf.late[j].a, wf.late[j].att, reply);
  }

  lemma WfStepKeeps(n: nat, wf: Wf, now: nat, m: Move)
    requires WfInv(n, wf)
    ensures WfInv(n, WfStep(n, wf, now, m))
  {
    match m
    case Signal(_) => RecordKeeps(n, wf, Signaled, wf.timer);
    case FireTimer => if wf.timer.Armed? { RecordKeeps(n, wf, TimerFired, Fired(wf.timer.at)); }
    case RunTask => TaskKeeps(n, wf, now);
    case Crash => CrashIsInvisible(n, wf, now);
    case Dispatch(a) =>
      var f := FutOf(wf.futs, a);
      if f.Backoff? { FutureKeeps(n, wf, a, Running(f.used + 1, Start(a)), wf.late); }
    case Report(a) =>
      var f := FutOf(wf.futs, a);
      if f.Running? && f.att.Done? { SettleKeeps(n, wf, a, f.used, f.att.res, wf.late); }
    case Expire(a, lingers) =>
      var f := FutOf(wf.futs, a);
      if f.Running? {
        SettleKeeps(n, wf, a, f.used, Err(TimedOut), if lingers then wf.late + [Late(a, f.att)] else wf.late);
      }
    case _ =>
  }
}
