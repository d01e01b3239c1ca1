/** The protocol of one upload as a deterministic step function: every interleaving of the client,
    the HTTP server, the workflow engine, the workers and the clock is a sequence of moves. A move
    that is not possible in a state leaves the state as it is, so a run is any sequence at all. */
module Machine {
  import opened Types
  import opened Attempts
  import opened Workflow

  /** How far Negotiate has come for this id. */
  datatype Neg = Fresh | RowMade | Started | Issued | GaveUp

  /** An activity's future, with the number of attempts started. */
  datatype Fut = Idle | Backoff(used: nat) | Running(used: nat, att: Attempt) | Finished(used: nat, res: Result)

  datatype Timer = Unset | Armed(at: nat) | Cancelled(at: nat) | Fired(at: nat)

  /** An attempt whose timeout was reported while it went on running. */
  datatype Late = Late(a: Act, att: Attempt)

  /** One workflow execution. `code` is the worker's cache; the rest is kept by the engine.
      `log` records the writes that took effect, in order. */
  datatype Wf = Wf(code: Code, hist: seq<Event>, issued: seq<Cmd>, futs: map<Act, Fut>, timer: Timer,
                   late: seq<Late>, log: seq<Op>)

  datatype Upload = Upload(now: nat, env: Env, neg: Neg, url: Option<nat>, wf: Option<Wf>)

  datatype Move =
    | Tick(d: nat)
    | CreateRow(filename: string, contentType: string, owner: string, fault: Fault)
    | StartWf(fault: Fault)
    | Sign(fault: Fault)
    | ClientPut(data: Bytes)
    | Signal(fault: Fault)
    | FireTimer
    | RunTask                                    // the worker runs the workflow code
    | Crash                                      // a worker loses `code` and replays the history
    | Dispatch(a: Act)                           // an attempt starts
    | Call(a: Act, fault: Fault)                 // an attempt makes its next external call
    | Report(a: Act)                             // an attempt's own result is recorded
    | Expire(a: Act, lingers: bool)              // an attempt is timed out, or its report was lost
    | LateCall(j: nat, fault: Fault)             // a timed-out attempt acts late

  const NEW_WF: Wf := Wf(Init, [], [], map[], Unset, [], [])

  function Begin(): Upload {
    Upload(0, Env(None, map[]), Fresh, None, None)
  }

  function OriginalOf(s: Upload): Option<Bytes> {
    if ORIGINAL in s.env.objs then Some(s.env.objs[ORIGINAL]) else None
  }

  function FutOf(futs: map<Act, Fut>, a: Act): Fut {
    if a in futs then futs[a] else Idle
  }

  predicate Ended(wf: Wf) {
    wf.issued != [] && wf.issued[|wf.issued| - 1].Close?
  }

  predicate TaskDue(wf: Wf) {
    wf.hist == [] || !wf.hist[|wf.hist| - 1].Task?
  }

  // ---- Commands take effect in the engine ----

  function Launch(futs: map<Act, Fut>, cmds: seq<Cmd>): map<Act, Fut> {
    if cmds == [] then futs
    else
      var rest := Launch(futs, cmds[..|cmds| - 1]);
      var c := cmds[|cmds| - 1];
      if c.Schedule? then rest[c.a := Backoff(0)] else rest
  }

  function SetTimer(timer: Timer, cmds: seq<Cmd>, now: nat): Timer {
    var t := if StartTimer in cmds then Armed(now) else timer;
    if CancelTimer in cmds && t.Armed? then Cancelled(t.at) else t
  }

  function Issue(wf: Wf, cmds: seq<Cmd>, now: nat): Wf {
    wf.(issued := wf.issued + cmds,
        futs := Launch(wf.futs, cmds),
        timer := SetTimer(wf.timer, cmds, now))
  }

  // ---- Steps of the engine and the workers ----

  function TaskStep(n: nat, wf: Wf, now: nat): Wf {
    if Ended(wf) || !TaskDue(wf) then wf
    else
      var h := wf.hist + [Task];
      var t := Advance(n, wf.code, h);
      Issue(wf.(code := t.code, hist := h), t.cmds, now)
  }

  /** Replay: the code is rebuilt from the history, and whatever commands the rebuilt run issues
      beyond those already recorded are issued now. */
  function CrashStep(n: nat, wf: Wf, now: nat): Wf {
    var t := Exec(n, Visible(wf.hist));
    Issue(wf.(code := t.code), if |wf.issued| <= |t.cmds| then t.cmds[|wf.issued|..] else [], now)
  }

  function FireStep(wf: Wf, now: nat): Wf {
    if wf.timer.Armed? && wf.timer.at + UPLOAD_TIMEOUT <= now && !Ended(wf)
    then wf.(timer := Fired(wf.timer.at), hist := wf.hist + [TimerFired]) else wf
  }

  function SignalStep(wf: Wf, fault: Fault): Wf {
    if Ended(wf) || fault.Before? then wf else wf.(hist := wf.hist + [Signaled])
  }

  function DispatchStep(wf: Wf, a: Act): Wf {
    var f := FutOf(wf.futs, a);
    if f.Backoff? then wf.(futs := wf.futs[a := Running(f.used + 1, Start(a))]) else wf
  }

  /** The retry policy: a success or a permanent error settles the future, and so does the last
      attempt allowed. */
  function Settle(wf: Wf, a: Act, used: nat, r: Result): Wf {
    if r.Ok? || !Retryable(r.why) || used >= MaxAttempts(a)
    then wf.(futs := wf.futs[a := Finished(used, r)], hist := wf.hist + [Settled(a, r)])
    else wf.(futs := wf.futs[a := Backoff(used)])
  }

  function ReportStep(wf: Wf, a: Act): Wf {
    var f := FutOf(wf.futs, a);
    if f.Running? && f.att.Done? then Settle(wf, a, f.used, f.att.res) else wf
  }

  function ExpireStep(wf: Wf, a: Act, lingers: bool): Wf {
    var f := FutOf(wf.futs, a);
    if f.Running?
    then Settle(wf.(late := if lingers then wf.late + [Late(a, f.att)] else wf.late), a, f.used, Err(TimedOut))
    else wf
  }

  /** Every move of the workflow except the ones that make an external call. */
  function WfStep(n: nat, wf: Wf, now: nat, m: Move): Wf {
    match m
    case Signal(fault) => SignalStep(wf, fault)
    case FireTimer => FireStep(wf, now)
    case RunTask => TaskStep(n, wf, now)
    case Crash => CrashStep(n, wf, now)
    case Dispatch(a) => DispatchStep(wf, a)
    case Report(a) => ReportStep(wf, a)
    case Expire(a, lingers) => ExpireStep(wf, a, lingers)
    case _ => wf
  }

  // ---- External calls ----

  /** The external call a move makes. */
  function CallOf(cfg: Config, wf: Wf, m: Move): Option<Op> {
    match m
    case Call(a, _) =>
      var f := FutOf(wf.futs, a);
      if f.Running? && !f.att.Done? then Some(Next(cfg, a, f.att)) else None
    case LateCall(j, _) =>
      if j < |wf.late| && !wf.late[j].att.Done? then Some(Next(cfg, wf.late[j].a, wf.late[j].att)) else None
    case _ => None
  }

  function FaultOf(m: Move): Fault {
    match m
    case Call(_, fault) => fault
    case LateCall(_, fault) => fault
    case _ => NoFault
  }

  predicate Writes(op: Op) {
    op.Update? || op.Store? || op.Remove?
  }

  /** The reply reaches the attempt that made the call. */
  function Deliver(cfg: Config, wf: Wf, m: Move, reply: Reply): Wf
    requires CallOf(cfg, wf, m).Some?
  {
    var op := CallOf(cfg, wf, m).value;
    var w := wf.(log := if Writes(op) && !FaultOf(m).Before? then wf.log + [op] else wf.log);
    match m
    case Call(a, _) =>
      var f := FutOf(wf.futs, a);
      w.(futs := w.futs[a := Running(f.used, Resume(cfg, f.att, reply))])
    case LateCall(j, _) =>
      w.(late := w.late[j := Late(w.late[j].a, Resume(cfg, w.late[j].att, reply))])
    case _ => w
  }

  // ---- The machine ----

  /** The object store accepts a PUT through a presigned URL until it expires. */
  predicate Accepts(s: Upload) {
    s.url.Some? && s.now < s.url.value + PRESIGN_TTL
  }

  predicate AcceptedPut(s: Upload, m: Move) {
    m.ClientPut? && Accepts(s)
  }

  function CallStep(cfg: Config, s: Upload, m: Move): Upload {
    if s.wf.None? || CallOf(cfg, s.wf.value, m).None? then s
    else
      var (e, reply) := Perform(cfg, s.env, CallOf(cfg, s.wf.value, m).value, FaultOf(m));
      s.(env := e, wf := Some(Deliver(cfg, s.wf.value, m, reply)))
  }

  function Step(cfg: Config, s: Upload, m: Move): Upload {
    match m
    case Tick(d) => s.(now := s.now + d)
    case CreateRow(filename, contentType, owner, fault) =>
      if !s.neg.Fresh? then s
      else
        var row := Some(Row(filename, contentType, Pending, owner, s.now));
        s.(env := if fault.Before? then s.env else s.env.(row := row),
           neg := if fault.NoFault? then RowMade else GaveUp)
    case StartWf(fault) =>
      if !s.neg.RowMade? then s
      else s.(wf := if fault.Before? then s.wf else Some(NEW_WF),
              neg := if fault.NoFault? then Started else GaveUp)
    case Sign(fault) =>
      if !s.neg.Started? then s
      else s.(url := if fault.NoFault? then Some(s.now) else s.url,
              neg := if fault.NoFault? then Issued else GaveUp)
    case ClientPut(data) =>
      if Accepts(s) then s.(env := s.env.(objs := s.env.objs[ORIGINAL := data])) else s
    case Call(_, _) => CallStep(cfg, s, m)
    case LateCall(_, _) => CallStep(cfg, s, m)
    case _ => if s.wf.None? then s else s.(wf := Some(WfStep(|cfg.specs|, s.wf.value, s.now, m)))
  }

  function Run(cfg: Config, s: Upload, ms: seq<Move>): Upload {
    if ms == [] then s else Step(cfg, Run(cfg, s, ms[..|ms| - 1]), ms[|ms| - 1])
  }

  /** The default premise: an attempt has no effect once its timeout was reported. */
  predicate PromptMove(m: Move) {
    m.Expire? ==> !m.lingers
  }

  predicate Prompt(ms: seq<Move>) {
    forall i :: 0 <= i < |ms| ==> PromptMove(ms[i])
  }

  /** The premise that status order needs: a timed-out attempt of Processing has no effect any more.
      Attempts of every other activity may go on acting. */
  predicate SteadyMove(m: Move) {
    m.Expire? && m.lingers ==> !m.a.ActProcessing?
  }

  predicate Steady(ms: seq<Move>) {
    forall i :: 0 <= i < |ms| ==> SteadyMove(ms[i])
  }

  lemma PromptAppend(a: seq<Move>, b: seq<Move>)
    requires Prompt(a) && Prompt(b)
    ensures Prompt(a + b)
  {
  }

  lemma {:induction false} RunAppend(cfg: Config, s: Upload, a: seq<Move>, b: seq<Move>)
    ensures Run(cfg, s, a + b) == Run(cfg, Run(cfg, s, a), b)
    decreases |b|
  {
    if b == [] {
      assert a + b == a;
    } else {
      var k := |b| - 1;
      assert (a + b)[..|a + b| - 1] == a + b[..k];
      RunAppend(cfg, s, a, b[..k]);
    }
  }

  lemma RunSnoc(cfg: Config, s: Upload, ms: seq<Move>, m: Move)
    ensures Run(cfg, s, ms + [m]) == Step(cfg, Run(cfg, s, ms), m)
  {
  }
}
