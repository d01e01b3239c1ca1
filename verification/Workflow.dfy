/** UploadWorkflow, twice: `Exec` re-runs the code from the top over a recorded history, as a
    worker does after a crash, and `Advance` resumes a cached program point when a workflow task
    arrives. `UploadWorkflow` is the imperative code, proved to compute `Exec`. */
module Workflow {
  import opened Types
  import opened Attempts

  /** What the engine records. `Task` marks each point at which a worker ran the workflow code. */
  datatype Event = Signaled | TimerFired | Settled(a: Act, r: Result) | Task

  datatype Res = Nil | Error(at: Act, why: Why)

  datatype Cmd = StartTimer | CancelTimer | Schedule(a: Act) | Close(res: Res)

  /** Program points at which the code blocks, with its local variables: `k` futures collected and
      the `err` found so far, or the resize error carried past Fail. */
  datatype Code =
    | Init
    | Select
    | Await(a: Act, carry: Option<Res>)
    | Gather(k: nat, err: Option<Res>)
    | Closed(a: Act, res: Res)

  datatype Trace = Trace(code: Code, cmds: seq<Cmd>)

  datatype Choice = Undecided | BySignal | ByTimer

  /** The recorded result of an activity. */
  function Seen(h: seq<Event>, a: Act): Option<Result> {
    if h == [] then None
    else
      var before := Seen(h[..|h| - 1], a);
      var e := h[|h| - 1];
      if before.None? && e.Settled? && e.a == a then Some(e.r) else before
  }

  /** What the selector returns: at the first task that finds something ready, the signal if it is
      there, because its case was added first, and otherwise the timer. */
  function Choose(h: seq<Event>): Choice {
    if h == [] then Undecided
    else
      var p := h[..|h| - 1];
      var c := Choose(p);
      if !c.Undecided? then c
      else if !h[|h| - 1].Task? then Undecided
      else if Signaled in p then BySignal
      else if TimerFired in p then ByTimer
      else Undecided
  }

  /** The part of the history that the code has been run on. */
  function Visible(h: seq<Event>): seq<Event> {
    if h == [] || h[|h| - 1].Task? then h else Visible(h[..|h| - 1])
  }

  /** What `return` returns when the last awaited activity settles. */
  function Return(a: Act, r: Result, carry: Option<Res>): Res {
    if carry.Some? then carry.value else if r.Ok? then Nil else Error(a, r.why)
  }

  function ResizeCmds(n: nat): (c: seq<Cmd>)
    ensures |c| == n
  {
    seq(n, i requires 0 <= i < n => Schedule(ActResize(i)))
  }

  lemma ResizeCmdsSnoc(before: seq<Cmd>, i: nat)
    ensures before + ResizeCmds(i + 1) == before + ResizeCmds(i) + [Schedule(ActResize(i))]
  {
  }

  /** The fan-in loop from future `k` on: where it blocks (`n` if nowhere) and the error so far. */
  function Scan(n: nat, h: seq<Event>, k: nat, err: Option<Res>): (nat, Option<Res>)
    requires k <= n
    decreases n - k
  {
    if k == n then (n, err)
    else
      match Seen(h, ActResize(k))
      case None => (k, err)
      case Some(Ok) => Scan(n, h, k + 1, err)
      case Some(Err(w)) => Scan(n, h, k + 1, Some(Error(ActResize(k), w)))
  }

  // ---- The code from the top ----

  function Last(h: seq<Event>, cmds: seq<Cmd>, a: Act, carry: Option<Res>): Trace {
    match Seen(h, a)
    case None => Trace(Await(a, carry), cmds)
    case Some(r) =>
      var res := Return(a, r, carry);
      Trace(Closed(a, res), cmds + [Close(res)])
  }

  function AfterGather(n: nat, h: seq<Event>, cmds: seq<Cmd>): Trace {
    var (k, err) := Scan(n, h, 0, None);
    if k < n then Trace(Gather(k, err), cmds)
    else if err.Some? then Last(h, cmds + [Schedule(ActFail)], ActFail, err)
    else Last(h, cmds + [Schedule(ActComplete)], ActComplete, None)
  }

  function AfterValidate(n: nat, h: seq<Event>, cmds: seq<Cmd>): Trace {
    if Seen(h, ActProcessing) == Some(Ok) then AfterGather(n, h, cmds + ResizeCmds(n))
    else Last(h, cmds, ActProcessing, None)
  }

  function AfterSignal(n: nat, h: seq<Event>, cmds: seq<Cmd>): Trace {
    if Seen(h, ActValidate) == Some(Ok) then AfterValidate(n, h, cmds + [Schedule(ActProcessing)])
    else Last(h, cmds, ActValidate, None)
  }

  function Exec(n: nat, h: seq<Event>): Trace {
    if Task !in h then Trace(Init, [])
    else
      match Choose(h)
      case Undecided => Trace(Select, [StartTimer])
      case ByTimer => Last(h, [StartTimer, Schedule(ActAbandon)], ActAbandon, None)
      case BySignal => AfterSignal(n, h, [StartTimer, CancelTimer, Schedule(ActValidate)])
  }

  /** `res` is what the history says of activity `a`: nil if it succeeded, its own error if it failed. */
  ghost predicate ResultOf(h: seq<Event>, a: Act, res: Res) {
    && (res == Nil <==> Seen(h, a) == Some(Ok))
    && (forall w :: res == Error(a, w) <==> Seen(h, a) == Some(Err(w)))
  }

  /** The workflow code run over a history. Each ExecuteActivity issues a command and each Get
      reads the recorded result, or leaves the code blocked there. */
  method UploadWorkflow(specs: seq<Spec>, h: seq<Event>) returns (t: Trace)
    ensures t == Exec(|specs|, h)
    ensures t.code.Closed? && !t.code.a.ActFail? ==> ResultOf(h, t.code.a, t.code.res)
    ensures t.code.Closed? && t.code.a.ActFail? ==> Some(t.code.res) == Scan(|specs|, h, 0, None).1
  {
    if Task !in h {
      return Trace(Init, []);
    }
    var cmds := [StartTimer];
    var choice := Choose(h);
    if choice.Undecided? {
      return Trace(Select, cmds);
    }
    var signaled := choice.BySignal?;
    if !signaled {
      cmds := cmds + [Schedule(ActAbandon)];
      t := GetAndReturn(h, cmds, ActAbandon, None);
      return;
    }
    cmds := cmds + [CancelTimer];
    cmds := cmds + [Schedule(ActValidate)];
    assert Exec(|specs|, h) == AfterSignal(|specs|, h, cmds);
    if Seen(h, ActValidate) != Some(Ok) {
      t := GetAndReturn(h, cmds, ActValidate, None);
      return;
    }
    cmds := cmds + [Schedule(ActProcessing)];
    assert Exec(|specs|, h) == AfterValidate(|specs|, h, cmds);
    if Seen(h, ActProcessing) != Some(Ok) {
      t := GetAndReturn(h, cmds, ActProcessing, None);
      return;
    }
    ghost var before := cmds;
    var futures: seq<Act> := [];
    for i := 0 to |specs|
      invariant |futures| == i
      invariant forall j :: 0 <= j < i ==> futures[j] == ActResize(j)
      invariant cmds == before + ResizeCmds(i)
    {
      ResizeCmdsSnoc(before, i);
      cmds := cmds + [Schedule(ActResize(i))];
      futures := futures + [ActResize(i)];
    }
    assert Exec(|specs|, h) == AfterGather(|specs|, h, cmds);
    var resizeErr: Option<Res> := None;
    for k := 0 to |futures|
      invariant Scan(|specs|, h, 0, None) == Scan(|specs|, h, k, resizeErr)
    {
      match Seen(h, futures[k]) {
        case None => return Trace(Gather(k, resizeErr), cmds);
        case Some(Ok) =>
        case Some(Err(w)) => resizeErr := Some(Error(futures[k], w));
      }
    }
    if resizeErr.Some? {
      cmds := cmds + [Schedule(ActFail)];
      t := GetAndReturn(h, cmds, ActFail, resizeErr);
      return;
    }
    cmds := cmds + [Schedule(ActComplete)];
    t := GetAndReturn(h, cmds, ActComplete, None);
  }

  /** `return ExecuteActivity(...).Get(...)`, or `return resizeErr` after Fail. */
  method GetAndReturn(h: seq<Event>, cmds: seq<Cmd>, a: Act, carry: Option<Res>) returns (t: Trace)
    ensures t == Last(h, cmds, a, carry)
    ensures if Seen(h, a).None? then t == Trace(Await(a, carry), cmds)
            else t.code.Closed? && t.code.a == a && t.cmds == cmds + [Close(t.code.res)]
    ensures Seen(h, a).Some? ==> if carry.Some? then t.code.res == carry.value else ResultOf(h, a, t.code.res)
  {
    match Seen(h, a) {
      case None => t := Trace(Await(a, carry), cmds);
      case Some(r) =>
        var res := Return(a, r, carry);
        t := Trace(Closed(a, res), cmds + [Close(res)]);
    }
  }

  // ---- The code resumed at a program point ----

  function Collect(n: nat, h: seq<Event>, k: nat, err: Option<Res>): Trace
    requires k <= n
  {
    var (k', err') := Scan(n, h, k, err);
    if k' < n then Trace(Gather(k', err'), [])
    else if err'.Some? then Trace(Await(ActFail, err'), [Schedule(ActFail)])
    else Trace(Await(ActComplete, None), [Schedule(ActComplete)])
  }

  function AtSelect(h: seq<Event>): Trace {
    if Signaled in h then Trace(Await(ActValidate, None), [CancelTimer, Schedule(ActValidate)])
    else if TimerFired in h then Trace(Await(ActAbandon, None), [Schedule(ActAbandon)])
    else Trace(Select, [])
  }

  /** Run the code from a cached program point until it blocks again: the new program point and
      the commands issued on the way. */
  function Advance(n: nat, c: Code, h: seq<Event>): Trace {
    match c
    case Init => var t := AtSelect(h); Trace(t.code, [StartTimer] + t.cmds)
    case Select => AtSelect(h)
    case Await(a, carry) =>
      var r := Seen(h, a);
      if r.None? then Trace(c, [])
      else if a.ActValidate? && r.value.Ok? then
        Trace(Await(ActProcessing, None), [Schedule(ActProcessing)])
      else if a.ActProcessing? && r.value.Ok? then
        var t := Collect(n, h, 0, None);
        Trace(t.code, ResizeCmds(n) + t.cmds)
      else
        var res := Return(a, r.value, carry);
        Trace(Closed(a, res), [Close(res)])
    case Gather(k, err) => if k <= n then Collect(n, h, k, err) else Trace(c, [])
    case Closed(_, _) => Trace(c, [])
  }
}
