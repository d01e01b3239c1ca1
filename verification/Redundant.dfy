/** A run and the same run without its redundant attempts, those whose success is not the one recorded.
    `OnceSimulates` relates the two, move by move. */
module Redundant {
  import opened Types
  import opened Attempts
  import opened Workflow
  import opened Machine
  import opened Inv
  import opened Safety
  import opened SafetyTheorems
  import opened StatusOrder
  import opened FanOut
  import opened Blocks

  // ---- Leaving out the redundant attempts ----

  function FutsOf(s: Upload): map<Act, Fut> {
    if s.wf.Some? then s.wf.value.futs else map[]
  }

  /** Attempt number `used` of `a` is the acknowledged one: `last` records its success. */
  predicate IsAcked(last: map<Act, Fut>, a: Act, used: nat) {
    FutOf(last, a).Finished? && FutOf(last, a).used == used
  }

  /** The attempt of `a` now running is the acknowledged one. */
  predicate AckedRuns(last: map<Act, Fut>, s: Upload, a: Act) {
    var f := FutOf(FutsOf(s), a); f.Running? && IsAcked(last, a, f.used)
  }

  /** The move is not part of a redundant attempt. */
  predicate Keeps(last: map<Act, Fut>, s: Upload, m: Move) {
    match m
    case Dispatch(a) => var f := FutOf(FutsOf(s), a); f.Backoff? && IsAcked(last, a, f.used + 1)
    case Call(a, _) => AckedRuns(last, s, a)
    case Report(a) => AckedRuns(last, s, a)
    case Expire(_, _) => false
    case LateCall(_, _) => false
    case _ => true
  }

  /** Mending a kept move: a delete by Abandon that was lost, and found no original, is not lost. */
  function Mended(s: Upload, m: Move): Move {
    if m == Call(ActAbandon, Before) && ORIGINAL !in s.env.objs then Call(ActAbandon, NoFault) else m
  }

  function KeptMove(s: Upload, m: Move, mend: bool): Move {
    if mend then Mended(s, m) else m
  }

  function Kept(cfg: Config, last: map<Act, Fut>, ms: seq<Move>, mend: bool): seq<Move> {
    if ms == [] then []
    else
      var rest, m := ms[..|ms| - 1], ms[|ms| - 1];
      var s := Run(cfg, Begin(), rest);
      Kept(cfg, last, rest, mend) + if Keeps(last, s, m) then [KeptMove(s, m, mend)] else []
  }

  /** The run without its redundant attempts: all other moves, as they were and where they were. */
  function Dropped(cfg: Config, ms: seq<Move>): seq<Move> {
    Kept(cfg, FutsOf(Run(cfg, Begin(), ms)), ms, false)
  }

  /** The same, with Abandon's one delete mended. */
  function Once(cfg: Config, ms: seq<Move>): seq<Move> {
    Kept(cfg, FutsOf(Run(cfg, Begin(), ms)), ms, true)
  }

  /** Abandon's delete is called. */
  predicate Sweeps(s: Upload, m: Move) {
    m.Call? && m.a.ActAbandon? && var f := FutOf(FutsOf(s), ActAbandon); f.Running? && f.att.ADrop?
  }

  predicate StrandsNext(last: map<Act, Fut>, s: Upload, m: Move, was: bool, mend: bool) {
    if Sweeps(s, m) then
      if AckedRuns(last, s, ActAbandon) then was && m.fault.Before? && !mend
      else was || (!m.fault.Before? && ORIGINAL in s.env.objs)
    else was && !AcceptedPut(s, m)
  }

  /** A redundant attempt has deleted, and nothing since has made up for it: read off move by move. */
  predicate Stranded(cfg: Config, last: map<Act, Fut>, ms: seq<Move>, mend: bool) {
    ms != []
    && var rest := ms[..|ms| - 1];
       StrandsNext(last, Run(cfg, Begin(), rest), ms[|ms| - 1], Stranded(cfg, last, rest, mend), mend)
  }

  /** Move number `k` is a redundant attempt's delete, and it removes an original. */
  predicate RedundantDelete(cfg: Config, last: map<Act, Fut>, ms: seq<Move>, k: nat) {
    && k < |ms|
    && var s := Run(cfg, Begin(), ms[..k]);
       Sweeps(s, ms[k]) && !AckedRuns(last, s, ActAbandon) && !ms[k].fault.Before? && ORIGINAL in s.env.objs
  }

  /** Move number `k` is a PUT that is accepted, or the acknowledged attempt's delete, not lost. */
  predicate MakesUp(cfg: Config, last: map<Act, Fut>, ms: seq<Move>, k: nat) {
    && k < |ms|
    && var s := Run(cfg, Begin(), ms[..k]);
       AcceptedPut(s, ms[k]) || (Sweeps(s, ms[k]) && AckedRuns(last, s, ActAbandon) && !ms[k].fault.Before?)
  }

  /** Nothing makes up for move number `k`, a redundant delete. */
  ghost predicate DeletedFor(cfg: Config, last: map<Act, Fut>, ms: seq<Move>, k: nat) {
    RedundantDelete(cfg, last, ms, k) && forall j: nat :: k < j ==> !MakesUp(cfg, last, ms, j)
  }

  /** A redundant attempt of Abandon deleted an original, no PUT was accepted since, and the acknowledged
      attempt's delete was lost. */
  ghost predicate OnlyRedundantDeleted(cfg: Config, ms: seq<Move>) {
    exists k: nat :: DeletedFor(cfg, FutsOf(Run(cfg, Begin(), ms)), ms, k)
  }

  lemma PrefixMove(cfg: Config, last: map<Act, Fut>, ms: seq<Move>, k: nat)
    requires ms != [] && k < |ms| - 1
    ensures RedundantDelete(cfg, last, ms, k) == RedundantDelete(cfg, last, ms[..|ms| - 1], k)
    ensures MakesUp(cfg, last, ms, k) == MakesUp(cfg, last, ms[..|ms| - 1], k)
  {
    assert ms[..|ms| - 1][..k] == ms[..k];
  }

  lemma DeletedSnoc(cfg: Config, last: map<Act, Fut>, ms: seq<Move>, k: nat)
    requires ms != [] && k < |ms|
    ensures var n := |ms| - 1;
            DeletedFor(cfg, last, ms, k) <==>
            if k < n then DeletedFor(cfg, last, ms[..n], k) && !MakesUp(cfg, last, ms, n)
            else RedundantDelete(cfg, last, ms, n)
  {
    var n := |ms| - 1;
    forall j: nat | j < n
      ensures RedundantDelete(cfg, last, ms, j) == RedundantDelete(cfg, last, ms[..n], j)
      ensures MakesUp(cfg, last, ms, j) == MakesUp(cfg, last, ms[..n], j)
    {
      PrefixMove(cfg, last, ms, j);
    }
    if k < n && DeletedFor(cfg, last, ms, k) {
      forall j: nat | k < j
        ensures !MakesUp(cfg, last, ms[..n], j)
      {
        if j < n { assert !MakesUp(cfg, last, ms, j); }
      }
    }
  }

  lemma StrandsLast(cfg: Config, last: map<Act, Fut>, ms: seq<Move>)
    requires ms != []
    ensures var k := |ms| - 1;
            Stranded(cfg, last, ms, false) <==>
            RedundantDelete(cfg, last, ms, k) || (Stranded(cfg, last, ms[..k], false) && !MakesUp(cfg, last, ms, k))
  {
  }

  lemma {:induction false} StrandedMeans(cfg: Config, last: map<Act, Fut>, ms: seq<Move>)
    ensures Stranded(cfg, last, ms, false) <==> exists k: nat :: DeletedFor(cfg, last, ms, k)
    decreases |ms|
  {
    if ms != [] {
      var n := |ms| - 1;
      StrandedMeans(cfg, last, ms[..n]);
      StrandsLast(cfg, last, ms);
      if RedundantDelete(cfg, last, ms, n) {
        DeletedSnoc(cfg, last, ms, n);
      } else if Stranded(cfg, last, ms, false) {
        var k: nat :| DeletedFor(cfg, last, ms[..n], k);
        DeletedSnoc(cfg, last, ms, k);
      } else {
        forall k: nat | k < |ms|
          ensures !DeletedFor(cfg, last, ms, k)
        {
          DeletedSnoc(cfg, last, ms, k);
        }
      }
    }
  }

  // ---- Where a future is heading ----

  /** A future that is `f` now can yet come to be `g`, a success. */
  predicate Heads(f: Fut, g: Fut) {
    match f
    case Idle => true
    case Backoff(used) => g.Finished? && g.res.Ok? && used < g.used
    case Running(used, att) =>
      g.Finished? && g.res.Ok? && used <= g.used && (used == g.used && att.Done? ==> att.res.Ok?)
    case Finished(_, r) => f == g && r.Ok?
  }

  ghost predicate Heading(s: Upload, last: map<Act, Fut>) {
    forall a ::
      && Heads(FutOf(FutsOf(s), a), FutOf(last, a))
      && (FutOf(last, a).Finished? ==> FutOf(last, a).used <= MaxAttempts(a))
  }

  lemma HeadingBefore(cfg: Config, s: Upload, m: Move, last: map<Act, Fut>)
    requires Good(cfg) && SInv(cfg, s) && Heading(Step(cfg, s, m), last)
    ensures Heading(s, last)
  {
    if s.wf.Some? {
      forall a
        ensures Heads(FutOf(s.wf.value.futs, a), FutOf(last, a))
      {
        assert Heads(FutOf(FutsOf(Step(cfg, s, m)), a), FutOf(last, a));
        if m.RunTask? || m.Crash? {
          CodeMoveHeads(|cfg.specs|, s.wf.value, s.now, m, a, FutOf(last, a));
        } else {
          HeadsBefore(cfg, s, m, a, FutOf(last, a));
        }
      }
    }
  }

  lemma CodeMoveHeads(n: nat, wf: Wf, now: nat, m: Move, a: Act, g: Fut)
    requires WfInv(n, wf) && (m.RunTask? || m.Crash?)
    requires Heads(FutOf(WfStep(n, wf, now, m).futs, a), g)
    ensures Heads(FutOf(wf.futs, a), g)
  {
    if m.RunTask? {
      TaskGrows(n, wf, now);
    } else {
      CrashIsInvisible(n, wf, now);
    }
  }

  lemma HeadsBefore(cfg: Config, s: Upload, m: Move, a: Act, g: Fut)
    requires s.wf.Some? && !m.RunTask? && !m.Crash? && s.neg != RowMade
    requires Heads(FutOf(FutsOf(Step(cfg, s, m)), a), g)
    ensures Heads(FutOf(s.wf.value.futs, a), g)
  {
  }

  // ---- The simulation relation ----

  ghost predicate FutSim(last: map<Act, Fut>, a: Act, f: Fut, g: Fut) {
    match f
    case Idle => g == Idle
    case Backoff(_) => g == Backoff(0)
    case Running(used, att) => g == if IsAcked(last, a, used) then Running(1, att) else Backoff(0)
    case Finished(_, r) => r.Ok? && g == Finished(1, Ok)
  }

  /** The acknowledged attempt has made its last call. */
  predicate Worked(last: map<Act, Fut>, a: Act, f: Fut) {
    f.Finished? || (f.Running? && IsAcked(last, a, f.used) && f.att.Done?)
  }

  function PreStatus(a: Act): Status {
    match a
    case ActProcessing => Validating
    case ActComplete => Processing
    case ActFail => Processing
    case _ => Pending
  }

  /** The status without the writes of redundant attempts. */
  function OnceStatus(last: map<Act, Fut>, wf: Wf, st: Status): Status {
    var p := Phase(wf.code);
    if p.Some? && (OneCall(p.value) || p.value.ActAbandon?) && !Worked(last, p.value, FutOf(wf.futs, p.value))
    then PreStatus(p.value) else st
  }

  /** The variant has been stored by an acknowledged attempt. */
  predicate Ready(cfg: Config, last: map<Act, Fut>, wf: Wf, name: string) {
    exists i :: 0 <= i < |cfg.specs| && cfg.specs[i].name == name
                && Worked(last, ActResize(i), FutOf(wf.futs, ActResize(i)))
  }

  ghost predicate ObjsSim(cfg: Config, last: map<Act, Fut>, wf: Wf, e: map<string, Bytes>, d: map<string, Bytes>,
                          stranded: bool) {
    && (forall name :: name != ORIGINAL ==>
          && (name in d <==> name in e && Ready(cfg, last, wf, name))
          && (name in d ==> d[name] == e[name]))
    && (ORIGINAL in e ==> ORIGINAL in d && d[ORIGINAL] == e[ORIGINAL])
    && (stranded <==> ORIGINAL in d && ORIGINAL !in e)
    && (stranded ==> IsScheduled(wf, ActAbandon))
  }

  ghost predicate EnvSim(cfg: Config, last: map<Act, Fut>, wf: Wf, e: Env, d: Env, stranded: bool) {
    && e.row.Some?
    && d.row == Some(e.row.value.(status := OnceStatus(last, wf, e.row.value.status)))
    && ObjsSim(cfg, last, wf, e.objs, d.objs, stranded)
  }

  ghost predicate WfSim(last: map<Act, Fut>, v: Wf, w: Wf) {
    && v.code == w.code && v.hist == w.hist && v.issued == w.issued && v.timer == w.timer
    && v.late == [] && w.late == []
    && forall a :: FutSim(last, a, FutOf(v.futs, a), FutOf(w.futs, a))
  }

  ghost predicate Sim(cfg: Config, last: map<Act, Fut>, s: Upload, t: Upload, stranded: bool) {
    && s.now == t.now && s.neg == t.neg && s.url == t.url
    && (s.wf.None? ==> t == s && !stranded)
    && (s.wf.Some? ==>
          && t.wf.Some? && WfSim(last, s.wf.value, t.wf.value)
          && EnvSim(cfg, last, s.wf.value, s.env, t.env, stranded))
  }

  // ---- Moves that are made on both sides ----

  predicate Shared(m: Move) {
    m.Tick? || m.CreateRow? || m.StartWf? || m.Sign? || m.ClientPut? || m.Signal? || m.FireTimer?
  }

  lemma SimShared(cfg: Config, last: map<Act, Fut>, s: Upload, t: Upload, m: Move, stranded: bool)
    requires Chain(s) && Sim(cfg, last, s, t, stranded) && Shared(m)
    ensures Sim(cfg, last, Step(cfg, s, m), Step(cfg, t, m), stranded && !AcceptedPut(s, m))
  {
    if m.ClientPut? {
      SimPut(cfg, last, s, t, m, stranded);
    } else if m.Signal? || m.FireTimer? {
      SimEvent(cfg, last, s, t, m, stranded);
    }
  }

  lemma SimPut(cfg: Config, last: map<Act, Fut>, s: Upload, t: Upload, m: Move, stranded: bool)
    requires Chain(s) && Sim(cfg, last, s, t, stranded) && m.ClientPut?
    ensures Sim(cfg, last, Step(cfg, s, m), Step(cfg, t, m), stranded && !AcceptedPut(s, m))
  {
  }

  lemma SimEvent(cfg: Config, last: map<Act, Fut>, s: Upload, t: Upload, m: Move, stranded: bool)
    requires Sim(cfg, last, s, t, stranded) && (m.Signal? || m.FireTimer?)
    ensures Sim(cfg, last, Step(cfg, s, m), Step(cfg, t, m), stranded)
  {
    if s.wf.Some? {
      SameReady(cfg, last, s.wf.value, Step(cfg, s, m).wf.value);
    }
  }

  lemma SimCrash(cfg: Config, last: map<Act, Fut>, s: Upload, t: Upload, stranded: bool)
    requires SInv(cfg, s) && SInv(cfg, t) && Sim(cfg, last, s, t, stranded)
    ensures Sim(cfg, last, Step(cfg, s, Crash), Step(cfg, t, Crash), stranded)
  {
    if s.wf.Some? {
      CrashIsInvisible(|cfg.specs|, s.wf.value, s.now);
      CrashIsInvisible(|cfg.specs|, t.wf.value, t.now);
    }
  }

  /** A task issues the same commands on both sides. */
  lemma TaskSims(n: nat, last: map<Act, Fut>, v: Wf, w: Wf, now: nat)
    requires WfSim(last, v, w)
    ensures WfSim(last, TaskStep(n, v, now), TaskStep(n, w, now))
  {
    var cmds := Advance(n, v.code, v.hist + [Task]).cmds;
    forall a
      ensures FutSim(last, a, FutOf(Launch(v.futs, cmds), a), FutOf(Launch(w.futs, cmds), a))
    {
      LaunchFut(v.futs, cmds, a);
      LaunchFut(w.futs, cmds, a);
      assert FutSim(last, a, FutOf(v.futs, a), FutOf(w.futs, a));
    }
  }

  /** The row fits the program point. */
  ghost predicate Shown(s: Upload) {
    s.wf.Some? ==> s.env.row.Some? && Shows(s.wf.value, s.env.row.value.status)
  }

  lemma SimTask(cfg: Config, last: map<Act, Fut>, s: Upload, t: Upload, stranded: bool)
    requires SInv(cfg, s) && Shown(s) && Sim(cfg, last, s, t, stranded)
    ensures Sim(cfg, last, Step(cfg, s, RunTask), Step(cfg, t, RunTask), stranded)
  {
    if s.wf.Some? {
      TaskSims(|cfg.specs|, last, s.wf.value, t.wf.value, s.now);
      if !Ended(s.wf.value) && TaskDue(s.wf.value) {
        PhaseMoves(|cfg.specs|, s.wf.value, s.now);
        MovedStatus(last, s.wf.value, TaskStep(|cfg.specs|, s.wf.value, s.now), s.env.row.value.status);
        TaskObjs(cfg, last, s, t, stranded);
      }
    }
  }

  /** The future of an activity is left alone while the code waits for it, and is new when it begins to. */
  ghost predicate PhaseFut(v: Wf, w: Wf) {
    var p := Phase(w.code);
    p.Some? && !p.value.ActResize? ==>
      FutOf(w.futs, p.value) == if Phase(v.code) == p then FutOf(v.futs, p.value) else Backoff(0)
  }

  lemma PhaseMoves(n: nat, v: Wf, now: nat)
    requires WfInv(n, v) && !Ended(v) && TaskDue(v)
    ensures Moves(v, TaskStep(n, v, now).code) && PhaseFut(v, TaskStep(n, v, now))
  {
    var w := TaskStep(n, v, now);
    TaskSees(n, v);
    TaskGrows(n, v, now);
    TaskMoves(n, v, v.hist + [Task]);
    TaskKeeps(n, v, now);
    PhaseFuts(n, v, w);
  }

  lemma PhaseFuts(n: nat, v: Wf, w: Wf)
    requires FutsFit(n, v) && FutsFit(n, w) && Moves(v, w.code)
    requires forall a :: IsScheduled(v, a) ==> FutOf(w.futs, a) == FutOf(v.futs, a)
    requires forall a :: !IsScheduled(v, a) ==> FutOf(w.futs, a) in {Idle, Backoff(0)}
    ensures PhaseFut(v, w)
  {
    var p := Phase(w.code);
    if p.Some? && !p.value.ActResize? {
      assert IsScheduled(v, p.value) <==> Scheduled(n, v.code, p.value);
      assert IsScheduled(w, p.value) <==> Scheduled(n, w.code, p.value);
    }
  }

  lemma MovedStatus(last: map<Act, Fut>, v: Wf, w: Wf, st: Status)
    requires Shows(v, st) && Moves(v, w.code) && PhaseFut(v, w)
    ensures OnceStatus(last, w, st) == OnceStatus(last, v, st)
  {
  }

  lemma TaskObjs(cfg: Config, last: map<Act, Fut>, s: Upload, t: Upload, stranded: bool)
    requires SInv(cfg, s) && Sim(cfg, last, s, t, stranded) && s.wf.Some?
    requires !Ended(s.wf.value) && TaskDue(s.wf.value)
    ensures ObjsSim(cfg, last, TaskStep(|cfg.specs|, s.wf.value, s.now), s.env.objs, t.env.objs, stranded)
  {
    var v := s.wf.value;
    var w := TaskStep(|cfg.specs|, v, s.now);
    TaskGrows(|cfg.specs|, v, s.now);
    forall a
      ensures Worked(last, a, FutOf(w.futs, a)) <==> Worked(last, a, FutOf(v.futs, a))
    {
      assert IsScheduled(v, a) || FutOf(w.futs, a) in {Idle, Backoff(0)};
    }
    SameReady(cfg, last, v, w);
  }

  lemma SameReady(cfg: Config, last: map<Act, Fut>, v: Wf, w: Wf)
    requires forall a :: Worked(last, a, FutOf(w.futs, a)) <==> Worked(last, a, FutOf(v.futs, a))
    ensures forall name :: Ready(cfg, last, w, name) <==> Ready(cfg, last, v, name)
  {
  }

  // ---- Moves of the workers that make no call ----

  /** One future moves on, on the left alone or on both sides, without any work being done. */
  lemma FutMoves(cfg: Config, last: map<Act, Fut>, s: Upload, t: Upload, stranded: bool, s': Upload, t': Upload, a: Act)
    requires Sim(cfg, last, s, t, stranded) && s.wf.Some? && s'.wf.Some? && t'.wf.Some?
    requires var v, w, v', w' := s.wf.value, t.wf.value, s'.wf.value, t'.wf.value;
             && s' == s.(wf := Some(v.(futs := v.futs[a := FutOf(v'.futs, a)], hist := v'.hist)))
             && (t' == t || t' == t.(wf := Some(w.(futs := w.futs[a := FutOf(w'.futs, a)], hist := w'.hist))))
             && v'.hist == w'.hist && IsScheduled(v', a)
             && FutSim(last, a, FutOf(v'.futs, a), FutOf(w'.futs, a))
             && (Worked(last, a, FutOf(v'.futs, a)) <==> Worked(last, a, FutOf(v.futs, a)))
    ensures Sim(cfg, last, s', t', stranded)
  {
    var v, w, v', w' := s.wf.value, t.wf.value, s'.wf.value, t'.wf.value;
    forall b
      ensures FutSim(last, b, FutOf(v'.futs, b), FutOf(w'.futs, b))
      ensures Worked(last, b, FutOf(v'.futs, b)) <==> Worked(last, b, FutOf(v.futs, b))
    {
      assert FutSim(last, b, FutOf(v.futs, b), FutOf(w.futs, b));
    }
    SameReady(cfg, last, v, v');
  }

  predicate WorkerMove(m: Move) {
    m.Dispatch? || m.Report? || m.Expire?
  }

  lemma SimWorker(cfg: Config, last: map<Act, Fut>, s: Upload, t: Upload, m: Move, stranded: bool)
    requires Sim(cfg, last, s, t, stranded) && WorkerMove(m) && PromptMove(m)
    requires Heading(s, last) && Heading(Step(cfg, s, m), last)
    ensures Sim(cfg, last, Step(cfg, s, m), if Keeps(last, s, m) then Step(cfg, t, m) else t, stranded)
  {
    if s.wf.Some? {
      var a := m.a;
      var f, g := FutOf(s.wf.value.futs, a), FutOf(t.wf.value.futs, a);
      var s' := Step(cfg, s, m);
      var t' := if Keeps(last, s, m) then Step(cfg, t, m) else t;
      assert FutSim(last, a, f, g) && Heads(f, FutOf(last, a));
      assert Heads(FutOf(s'.wf.value.futs, a), FutOf(last, a));
      if s' != s {
        FutMoves(cfg, last, s, t, stranded, s', t', a);
      }
    }
  }

  // ---- Calls ----

  /** A call whose attempt is redundant changes only what the relation does not look at. */
  lemma SkippedCall(cfg: Config, last: map<Act, Fut>, s: Upload, t: Upload, m: Move, stranded: bool, stranded': bool)
    requires Sim(cfg, last, s, t, stranded) && s.wf.Some? && m.Call? && CallOf(cfg, s.wf.value, m).Some?
    requires !AckedRuns(last, s, m.a)
    requires EnvSim(cfg, last, s.wf.value, Step(cfg, s, m).env, t.env, stranded')
    ensures Sim(cfg, last, Step(cfg, s, m), t, stranded')
  {
    var v, w := s.wf.value, t.wf.value;
    var v' := Step(cfg, s, m).wf.value;
    forall a
      ensures FutSim(last, a, FutOf(v'.futs, a), FutOf(w.futs, a))
      ensures Worked(last, a, FutOf(v'.futs, a)) <==> Worked(last, a, FutOf(v.futs, a))
    {
      assert FutSim(last, a, FutOf(v.futs, a), FutOf(w.futs, a));
    }
    SameReady(cfg, last, v, v');
  }

  /** A store by a redundant attempt of a resize. */
  lemma SkippedStore(cfg: Config, last: map<Act, Fut>, s: Upload, d: Env, m: Move, stranded: bool)
    requires Good(cfg) && s.wf.Some? && EnvSim(cfg, last, s.wf.value, s.env, d, stranded)
    requires m.Call? && m.a.ActResize? && m.a.i < |cfg.specs| && CallOf(cfg, s.wf.value, m).Some?
    requires Fits(m.a, FutOf(s.wf.value.futs, m.a).att) && !AckedRuns(last, s, m.a)
    ensures EnvSim(cfg, last, s.wf.value, Step(cfg, s, m).env, d, stranded)
  {
    var name := cfg.specs[m.a.i].name;
    forall i: nat | i < |cfg.specs| && cfg.specs[i].name == name
      ensures !Worked(last, ActResize(i), FutOf(s.wf.value.futs, ActResize(i)))
    {
      NamesDistinct(cfg, i, m.a.i);
      assert m.a == ActResize(i);
    }
    assert !Ready(cfg, last, s.wf.value, name);
  }

  /** A status write, or Abandon's delete, by a redundant attempt. */
  lemma SkippedWrite(cfg: Config, last: map<Act, Fut>, s: Upload, d: Env, m: Move, stranded: bool, mend: bool)
    requires s.wf.Some? && EnvSim(cfg, last, s.wf.value, s.env, d, stranded)
    requires m.Call? && (OneCall(m.a) || m.a.ActAbandon?) && CallOf(cfg, s.wf.value, m).Some?
    requires Fits(m.a, FutOf(s.wf.value.futs, m.a).att) && !AckedRuns(last, s, m.a)
    requires Phase(s.wf.value.code) == Some(m.a)
    ensures EnvSim(cfg, last, s.wf.value, Step(cfg, s, m).env, d, StrandsNext(last, s, m, stranded, mend))
  {
  }

  lemma SimSkip(cfg: Config, last: map<Act, Fut>, s: Upload, t: Upload, m: Move, stranded: bool, mend: bool)
    requires Good(cfg) && SInv(cfg, s) && Heading(s, last) && Sim(cfg, last, s, t, stranded)
    requires m.Call? && !AckedRuns(last, s, m.a) && s.wf.Some? && CallOf(cfg, s.wf.value, m).Some?
    ensures Sim(cfg, last, Step(cfg, s, m), t, StrandsNext(last, s, m, stranded, mend))
  {
    CallerFits(cfg, s.wf.value, m);
    if m.a.ActResize? {
      SkippedStore(cfg, last, s, t.env, m, stranded);
    } else {
      var f := FutOf(s.wf.value.futs, m.a);
      assert Heads(f, FutOf(last, m.a)) && FutFits(m.a, f);
      SkippedWrite(cfg, last, s, t.env, m, stranded, mend);
    }
    SkippedCall(cfg, last, s, t, m, stranded, StrandsNext(last, s, m, stranded, mend));
  }

  lemma CallerFits(cfg: Config, wf: Wf, m: Move)
    requires WfInv(|cfg.specs|, wf) && m.Call? && CallOf(cfg, wf, m).Some?
    ensures Fits(m.a, FutOf(wf.futs, m.a).att) && FutFits(m.a, FutOf(wf.futs, m.a))
    ensures m.a.ActResize? ==> m.a.i < |cfg.specs|
    ensures Phase(wf.code) == Some(if m.a.ActResize? then ActResize(0) else m.a)
    ensures !m.a.ActAbandon? ==> FutOf(wf.futs, ActAbandon).Idle?
  {
  }

  /** The acknowledged attempt gets the same reply on both sides. */
  lemma MirroredCall(cfg: Config, last: map<Act, Fut>, s: Upload, t: Upload, m: Move, x: Move, stranded: bool,
                     stranded': bool)
    requires Sim(cfg, last, s, t, stranded) && s.wf.Some? && m.Call? && x.Call? && x.a == m.a
    requires AckedRuns(last, s, m.a) && CallOf(cfg, s.wf.value, m).Some?
    requires var op := CallOf(cfg, s.wf.value, m).value;
             Perform(cfg, s.env, op, m.fault).1 == Perform(cfg, t.env, op, x.fault).1
             || FutOf(s.wf.value.futs, m.a).att.ADrop?
    requires EnvSim(cfg, last, Step(cfg, s, m).wf.value, Step(cfg, s, m).env, Step(cfg, t, x).env, stranded')
    ensures Sim(cfg, last, Step(cfg, s, m), Step(cfg, t, x), stranded')
  {
    var v, w := s.wf.value, t.wf.value;
    assert FutSim(last, m.a, FutOf(v.futs, m.a), FutOf(w.futs, m.a));
    var v', w' := Step(cfg, s, m).wf.value, Step(cfg, t, x).wf.value;
    forall a
      ensures FutSim(last, a, FutOf(v'.futs, a), FutOf(w'.futs, a))
    {
      assert FutSim(last, a, FutOf(v.futs, a), FutOf(w.futs, a));
    }
  }

  /** The acknowledged attempt `att` of `a` makes its next call, which takes `v` to `v'`. */
  ghost predicate Calls(cfg: Config, last: map<Act, Fut>, v: Wf, v': Wf, e: Env, a: Act, att: Attempt, fault: Fault) {
    && !att.Done? && Fits(a, att) && v'.code == v.code
    && FutOf(v.futs, a).Running? && FutOf(v.futs, a).att == att && IsAcked(last, a, FutOf(v.futs, a).used)
    && var reply := Perform(cfg, e, Next(cfg, a, att), fault).1;
       v'.futs == v.futs[a := Running(FutOf(v.futs, a).used, Resume(cfg, att, reply))]
  }

  lemma CallsStep(cfg: Config, last: map<Act, Fut>, s: Upload, m: Move)
    requires s.wf.Some? && m.Call? && AckedRuns(last, s, m.a) && CallOf(cfg, s.wf.value, m).Some?
    requires Fits(m.a, FutOf(s.wf.value.futs, m.a).att)
    ensures var t := Step(cfg, s, m);
            && t.wf.Some?
            && Calls(cfg, last, s.wf.value, t.wf.value, s.env, m.a, FutOf(s.wf.value.futs, m.a).att, m.fault)
            && t.env == Perform(cfg, s.env, CallOf(cfg, s.wf.value, m).value, m.fault).0
  {
  }

  lemma OthersReady(cfg: Config, last: map<Act, Fut>, v: Wf, v': Wf, e: Env, a: Act, att: Attempt, fault: Fault)
    requires Calls(cfg, last, v, v', e, a, att, fault) && !a.ActResize?
    ensures forall name :: Ready(cfg, last, v', name) <==> Ready(cfg, last, v, name)
  {
    forall name
      ensures Ready(cfg, last, v', name) <==> Ready(cfg, last, v, name)
    {
      assert forall i: nat :: FutOf(v'.futs, ActResize(i)) == FutOf(v.futs, ActResize(i));
    }
  }

  /** What the acknowledged attempt's call leaves. Validate finds the same original on both sides. */
  lemma MirroredValidate(cfg: Config, last: map<Act, Fut>, v: Wf, v': Wf, e: Env, d: Env, att: Attempt, fault: Fault)
    requires EnvSim(cfg, last, v, e, d, false) && Calls(cfg, last, v, v', e, ActValidate, att, fault)
    requires Phase(v.code) == Some(ActValidate)
    ensures var op := Next(cfg, ActValidate, att);
            EnvSim(cfg, last, v', Perform(cfg, e, op, fault).0, Perform(cfg, d, op, fault).0, false)
  {
    OthersReady(cfg, last, v, v', e, ActValidate, att, fault);
  }

  /** Processing, Complete, Fail and the end of Abandon: the call is not lost, or its success would not
      be recorded. */
  lemma MirroredMark(cfg: Config, last: map<Act, Fut>, v: Wf, v': Wf, e: Env, d: Env, stranded: bool, a: Act,
                     att: Attempt)
    requires EnvSim(cfg, last, v, e, d, stranded) && Calls(cfg, last, v, v', e, a, att, NoFault)
    requires Phase(v.code) == Some(a) && (att.Mark? || att.AMark?)
    ensures var op := Next(cfg, a, att);
            EnvSim(cfg, last, v', Perform(cfg, e, op, NoFault).0, Perform(cfg, d, op, NoFault).0, stranded)
  {
    OthersReady(cfg, last, v, v', e, a, att, NoFault);
  }

  /** Abandon's delete may be lost, and is mended if that is asked for and no original is there. */
  lemma MirroredSweep(cfg: Config, last: map<Act, Fut>, v: Wf, v': Wf, e: Env, d: Env, stranded: bool, fault: Fault,
                      mend: bool)
    requires EnvSim(cfg, last, v, e, d, stranded) && Calls(cfg, last, v, v', e, ActAbandon, ADrop, fault)
    requires Phase(v.code) == Some(ActAbandon)
    ensures var fault' := if mend && fault.Before? && ORIGINAL !in e.objs then NoFault else fault;
            EnvSim(cfg, last, v', Perform(cfg, e, Remove, fault).0, Perform(cfg, d, Remove, fault').0,
                   stranded && fault.Before? && !mend)
  {
    OthersReady(cfg, last, v, v', e, ActAbandon, ADrop, fault);
  }

  /** Resize: the variant it stores is the resized original on both sides. */
  lemma MirroredResize(cfg: Config, last: map<Act, Fut>, v: Wf, v': Wf, e: Env, d: Env, i: nat, att: Attempt,
                       fault: Fault)
    requires Good(cfg) && i < |cfg.specs| && EnvSim(cfg, last, v, e, d, false)
    requires Calls(cfg, last, v, v', e, ActResize(i), att, fault) && Phase(v.code) == Some(ActResize(0))
    requires var att' := FutOf(v'.futs, ActResize(i)).att; att'.Done? ==> att'.res.Ok?
    ensures var op := Next(cfg, ActResize(i), att);
            EnvSim(cfg, last, v', Perform(cfg, e, op, fault).0, Perform(cfg, d, op, fault).0, false)
  {
    forall name
      ensures Ready(cfg, last, v', name) <==> Ready(cfg, last, v, name) || (att.RStore? && name == cfg.specs[i].name)
    {
      assert forall j: nat :: j != i ==> FutOf(v'.futs, ActResize(j)) == FutOf(v.futs, ActResize(j));
      assert att.RStore? && name == cfg.specs[i].name ==> Ready(cfg, last, v', name);
    }
  }

  /** A call of the acknowledged attempt that is lost, or refused, does not end it. */
  lemma AckedEndsWell(cfg: Config, last: map<Act, Fut>, s: Upload, t: Upload, m: Move)
    requires Sim(cfg, last, s, t, false) || Sim(cfg, last, s, t, true)
    requires m.Call? && AckedRuns(last, s, m.a) && CallOf(cfg, s.wf.value, m).Some?
    requires Heads(FutOf(Step(cfg, s, m).wf.value.futs, m.a), FutOf(last, m.a))
    ensures CallOf(cfg, t.wf.value, m) == CallOf(cfg, s.wf.value, m)
    ensures var att := FutOf(Step(cfg, s, m).wf.value.futs, m.a).att; att.Done? ==> att.res.Ok?
    ensures var att := FutOf(s.wf.value.futs, m.a).att; att.Mark? || att.AMark? ==> m.fault.NoFault?
  {
    assert FutSim(last, m.a, FutOf(s.wf.value.futs, m.a), FutOf(t.wf.value.futs, m.a));
  }

  lemma SimMirror(cfg: Config, last: map<Act, Fut>, s: Upload, t: Upload, m: Move, stranded: bool, mend: bool)
    requires Good(cfg) && SInv(cfg, s) && Sim(cfg, last, s, t, stranded) && Heading(Step(cfg, s, m), last)
    requires m.Call? && AckedRuns(last, s, m.a) && CallOf(cfg, s.wf.value, m).Some?
    ensures Sim(cfg, last, Step(cfg, s, m), Step(cfg, t, KeptMove(s, m, mend)), StrandsNext(last, s, m, stranded, mend))
  {
    CallerFits(cfg, s.wf.value, m);
    assert Heads(FutOf(FutsOf(Step(cfg, s, m)), m.a), FutOf(last, m.a));
    AckedEndsWell(cfg, last, s, t, m);
    MirrorOne(cfg, last, s, t, m, stranded, mend);
  }

  lemma MirrorOne(cfg: Config, last: map<Act, Fut>, s: Upload, t: Upload, m: Move, stranded: bool, mend: bool)
    requires Good(cfg) && Sim(cfg, last, s, t, stranded) && s.wf.Some?
    requires m.Call? && AckedRuns(last, s, m.a) && CallOf(cfg, s.wf.value, m).Some?
    requires CallOf(cfg, t.wf.value, m) == CallOf(cfg, s.wf.value, m)
    requires Fits(m.a, FutOf(s.wf.value.futs, m.a).att) && (m.a.ActResize? ==> m.a.i < |cfg.specs|)
    requires Phase(s.wf.value.code) == Some(if m.a.ActResize? then ActResize(0) else m.a)
    requires !m.a.ActAbandon? ==> FutOf(s.wf.value.futs, ActAbandon).Idle?
    requires var att := FutOf(Step(cfg, s, m).wf.value.futs, m.a).att; att.Done? ==> att.res.Ok?
    requires var att := FutOf(s.wf.value.futs, m.a).att; att.Mark? || att.AMark? ==> m.fault.NoFault?
    ensures Sim(cfg, last, Step(cfg, s, m), Step(cfg, t, KeptMove(s, m, mend)), StrandsNext(last, s, m, stranded, mend))
  {
    var v, v', x := s.wf.value, Step(cfg, s, m).wf.value, KeptMove(s, m, mend);
    var att := FutOf(v.futs, m.a).att;
    CallsStep(cfg, last, s, m);
    CallEnv(cfg, t, x);
    if m.a.ActValidate? {
      MirroredValidate(cfg, last, v, v', s.env, t.env, att, m.fault);
    } else if m.a.ActResize? {
      MirroredResize(cfg, last, v, v', s.env, t.env, m.a.i, att, m.fault);
    } else if att.ADrop? {
      MirroredSweep(cfg, last, v, v', s.env, t.env, stranded, m.fault, mend);
    } else {
      MirroredMark(cfg, last, v, v', s.env, t.env, stranded, m.a, att);
    }
    MirroredCall(cfg, last, s, t, m, x, stranded, StrandsNext(last, s, m, stranded, mend));
  }

  lemma CallEnv(cfg: Config, t: Upload, x: Move)
    requires t.wf.Some? && x.Call? && CallOf(cfg, t.wf.value, x).Some?
    ensures Step(cfg, t, x).env == Perform(cfg, t.env, CallOf(cfg, t.wf.value, x).value, x.fault).0
  {
  }

  // ---- Whole runs ----

  lemma SimCalls(cfg: Config, last: map<Act, Fut>, s: Upload, t: Upload, m: Move, stranded: bool, mend: bool)
    requires Good(cfg) && SInv(cfg, s) && Sim(cfg, last, s, t, stranded) && m.Call?
    requires Heading(s, last) && Heading(Step(cfg, s, m), last)
    ensures Sim(cfg, last, Step(cfg, s, m), if Keeps(last, s, m) then Step(cfg, t, KeptMove(s, m, mend)) else t,
                StrandsNext(last, s, m, stranded, mend))
  {
    if s.wf.Some? && CallOf(cfg, s.wf.value, m).Some? {
      if AckedRuns(last, s, m.a) {
        SimMirror(cfg, last, s, t, m, stranded, mend);
      } else {
        SimSkip(cfg, last, s, t, m, stranded, mend);
      }
    } else {
      NoCall(cfg, last, s, t, m, stranded, mend);
    }
  }

  lemma NoCall(cfg: Config, last: map<Act, Fut>, s: Upload, t: Upload, m: Move, stranded: bool, mend: bool)
    requires Sim(cfg, last, s, t, stranded) && m.Call? && (s.wf.Some? ==> CallOf(cfg, s.wf.value, m).None?)
    ensures Step(cfg, s, m) == s && (Keeps(last, s, m) ==> Step(cfg, t, KeptMove(s, m, mend)) == t)
    ensures StrandsNext(last, s, m, stranded, mend) == stranded
  {
    if s.wf.Some? {
      assert FutSim(last, m.a, FutOf(s.wf.value.futs, m.a), FutOf(t.wf.value.futs, m.a));
    }
  }

  lemma SimStep(cfg: Config, last: map<Act, Fut>, s: Upload, t: Upload, m: Move, stranded: bool, mend: bool)
    requires Good(cfg) && SInv(cfg, s) && Shown(s) && SInv(cfg, t) && Sim(cfg, last, s, t, stranded)
    requires PromptMove(m)
    requires Heading(s, last) && Heading(Step(cfg, s, m), last)
    ensures Sim(cfg, last, Step(cfg, s, m), if Keeps(last, s, m) then Step(cfg, t, KeptMove(s, m, mend)) else t,
                StrandsNext(last, s, m, stranded, mend))
  {
    if m.Call? {
      SimCalls(cfg, last, s, t, m, stranded, mend);
    } else if m.RunTask? {
      SimTask(cfg, last, s, t, stranded);
    } else if m.Crash? {
      SimCrash(cfg, last, s, t, stranded);
    } else if WorkerMove(m) {
      SimWorker(cfg, last, s, t, m, stranded);
    } else if !m.LateCall? {
      SimShared(cfg, last, s, t, m, stranded);
    }
  }

  lemma {:induction false} KeptPrompt(cfg: Config, last: map<Act, Fut>, ms: seq<Move>, mend: bool)
    requires Prompt(ms)
    ensures Prompt(Kept(cfg, last, ms, mend))
    decreases |ms|
  {
    if ms != [] {
      KeptPrompt(cfg, last, ms[..|ms| - 1], mend);
    }
  }

  lemma RunShown(cfg: Config, ms: seq<Move>)
    requires Good(cfg) && Prompt(ms)
    ensures SInv(cfg, Run(cfg, Begin(), ms)) && Shown(Run(cfg, Begin(), ms))
  {
    RunPrompt(cfg, Begin(), ms);
  }

  lemma {:induction false} OnceSimulates(cfg: Config, last: map<Act, Fut>, ms: seq<Move>, mend: bool)
    requires Good(cfg) && Prompt(ms) && Heading(Run(cfg, Begin(), ms), last)
    ensures Sim(cfg, last, Run(cfg, Begin(), ms), Run(cfg, Begin(), Kept(cfg, last, ms, mend)),
                Stranded(cfg, last, ms, mend))
    decreases |ms|
  {
    if ms != [] {
      var rest, m := ms[..|ms| - 1], ms[|ms| - 1];
      var s, kept := Run(cfg, Begin(), rest), Kept(cfg, last, rest, mend);
      RunShown(cfg, rest);
      HeadingBefore(cfg, s, m, last);
      OnceSimulates(cfg, last, rest, mend);
      RunSafe(cfg, Begin(), kept);
      SimStep(cfg, last, s, Run(cfg, Begin(), kept), m, Stranded(cfg, last, rest, mend), mend);
      RunSnoc(cfg, Begin(), kept, KeptMove(s, m, mend));
      assert kept + [] == kept;
    }
  }
}
