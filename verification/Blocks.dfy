/** Whole attempts run without interference, as exact equations on states. */
module Blocks {
  import opened Types
  import opened Attempts
  import opened Workflow
  import opened Machine

  lemma RunOne(cfg: Config, s: Upload, m: Move)
    ensures Run(cfg, s, [m]) == Step(cfg, s, m)
  {
  }

  lemma RunFirst(cfg: Config, s: Upload, m: Move, ms: seq<Move>)
    ensures Run(cfg, s, [m] + ms) == Run(cfg, Step(cfg, s, m), ms)
  {
    RunAppend(cfg, s, [m], ms);
    RunOne(cfg, s, m);
  }

  predicate IsRun(cfg: Config, s: Upload, ms: seq<Move>, t: Upload) {
    t == Run(cfg, s, ms)
  }

  /** The moves lead from `s` to `t`. (Quantified so that `Run` is unfolded only on demand.) */
  ghost predicate Goes(cfg: Config, s: Upload, ms: seq<Move>, t: Upload) {
    forall u {:trigger IsRun(cfg, s, ms, u)} :: IsRun(cfg, s, ms, u) ==> u == t
  }

  lemma GoesMeans(cfg: Config, s: Upload, ms: seq<Move>, t: Upload)
    ensures Goes(cfg, s, ms, t) <==> Run(cfg, s, ms) == t
  {
    assert IsRun(cfg, s, ms, Run(cfg, s, ms));
  }

  lemma GoesFirst(cfg: Config, s: Upload, m: Move, ms: seq<Move>, t: Upload)
    requires Goes(cfg, Step(cfg, s, m), ms, t)
    ensures Goes(cfg, s, [m] + ms, t)
  {
    RunFirst(cfg, s, m, ms);
    GoesMeans(cfg, Step(cfg, s, m), ms, t);
  }

  // ---- The moves of one attempt, one at a time ----

  /** The state `s` with one activity's future, the environment and the log as given. */
  function With(s: Upload, a: Act, f: Fut, e: Env, log: seq<Op>): Upload
    requires s.wf.Some?
  {
    s.(env := e, wf := Some(s.wf.value.(futs := s.wf.value.futs[a := f], log := log)))
  }

  /** The state `s` when attempt number `used` of `a` has been recorded with result `r`. */
  function Reported(s: Upload, a: Act, used: nat, r: Result, e: Env, log: seq<Op>): Upload
    requires s.wf.Some?
  {
    s.(env := e, wf := Some(Settle(s.wf.value.(log := log), a, used, r)))
  }

  function Extend(log: seq<Op>, op: Op, fault: Fault): seq<Op> {
    if Writes(op) && !fault.Before? then log + [op] else log
  }

  lemma PutTwice(futs: map<Act, Fut>, a: Act, f: Fut, g: Fut)
    ensures futs[a := f][a := g] == futs[a := g]
  {
  }

  lemma GoDispatch(cfg: Config, s: Upload, a: Act, ms: seq<Move>, t: Upload)
    requires s.wf.Some? && FutOf(s.wf.value.futs, a).Backoff?
    requires Goes(cfg, With(s, a, Running(FutOf(s.wf.value.futs, a).used + 1, Start(a)), s.env, s.wf.value.log), ms, t)
    ensures Goes(cfg, s, [Dispatch(a)] + ms, t)
  {
    GoesFirst(cfg, s, Dispatch(a), ms, t);
  }

  lemma CallInside(cfg: Config, s: Upload, a: Act, used: nat, att: Attempt, e: Env, log: seq<Op>, fault: Fault)
    requires s.wf.Some? && !att.Done?
    ensures var op := Next(cfg, a, att);
            var (e', reply) := Perform(cfg, e, op, fault);
            Step(cfg, With(s, a, Running(used, att), e, log), Call(a, fault)) ==
            With(s, a, Running(used, Resume(cfg, att, reply)), e', Extend(log, op, fault))
  {
    var reply := Perform(cfg, e, Next(cfg, a, att), fault).1;
    PutTwice(s.wf.value.futs, a, Running(used, att), Running(used, Resume(cfg, att, reply)));
  }

  lemma GoCall(cfg: Config, s: Upload, a: Act, used: nat, att: Attempt, e: Env, log: seq<Op>, fault: Fault,
               ms: seq<Move>, t: Upload)
    requires s.wf.Some? && !att.Done?
    requires var op := Next(cfg, a, att);
             var (e', reply) := Perform(cfg, e, op, fault);
             Goes(cfg, With(s, a, Running(used, Resume(cfg, att, reply)), e', Extend(log, op, fault)), ms, t)
    ensures Goes(cfg, With(s, a, Running(used, att), e, log), [Call(a, fault)] + ms, t)
  {
    CallInside(cfg, s, a, used, att, e, log, fault);
    GoesFirst(cfg, With(s, a, Running(used, att), e, log), Call(a, fault), ms, t);
  }

  lemma GoReport(cfg: Config, s: Upload, a: Act, used: nat, r: Result, e: Env, log: seq<Op>)
    requires s.wf.Some?
    ensures Goes(cfg, With(s, a, Running(used, Done(r)), e, log), [Report(a)], Reported(s, a, used, r, e, log))
  {
    var t := With(s, a, Running(used, Done(r)), e, log);
    PutTwice(s.wf.value.futs, a, Running(used, Done(r)), Finished(used, r));
    PutTwice(s.wf.value.futs, a, Running(used, Done(r)), Backoff(used));
    RunOne(cfg, t, Report(a));
    GoesMeans(cfg, t, [Report(a)], Reported(s, a, used, r, e, log));
  }

  lemma GoExpire(cfg: Config, s: Upload, a: Act, used: nat, att: Attempt, e: Env, log: seq<Op>)
    requires s.wf.Some?
    ensures Goes(cfg, With(s, a, Running(used, att), e, log), [Expire(a, false)],
                 Reported(s, a, used, Err(TimedOut), e, log))
  {
    var t := With(s, a, Running(used, att), e, log);
    PutTwice(s.wf.value.futs, a, Running(used, att), Finished(used, Err(TimedOut)));
    PutTwice(s.wf.value.futs, a, Running(used, att), Backoff(used));
    RunOne(cfg, t, Expire(a, false));
    GoesMeans(cfg, t, [Expire(a, false)], Reported(s, a, used, Err(TimedOut), e, log));
  }

  // ---- Whole attempts ----

  /** An attempt that is timed out before it does anything. */
  function ExpireTry(a: Act): seq<Move> {
    [Dispatch(a)] + [Expire(a, false)]
  }

  lemma ExpireTryRuns(cfg: Config, s: Upload, a: Act)
    requires s.wf.Some? && FutOf(s.wf.value.futs, a).Backoff?
    ensures Run(cfg, s, ExpireTry(a)) ==
            s.(wf := Some(Settle(s.wf.value, a, FutOf(s.wf.value.futs, a).used + 1, Err(TimedOut))))
  {
    var used := FutOf(s.wf.value.futs, a).used + 1;
    var t := Reported(s, a, used, Err(TimedOut), s.env, s.wf.value.log);
    GoExpire(cfg, s, a, used, Start(a), s.env, s.wf.value.log);
    GoDispatch(cfg, s, a, [Expire(a, false)], t);
    GoesMeans(cfg, s, ExpireTry(a), t);
  }

  predicate OneCall(a: Act) {
    a.ActProcessing? || a.ActComplete? || a.ActFail?
  }

  function WriteResult(fault: Fault): Result {
    if fault.NoFault? then Ok else Err(CallFailed)
  }

  /** One attempt of Processing, Complete or Fail, reported. */
  function MarkTry(a: Act, fault: Fault): seq<Move> {
    [Dispatch(a)] + ([Call(a, fault)] + [Report(a)])
  }

  /** A status write, reported: the end of every one-call activity and of Abandon. */
  lemma GoWrite(cfg: Config, s: Upload, a: Act, used: nat, att: Attempt, e: Env, log: seq<Op>, fault: Fault)
    requires s.wf.Some? && (att.Mark? || att.AMark?)
    ensures var op := Next(cfg, a, att);
            Goes(cfg, With(s, a, Running(used, att), e, log), [Call(a, fault)] + [Report(a)],
                 Reported(s, a, used, WriteResult(fault), Perform(cfg, e, op, fault).0, Extend(log, op, fault)))
  {
    var op := Next(cfg, a, att);
    var e' := Perform(cfg, e, op, fault).0;
    var log' := Extend(log, op, fault);
    GoReport(cfg, s, a, used, WriteResult(fault), e', log');
    GoCall(cfg, s, a, used, att, e, log, fault, [Report(a)], Reported(s, a, used, WriteResult(fault), e', log'));
  }

  lemma MarkTryRuns(cfg: Config, s: Upload, a: Act, fault: Fault)
    requires OneCall(a) && s.wf.Some? && FutOf(s.wf.value.futs, a).Backoff?
    ensures var wf := s.wf.value;
            var op := Update(Target(a));
            Run(cfg, s, MarkTry(a, fault)) ==
            Reported(s, a, FutOf(wf.futs, a).used + 1, WriteResult(fault), Perform(cfg, s.env, op, fault).0,
                     Extend(wf.log, op, fault))
  {
    var wf := s.wf.value;
    var op := Update(Target(a));
    var used := FutOf(wf.futs, a).used + 1;
    var t := Reported(s, a, used, WriteResult(fault), Perform(cfg, s.env, op, fault).0, Extend(wf.log, op, fault));
    GoWrite(cfg, s, a, used, Mark, s.env, wf.log, fault);
    GoDispatch(cfg, s, a, [Call(a, fault)] + [Report(a)], t);
    GoesMeans(cfg, s, MarkTry(a, fault), t);
  }

  /** One attempt of Abandon, reported. */
  function AbandonTry(drop: Fault, fault: Fault): seq<Move> {
    [Dispatch(ActAbandon)] + ([Call(ActAbandon, drop)] + ([Call(ActAbandon, fault)] + [Report(ActAbandon)]))
  }

  lemma AbandonTryRuns(cfg: Config, s: Upload, drop: Fault, fault: Fault)
    requires s.wf.Some? && FutOf(s.wf.value.futs, ActAbandon).Backoff?
    ensures var wf := s.wf.value;
            var e := Perform(cfg, s.env, Remove, drop).0;
            Run(cfg, s, AbandonTry(drop, fault)) ==
            Reported(s, ActAbandon, FutOf(wf.futs, ActAbandon).used + 1, WriteResult(fault),
                     Perform(cfg, e, Update(Abandoned), fault).0,
                     Extend(Extend(wf.log, Remove, drop), Update(Abandoned), fault))
  {
    var a := ActAbandon;
    var wf := s.wf.value;
    var used := FutOf(wf.futs, a).used + 1;
    var e := Perform(cfg, s.env, Remove, drop).0;
    var log := Extend(wf.log, Remove, drop);
    var t := Reported(s, a, used, WriteResult(fault), Perform(cfg, e, Update(Abandoned), fault).0,
                      Extend(log, Update(Abandoned), fault));
    var tail := [Call(a, fault)] + [Report(a)];
    GoWrite(cfg, s, a, used, AMark, e, log, fault);
    GoCall(cfg, s, a, used, ADrop, s.env, wf.log, drop, tail, t);
    GoDispatch(cfg, s, a, [Call(a, drop)] + tail, t);
    GoesMeans(cfg, s, AbandonTry(drop, fault), t);
  }

  /** One successful attempt of a resize, reported. */
  function ResizeTry(i: nat): seq<Move> {
    var a := ActResize(i);
    [Dispatch(a)] + ([Call(a, NoFault)] + ([Call(a, NoFault)] + ([Call(a, NoFault)] + [Report(a)])))
  }

  lemma ResizeTryRuns(cfg: Config, s: Upload, i: nat)
    requires i < |cfg.specs| && s.wf.Some? && FutOf(s.wf.value.futs, ActResize(i)).Backoff?
    requires ORIGINAL in s.env.objs
    requires cfg.resize(s.env.objs[ORIGINAL], cfg.specs[i].w, cfg.specs[i].h).Some?
    ensures var wf := s.wf.value;
            var d := cfg.resize(s.env.objs[ORIGINAL], cfg.specs[i].w, cfg.specs[i].h).value;
            var op := Store(cfg.specs[i].name, d);
            Run(cfg, s, ResizeTry(i)) ==
            Reported(s, ActResize(i), FutOf(wf.futs, ActResize(i)).used + 1, Ok, Effect(s.env, op), wf.log + [op])
  {
    var a := ActResize(i);
    var wf := s.wf.value;
    var used := FutOf(wf.futs, a).used + 1;
    var b := s.env.objs[ORIGINAL];
    var d := cfg.resize(b, cfg.specs[i].w, cfg.specs[i].h).value;
    var op := Store(cfg.specs[i].name, d);
    var t := Reported(s, a, used, Ok, Effect(s.env, op), wf.log + [op]);
    var tail := [Call(a, NoFault)] + [Report(a)];
    GoReport(cfg, s, a, used, Ok, Effect(s.env, op), wf.log + [op]);
    GoCall(cfg, s, a, used, RStore(d), s.env, wf.log, NoFault, [Report(a)], t);
    GoCall(cfg, s, a, used, RScale(b), s.env, wf.log, NoFault, tail, t);
    GoCall(cfg, s, a, used, RFetch, s.env, wf.log, NoFault, [Call(a, NoFault)] + tail, t);
    GoDispatch(cfg, s, a, [Call(a, NoFault)] + ([Call(a, NoFault)] + tail), t);
    GoesMeans(cfg, s, ResizeTry(i), t);
  }

  /** The moves of an attempt that runs to its end, report included. */
  function FinishMoves(cfg: Config, a: Act, att: Attempt, e: Env, faults: nat -> Fault, k: nat): seq<Move>
    decreases CallsLeft(att)
  {
    if att.Done? then [Report(a)]
    else
      var (e', reply) := Perform(cfg, e, Next(cfg, a, att), faults(k));
      [Call(a, faults(k))] + FinishMoves(cfg, a, Resume(cfg, att, reply), e', faults, k + 1)
  }

  lemma {:induction false} FinishRuns(cfg: Config, s: Upload, a: Act, used: nat, att: Attempt, e: Env, log: seq<Op>,
                                      faults: nat -> Fault, k: nat) returns (log': seq<Op>)
    requires s.wf.Some?
    ensures var (e', r) := Finish(cfg, a, att, e, faults, k);
            Goes(cfg, With(s, a, Running(used, att), e, log), FinishMoves(cfg, a, att, e, faults, k),
                 Reported(s, a, used, r, e', log'))
    ensures Prompt(FinishMoves(cfg, a, att, e, faults, k))
    decreases CallsLeft(att)
  {
    if att.Done? {
      log' := log;
      GoReport(cfg, s, a, used, att.res, e, log);
    } else {
      var op := Next(cfg, a, att);
      var (e', reply) := Perform(cfg, e, op, faults(k));
      var att' := Resume(cfg, att, reply);
      log' := FinishRuns(cfg, s, a, used, att', e', Extend(log, op, faults(k)), faults, k + 1);
      var (e1, r) := Finish(cfg, a, att', e', faults, k + 1);
      GoCall(cfg, s, a, used, att, e, log, faults(k), FinishMoves(cfg, a, att', e', faults, k + 1),
             Reported(s, a, used, r, e1, log'));
    }
  }

  /** The machine, left to run one attempt undisturbed, does exactly what `Finish` says. */
  lemma AttemptRuns(cfg: Config, s: Upload, a: Act, faults: nat -> Fault) returns (log: seq<Op>)
    requires s.wf.Some? && FutOf(s.wf.value.futs, a).Backoff?
    ensures var (e, r) := Finish(cfg, a, Start(a), s.env, faults, 0);
            Run(cfg, s, [Dispatch(a)] + FinishMoves(cfg, a, Start(a), s.env, faults, 0)) ==
            Reported(s, a, FutOf(s.wf.value.futs, a).used + 1, r, e, log)
    ensures Prompt([Dispatch(a)] + FinishMoves(cfg, a, Start(a), s.env, faults, 0))
  {
    var ms := FinishMoves(cfg, a, Start(a), s.env, faults, 0);
    var used := FutOf(s.wf.value.futs, a).used + 1;
    log := FinishRuns(cfg, s, a, used, Start(a), s.env, s.wf.value.log, faults, 0);
    var (e, r) := Finish(cfg, a, Start(a), s.env, faults, 0);
    GoDispatch(cfg, s, a, ms, Reported(s, a, used, r, e, log));
    GoesMeans(cfg, s, [Dispatch(a)] + ms, Reported(s, a, used, r, e, log));
  }
}
