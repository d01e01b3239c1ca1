/** Which timed-out attempts can take a row out of order by acting late: those of Processing, and no
    others. */
module Lateness {
  import opened Types
  import opened Attempts
  import opened Workflow
  import opened Machine
  import opened Inv
  import opened Safety
  import opened SafetyTheorems
  import opened StatusOrder
  import opened Blocks
  import opened FanOut
  import opened Progress
  import opened Reachable

  /** Only attempts of `acts` go on acting after their timeout was reported. */
  ghost predicate LingerIn(ms: seq<Move>, acts: iset<Act>) {
    forall i :: 0 <= i < |ms| && ms[i].Expire? && ms[i].lingers ==> ms[i].a in acts
  }

  /** Some run in which only attempts of `acts` linger shows two reads of a row out of order. */
  ghost predicate BreaksOrder(cfg: Config, acts: iset<Act>) {
    exists ms, later :: LingerIn(ms + later, acts) && OutOfOrder(cfg, ms, later)
  }

  predicate OutOfOrder(cfg: Config, ms: seq<Move>, later: seq<Move>) {
    var s, t := Run(cfg, Begin(), ms), Run(cfg, Begin(), ms + later);
    s.env.row.Some? && t.env.row.Some? && !Precedes(StatusOf(s), StatusOf(t))
  }

  function AddLate(s: Upload, l: seq<Late>): Upload
    requires s.wf.Some?
  {
    s.(wf := Some(s.wf.value.(late := l)))
  }

  /** Late attempts that keep still do not disturb the rest of the run. */
  lemma {:induction false} LateFrame(cfg: Config, s: Upload, l: seq<Late>, ms: seq<Move>)
    requires s.wf.Some? && s.neg in {Started, Issued, GaveUp} && Prompt(ms) && WorkersOnly(ms)
    ensures var t := Run(cfg, s, ms);
            && t.wf.Some? && t.neg in {Started, Issued, GaveUp}
            && Run(cfg, AddLate(s, l), ms) == AddLate(t, l)
    decreases |ms|
  {
    if ms != [] {
      LateFrame(cfg, s, l, ms[..|ms| - 1]);
      LateFrameStep(cfg, Run(cfg, s, ms[..|ms| - 1]), l, ms[|ms| - 1]);
    }
  }

  lemma LateFrameStep(cfg: Config, s: Upload, l: seq<Late>, m: Move)
    requires s.wf.Some? && s.neg in {Started, Issued, GaveUp} && PromptMove(m) && !m.LateCall?
    ensures var t := Step(cfg, s, m);
            && t.wf.Some? && t.neg in {Started, Issued, GaveUp}
            && Step(cfg, AddLate(s, l), m) == AddLate(t, l)
  {
  }

  /** From any attempt of Processing that is yet to be made, the rest of a run that completes. */
  lemma ToComplete(cfg: Config, s: Upload, good: Bytes) returns (t: Upload, ms: seq<Move>)
    requires Good(cfg) && |cfg.specs| > 0 && Resizable(cfg, good)
    requires Reach(cfg, s) && s.wf.Some? && s.env.row.Some?
    requires s.wf.value.code == Await(ActProcessing, None) && FutOf(s.wf.value.futs, ActProcessing).Backoff?
    requires ORIGINAL in s.env.objs && s.env.objs[ORIGINAL] == good
    ensures Prompt(ms) && WorkersOnly(ms) && t == Run(cfg, s, ms) && t.wf.Some?
    ensures t.wf.value.code == Closed(ActComplete, Nil) && t.env.row.Some? && StatusOf(t) == Complete
  {
    var s1, ms1 := FanOutFrom(cfg, s, good, true);
    var s2, ms2 := ResizeAll(cfg, s1, good, 0, true);
    GatherStep(cfg, s2, good, true);
    var s3 := Step(cfg, s2, RunTask);
    var ms3;
    t, ms3 := FinishComplete(cfg, s3);
    RunFirst(cfg, s2, RunTask, ms3);
    RunAppend(cfg, s1, ms2, [RunTask] + ms3);
    RunAppend(cfg, s, ms1, ms2 + ([RunTask] + ms3));
    ms := ms1 + (ms2 + ([RunTask] + ms3));
  }

  lemma FinishComplete(cfg: Config, s: Upload) returns (t: Upload, ms: seq<Move>)
    requires Good(cfg) && JustScheduled(cfg, s, ActComplete, Processing)
    ensures Prompt(ms) && WorkersOnly(ms) && t == Run(cfg, s, ms) && t.wf.Some?
    ensures t.wf.value.code == Closed(ActComplete, Nil) && t.env.row.Some? && StatusOf(t) == Complete
  {
    var try := MarkTry(ActComplete, NoFault);
    MarkSucceeds(cfg, s, ActComplete);
    var u := Run(cfg, s, try);
    ReachSafe(cfg, u);
    CloseStep(cfg, u);
    t, ms := Step(cfg, u, RunTask), try + [RunTask];
    RunSnoc(cfg, s, try, RunTask);
  }

  /** The run closes as `complete`, and a late call then turns the row back. */
  ghost predicate LateRun(cfg: Config, s: Upload, ms: seq<Move>) {
    var t := Run(cfg, s, ms);
    var u := Run(cfg, s, ms + [LateCall(0, NoFault)]);
    && LingerIn(ms, iset{ActProcessing})
    && t.wf.Some? && t.wf.value.code == Closed(ActComplete, Nil)
    && t.env.row.Some? && StatusOf(t) == Complete
    && u.env.row.Some? && StatusOf(u) == Processing
  }

  /** The first attempt of Processing times out but lingers; everything after it is prompt. */
  lemma RunLate(cfg: Config, s: Upload, good: Bytes)
    requires Good(cfg) && |cfg.specs| > 0 && Resizable(cfg, good)
    requires JustScheduled(cfg, s, ActProcessing, Validating) && s.wf.value.code.carry.None?
    requires ORIGINAL in s.env.objs && s.env.objs[ORIGINAL] == good
    ensures exists ms :: LateRun(cfg, s, ms)
  {
    var a := ActProcessing;
    var l := [Late(a, Mark)];
    var linger := [Dispatch(a)] + [Expire(a, true)];
    NothingLate(cfg, s);
    var s1 := ExpireOnce(cfg, s, a);
    Lingers(cfg, s, a);
    var t, rest := ToComplete(cfg, s1, good);
    LateFrame(cfg, s1, l, rest);
    RunAppend(cfg, s, linger, rest);
    var ms := linger + rest;
    assert Run(cfg, s, ms) == AddLate(t, l);
    RunSnoc(cfg, s, ms, LateCall(0, NoFault));
    ActsLate(cfg, t);
    assert Run(cfg, s, ms + [LateCall(0, NoFault)]) == Step(cfg, AddLate(t, l), LateCall(0, NoFault));
    assert LateRun(cfg, s, ms);
  }

  lemma ActsLate(cfg: Config, t: Upload)
    requires t.wf.Some? && t.env.row.Some?
    ensures var u := Step(cfg, AddLate(t, [Late(ActProcessing, Mark)]), LateCall(0, NoFault));
            u.env.row.Some? && StatusOf(u) == Processing
  {
  }

  /** Prompt runs leave no late attempts, and a workflow means Negotiate has passed its start. */
  lemma NothingLate(cfg: Config, s: Upload)
    requires Good(cfg) && Reach(cfg, s) && s.wf.Some?
    ensures s.wf.value.late == [] && s.neg in {Started, Issued, GaveUp}
  {
    var ms :| Prompt(ms) && Run(cfg, Begin(), ms) == s;
    RunPrompt(cfg, Begin(), ms);
  }

  lemma Lingers(cfg: Config, s: Upload, a: Act)
    requires s.wf.Some? && s.wf.value.late == [] && FutOf(s.wf.value.futs, a) == Backoff(0) && !a.ActValidate?
    ensures Run(cfg, s, [Dispatch(a)] + [Expire(a, true)])
            == AddLate(s.(wf := Some(Settle(s.wf.value, a, 1, Err(TimedOut)))), [Late(a, Start(a))])
  {
    var wf := s.wf.value;
    var t := With(s, a, Running(1, Start(a)), s.env, wf.log);
    PutTwice(wf.futs, a, Running(1, Start(a)), Backoff(1));
    RunFirst(cfg, s, Dispatch(a), [Expire(a, true)]);
    assert Step(cfg, s, Dispatch(a)) == t;
    RunOne(cfg, t, Expire(a, true));
    assert [] + [Late(a, Start(a))] == [Late(a, Start(a))];
  }

  /** If an attempt of Processing may linger, an upload that has closed as `complete` can turn back
      to `processing`. */
  lemma LateAttemptBreaksOrder(cfg: Config, good: Bytes) returns (ms: seq<Move>)
    requires Good(cfg) && |cfg.specs| > 0 && Passes(cfg, good) && Resizable(cfg, good)
    ensures LingerIn(ms, iset{ActProcessing})
    ensures var s := Run(cfg, Begin(), ms);
            var t := Run(cfg, Begin(), ms + [LateCall(0, NoFault)]);
            && s.wf.Some? && s.wf.value.code == Closed(ActComplete, Nil)
            && s.env.row.Some? && StatusOf(s) == Complete
            && t.env.row.Some? && StatusOf(t) == Processing
  {
    var s := ToProcessing(cfg, good);
    RunLate(cfg, s, good);
    var pre :| Prompt(pre) && Run(cfg, Begin(), pre) == s;
    var rest :| LateRun(cfg, s, rest);
    RunAppend(cfg, Begin(), pre, rest);
    RunAppend(cfg, Begin(), pre, rest + [LateCall(0, NoFault)]);
    assert pre + (rest + [LateCall(0, NoFault)]) == pre + rest + [LateCall(0, NoFault)];
    ms := pre + rest;
  }

  /** Whatever activities' attempts may linger: two reads of a row can be out of order if and only if
      Processing is among them. */
  lemma OnlyLateProcessingBreaksOrder(cfg: Config, good: Bytes, acts: iset<Act>)
    requires Good(cfg) && |cfg.specs| > 0 && Passes(cfg, good) && Resizable(cfg, good)
    ensures BreaksOrder(cfg, acts) <==> ActProcessing in acts
  {
    if ActProcessing in acts {
      var ms := LateAttemptBreaksOrder(cfg, good);
      var later := [LateCall(0, NoFault)];
      assert LingerIn(ms + later, acts);
      assert OutOfOrder(cfg, ms, later);
    } else if BreaksOrder(cfg, acts) {
      var ms, later :| LingerIn(ms + later, acts) && OutOfOrder(cfg, ms, later);
      LingerSteady(ms, later, acts);
      StatusIsMonotone(cfg, ms, later);
    }
  }

  lemma LingerSteady(ms: seq<Move>, later: seq<Move>, acts: iset<Act>)
    requires LingerIn(ms + later, acts) && ActProcessing !in acts
    ensures Steady(ms) && Steady(later)
  {
    forall i | 0 <= i < |ms|
      ensures SteadyMove(ms[i])
    {
      assert (ms + later)[i] == ms[i];
    }
    forall i | 0 <= i < |later|
      ensures SteadyMove(later[i])
    {
      assert (ms + later)[|ms| + i] == later[i];
    }
  }
}
