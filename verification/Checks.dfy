/** What Validate's success says about the original in the store: it depends on how many calls Validate
    had made when the last PUT was accepted. */
module Checks {
  import opened Types
  import opened Attempts
  import opened Workflow
  import opened Machine
  import opened Inv
  import opened Safety
  import opened SafetyTheorems
  import opened StatusOrder
  import opened Provenance
  import opened FanOut
  import opened Blocks
  import opened Progress
  import opened Reachable
  import opened Lateness
  import opened Verdicts

  // ---- The calls made so far, and what they have established ----

  /** Validate, its future being `f`, has made `n` calls, unless it is failing. */
  predicate CallsCounted(f: Fut, n: nat) {
    match f
    case Idle => false
    case Backoff(_) => n == 0
    case Running(_, VMark) => n == 0
    case Running(_, VSniff) => n == 1
    case Running(_, VHead) => n == 2
    case Running(_, Done(Ok)) => n == 3
    case Finished(_, Ok) => n == 3
    case _ => true
  }

  /** After `n` calls of Validate, the last PUT having been accepted after `put` of them: a PUT before the
      second leaves all checks to come, and one before the third all resizes. */
  ghost predicate Judged(cfg: Config, s: Upload, n: nat, put: nat) {
    && s.wf.Some? && put <= n && CallsCounted(FutOf(s.wf.value.futs, ActValidate), n)
    && (put <= 1 ==> Checked(cfg, s))
    && (put <= 2 ==> From(cfg, Current(s), s))
  }

  function CallsAfter(cfg: Config, s: Upload, m: Move, n: nat): nat {
    if ByValidate(cfg, s, m) then n + 1 else n
  }

  lemma CountStep(cfg: Config, s: Upload, m: Move, n: nat)
    requires SInv(cfg, s) && s.wf.Some? && CallsCounted(FutOf(s.wf.value.futs, ActValidate), n)
    ensures var t := Step(cfg, s, m);
            t.wf.Some? && CallsCounted(FutOf(t.wf.value.futs, ActValidate), CallsAfter(cfg, s, m, n))
  {
    var wf := s.wf.value;
    assert FutFits(ActValidate, FutOf(wf.futs, ActValidate));
    if m.RunTask? {
      TaskGrows(|cfg.specs|, wf, s.now);
    } else if m.Crash? {
      CrashIsInvisible(|cfg.specs|, wf, s.now);
    } else {
      if m.LateCall? && CallOf(cfg, wf, m).Some? { CallerIsScheduled(|cfg.specs|, wf, m); }
      CountMove(cfg, s, m, n);
    }
  }

  lemma CountMove(cfg: Config, s: Upload, m: Move, n: nat)
    requires s.wf.Some? && Chain(s) && LateFits(s.wf.value)
    requires FutFits(ActValidate, FutOf(s.wf.value.futs, ActValidate))
    requires CallsCounted(FutOf(s.wf.value.futs, ActValidate), n) && !m.RunTask? && !m.Crash?
    ensures var t := Step(cfg, s, m);
            t.wf.Some? && CallsCounted(FutOf(t.wf.value.futs, ActValidate), CallsAfter(cfg, s, m, n))
  {
  }

  /** Once Validate has succeeded and until another PUT, all variants stem from the one original. */
  lemma StaysFrom(cfg: Config, s: Upload, m: Move)
    requires Good(cfg) && SInv(cfg, s) && s.wf.Some? && From(cfg, Current(s), s) && !AcceptedPut(s, m)
    ensures From(cfg, Current(Step(cfg, s, m)), Step(cfg, s, m))
  {
    StepSafe(cfg, s, m);
    StepGrows(cfg, s, m);
    if m.ClientPut? {
      assert Step(cfg, s, m) == s;
    } else if Succeeded(s.wf.value, ActValidate) {
      UnmovedRun(cfg, s, [m]);
      RunOne(cfg, s, m);
    } else {
      NoneBegun(cfg, s, m);
      NothingMade(cfg, Step(cfg, s, m));
    }
  }

  lemma NoneBegun(cfg: Config, s: Upload, m: Move)
    requires SInv(cfg, s) && s.wf.Some? && !Succeeded(s.wf.value, ActValidate)
    ensures forall i: nat :: !Begun(FutOf(Step(cfg, s, m).wf.value.futs, ActResize(i)))
  {
    var wf := s.wf.value;
    forall i: nat
      ensures !Begun(FutOf(Step(cfg, s, m).wf.value.futs, ActResize(i)))
    {
      if IsScheduled(wf, ActResize(i)) { ResizeNeedsValidate(|cfg.specs|, wf, i); }
      if m.RunTask? {
        TaskGrows(|cfg.specs|, wf, s.now);
      } else if m.Crash? {
        CrashIsInvisible(|cfg.specs|, wf, s.now);
      }
    }
  }

  /** Before the first attempt of a resize nothing is made from anything. */
  lemma NothingMade(cfg: Config, s: Upload)
    requires Good(cfg) && SInv(cfg, s) && s.wf.Some?
    requires forall i: nat :: !Begun(FutOf(s.wf.value.futs, ActResize(i)))
    ensures From(cfg, Current(s), s)
  {
  }

  lemma JudgedStep(cfg: Config, s: Upload, m: Move, n: nat, put: nat)
    requires Good(cfg) && SInv(cfg, s) && Judged(cfg, s, n, put)
    ensures Judged(cfg, Step(cfg, s, m), CallsAfter(cfg, s, m, n), if AcceptedPut(s, m) then n else put)
  {
    CountStep(cfg, s, m, n);
    StepSafe(cfg, s, m);
    if AcceptedPut(s, m) {
      PutJudged(cfg, s, m, n);
    } else {
      if put <= 1 && !m.ClientPut? { QuietStep(cfg, s, m); }
      if put <= 2 { StaysFrom(cfg, s, m); }
    }
  }

  lemma PutJudged(cfg: Config, s: Upload, m: Move, n: nat)
    requires Good(cfg) && SInv(cfg, s) && s.wf.Some? && CallsCounted(FutOf(s.wf.value.futs, ActValidate), n)
    requires AcceptedPut(s, m)
    ensures n <= 1 ==> Checked(cfg, Step(cfg, s, m))
    ensures n <= 2 ==> From(cfg, Current(Step(cfg, s, m)), Step(cfg, s, m))
  {
    if n <= 2 {
      StepSafe(cfg, s, m);
      NoneBegun(cfg, s, m);
      NothingMade(cfg, Step(cfg, s, m));
    }
  }

  lemma {:induction false} JudgedRun(cfg: Config, pre: seq<Move>, ms: seq<Move>)
    requires Good(cfg) && ValidateBegins(Run(cfg, Begin(), pre))
    ensures var s := Run(cfg, Begin(), pre);
            SInv(cfg, Run(cfg, s, ms))
            && Judged(cfg, Run(cfg, s, ms), |CallsMade(cfg, s, ms)|, CallsBeforePut(cfg, s, ms))
    decreases |ms|
  {
    var s := Run(cfg, Begin(), pre);
    RunSafe(cfg, Begin(), pre);
    if ms == [] {
      NothingStoredYet(cfg, s);
    } else {
      var rest, m := ms[..|ms| - 1], ms[|ms| - 1];
      JudgedRun(cfg, pre, rest);
      RunSafe(cfg, s, ms);
      JudgedStep(cfg, Run(cfg, s, rest), m, |CallsMade(cfg, s, rest)|, CallsBeforePut(cfg, s, rest));
    }
  }

  // ---- What success promises ----

  /** Validate has succeeded. */
  predicate LetThrough(s: Upload) {
    s.wf.Some? && Succeeded(s.wf.value, ActValidate)
  }

  /** In every run, with late attempts and PUTs at any time: if Validate has succeeded and the last PUT was
      accepted before its second call, the original is there and passes both checks. */
  lemma PassesUnlessPut(cfg: Config, pre: seq<Move>, ms: seq<Move>)
    requires Good(cfg) && ValidateBegins(Run(cfg, Begin(), pre)) && LetThrough(Run(cfg, Begin(), pre + ms))
    requires CallsBeforePut(cfg, Run(cfg, Begin(), pre), ms) <= 1
    ensures var t := Run(cfg, Begin(), pre + ms);
            ORIGINAL in t.env.objs && Passes(cfg, t.env.objs[ORIGINAL])
  {
    RunAppend(cfg, Begin(), pre, ms);
    JudgedRun(cfg, pre, ms);
  }

  /** If the last PUT was accepted before Validate's third call, all variants ever stored are made from the
      one original that is in the store; if before its second, that original passes both checks; and if
      there was no PUT at all since Validate began, it is the one that was there then. */
  lemma OneCheckedOriginal(cfg: Config, pre: seq<Move>, ms: seq<Move>, i: nat)
    requires Good(cfg) && i < |cfg.specs| && ValidateBegins(Run(cfg, Begin(), pre))
    requires cfg.specs[i].name in Run(cfg, Begin(), pre + ms).env.objs
    requires CallsBeforePut(cfg, Run(cfg, Begin(), pre), ms) <= 2
    ensures var s, t := Run(cfg, Begin(), pre), Run(cfg, Begin(), pre + ms);
            && ORIGINAL in t.env.objs
            && cfg.resize(t.env.objs[ORIGINAL], cfg.specs[i].w, cfg.specs[i].h) == Some(t.env.objs[cfg.specs[i].name])
            && (CallsBeforePut(cfg, s, ms) <= 1 ==> Passes(cfg, t.env.objs[ORIGINAL]))
            && (NoPut(ms) ==> ORIGINAL in s.env.objs && s.env.objs[ORIGINAL] == t.env.objs[ORIGINAL])
  {
    var s := Run(cfg, Begin(), pre);
    RunAppend(cfg, Begin(), pre, ms);
    JudgedRun(cfg, pre, ms);
    var t := Run(cfg, s, ms);
    MadeFromCurrent(cfg, t, i);
    if CallsBeforePut(cfg, s, ms) <= 1 { PassesUnlessPut(cfg, pre, ms); }
    if NoPut(ms) {
      RunSafe(cfg, Begin(), pre);
      NothingStoredYet(cfg, s);
      QuietRun(cfg, s, ms);
    }
  }

  lemma MadeFromCurrent(cfg: Config, t: Upload, i: nat)
    requires Good(cfg) && SInv(cfg, t) && t.wf.Some? && From(cfg, Current(t), t)
    requires i < |cfg.specs| && cfg.specs[i].name in t.env.objs
    ensures LetThrough(t) && ORIGINAL in t.env.objs
    ensures cfg.resize(t.env.objs[ORIGINAL], cfg.specs[i].w, cfg.specs[i].h) == Some(t.env.objs[cfg.specs[i].name])
  {
    assert Variant(cfg, t.wf.value, cfg.specs[i].name);
    assert MadeFrom(cfg, Current(t), cfg.specs[i], t.env.objs[cfg.specs[i].name]);
  }

  // ---- A PUT that comes later ----

  /** Where a run from `s` has come: its end, the calls of Validate, and those before the last PUT. */
  predicate Stands(cfg: Config, s: Upload, ms: seq<Move>, t: Upload, n: nat, put: nat) {
    t == Run(cfg, s, ms) && n == |CallsMade(cfg, s, ms)| && put == CallsBeforePut(cfg, s, ms)
  }

  lemma StandsNext(cfg: Config, s: Upload, ms: seq<Move>, t: Upload, n: nat, put: nat, m: Move)
    requires Stands(cfg, s, ms, t, n, put)
    ensures Stands(cfg, s, ms + [m], Step(cfg, t, m), CallsAfter(cfg, t, m, n), if AcceptedPut(t, m) then n else put)
  {
    RunSnoc(cfg, s, ms, m);
    CallsSnoc(cfg, s, ms, m);
    PutSnoc(cfg, s, ms, m);
  }

  /** Validate runs on `good`, the call of number `n` being next. */
  ghost predicate Checking(cfg: Config, s: Upload, ms: seq<Move>, att: Attempt, b: Bytes, n: nat, put: nat) {
    && Prompt(ms) && s.wf.Some? && s.env.row.Some?
    && Stands(cfg, s, ms, Run(cfg, s, ms), n, put)
    && var t := Run(cfg, s, ms);
       && t.wf.Some? && t == With(s, ActValidate, Running(1, att), t.env, t.wf.value.log)
       && t.env.row.Some? && t.env.objs == map[ORIGINAL := b]
  }

  /** Where a call that is answered, and finds nothing amiss, takes the attempt. */
  function Onward(att: Attempt): Attempt {
    if att.VMark? then VSniff else if att.VSniff? then VHead else Done(Ok)
  }

  predicate Agreeable(cfg: Config, att: Attempt, b: Bytes) {
    match att
    case VMark => true
    case VSniff => cfg.sniffs(Prefix(b, SNIFF_BYTES))
    case VHead => |b| <= MAX_IMAGE_BYTES
    case _ => false
  }

  lemma GoesOnward(cfg: Config, att: Attempt, e: Env, b: Bytes)
    requires Agreeable(cfg, att, b) && e.row.Some? && e.objs == map[ORIGINAL := b]
    ensures var (e', reply) := Perform(cfg, e, Next(cfg, ActValidate, att), NoFault);
            && Resume(cfg, att, reply) == Onward(att)
            && e' == if att.VMark? then Effect(e, Update(Validating)) else e
  {
  }

  lemma CheckNext(cfg: Config, s: Upload, ms: seq<Move>, att: Attempt, b: Bytes, n: nat, put: nat)
    requires Checking(cfg, s, ms, att, b, n, put) && Agreeable(cfg, att, b)
    ensures Checking(cfg, s, ms + [Call(ActValidate, NoFault)], Onward(att), b, n + 1, put)
    ensures Run(cfg, s, ms + [Call(ActValidate, NoFault)]).env.row.value.status
            == if att.VMark? then Validating else Run(cfg, s, ms).env.row.value.status
  {
    var t, m := Run(cfg, s, ms), Call(ActValidate, NoFault);
    StandsNext(cfg, s, ms, t, n, put, m);
    GoesOnward(cfg, att, t.env, b);
    CallInside(cfg, s, ActValidate, 1, att, t.env, t.wf.value.log, NoFault);
    CountsOne(cfg, t, att, n);
    PromptAppend(ms, [m]);
  }

  lemma CountsOne(cfg: Config, t: Upload, att: Attempt, n: nat)
    requires t.wf.Some? && FutOf(t.wf.value.futs, ActValidate) == Running(1, att) && !att.Done?
    ensures CallsAfter(cfg, t, Call(ActValidate, NoFault), n) == n + 1
  {
  }

  lemma CheckPut(cfg: Config, s: Upload, ms: seq<Move>, att: Attempt, b: Bytes, n: nat, put: nat, data: Bytes)
    requires Checking(cfg, s, ms, att, b, n, put) && Accepts(s)
    ensures Checking(cfg, s, ms + [ClientPut(data)], att, data, n, n)
    ensures Run(cfg, s, ms + [ClientPut(data)]).env.row == Run(cfg, s, ms).env.row
  {
    StandsNext(cfg, s, ms, Run(cfg, s, ms), n, put, ClientPut(data));
  }

  lemma CheckBegins(cfg: Config, s: Upload, b: Bytes)
    requires s.wf.Some? && s.env.row.Some? && s.env.objs == map[ORIGINAL := b] && ValidateBegins(s)
    ensures Checking(cfg, s, [Dispatch(ActValidate)], VMark, b, 0, 0)
  {
    assert Stands(cfg, s, [], s, 0, 0);
    StandsNext(cfg, s, [], s, 0, 0, Dispatch(ActValidate));
    assert [] + [Dispatch(ActValidate)] == [Dispatch(ActValidate)];
  }

  lemma CheckEnds(cfg: Config, s: Upload, ms: seq<Move>, b: Bytes, n: nat, put: nat)
    requires Checking(cfg, s, ms, Done(Ok), b, n, put)
    ensures var t := Run(cfg, s, ms + [Report(ActValidate)]);
            && t.wf.Some? && FutOf(t.wf.value.futs, ActValidate) == Finished(1, Ok)
            && t.wf.value.code == s.wf.value.code && TaskDue(t.wf.value) && t.env == Run(cfg, s, ms).env
    ensures Prompt(ms + [Report(ActValidate)]) && CallsBeforePut(cfg, s, ms + [Report(ActValidate)]) == put
  {
    StandsNext(cfg, s, ms, Run(cfg, s, ms), n, put, Report(ActValidate));
    PromptAppend(ms, [Report(ActValidate)]);
  }

  /** Validate is let through on `good`, and `bad` is put after its second or its third call. */
  lemma PutDuring(cfg: Config, s: Upload, good: Bytes, bad: Bytes, k: nat) returns (ms: seq<Move>)
    requires Good(cfg) && JustScheduled(cfg, s, ActValidate, Pending) && s.env.objs == map[ORIGINAL := good]
    requires Accepts(s) && Passes(cfg, good) && |bad| <= MAX_IMAGE_BYTES && (k == 2 || k == 3)
    ensures Prompt(ms) && CallsBeforePut(cfg, s, ms) == k
    ensures var t := Run(cfg, s, ms);
            && t.wf.Some? && FutOf(t.wf.value.futs, ActValidate) == Finished(1, Ok)
            && t.wf.value.code == s.wf.value.code && TaskDue(t.wf.value)
            && t.env.row.Some? && StatusOf(t) == Validating && t.env.objs == map[ORIGINAL := bad]
  {
    var call, start := [Call(ActValidate, NoFault)], [Dispatch(ActValidate)];
    CheckBegins(cfg, s, good);
    CheckNext(cfg, s, start, VMark, good, 0, 0);
    CheckNext(cfg, s, start + call, VSniff, good, 1, 0);
    var sniffed := start + call + call;
    if k == 2 {
      CheckPut(cfg, s, sniffed, VHead, good, 2, 0, bad);
      CheckNext(cfg, s, sniffed + [ClientPut(bad)], VHead, bad, 2, 2);
      ms := sniffed + [ClientPut(bad)] + call;
    } else {
      CheckNext(cfg, s, sniffed, VHead, good, 2, 0);
      CheckPut(cfg, s, sniffed + call, Done(Ok), good, 3, 0, bad);
      ms := sniffed + call + [ClientPut(bad)];
    }
    CheckEnds(cfg, s, ms, bad, 3, k);
    ms := ms + [Report(ActValidate)];
  }
}
