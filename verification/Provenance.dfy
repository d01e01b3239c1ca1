/** Where the stored variants come from. */
module Provenance {
  import opened Types
  import opened Attempts
  import opened Workflow
  import opened Machine
  import opened Inv
  import opened Safety
  import opened SafetyTheorems

  predicate MadeFrom(cfg: Config, bs: set<Bytes>, sp: Spec, d: Bytes) {
    exists b :: b in bs && cfg.resize(b, sp.w, sp.h) == Some(d)
  }

  /** The data a Resize attempt carries comes from the originals in `bs`. */
  predicate CarriesFrom(cfg: Config, bs: set<Bytes>, a: Act, att: Attempt) {
    && (att.RScale? ==> att.data in bs)
    && (att.RStore? ==> MadeFrom(cfg, bs, SpecOf(cfg, a), att.data))
  }

  /** The workflow has consumed the completion signal. */
  predicate Consumed(s: Upload) {
    s.wf.Some? && IsScheduled(s.wf.value, ActValidate)
  }

  function Current(s: Upload): set<Bytes> {
    if Consumed(s) && ORIGINAL in s.env.objs then {s.env.objs[ORIGINAL]} else {}
  }

  ghost predicate From(cfg: Config, bs: set<Bytes>, s: Upload) {
    && Current(s) <= bs
    && (forall i :: 0 <= i < |cfg.specs| && cfg.specs[i].name in s.env.objs ==>
          MadeFrom(cfg, bs, cfg.specs[i], s.env.objs[cfg.specs[i].name]))
    && (s.wf.Some? ==>
          && (forall a :: FutOf(s.wf.value.futs, a).Running? ==>
                CarriesFrom(cfg, bs, a, FutOf(s.wf.value.futs, a).att))
          && (forall j :: 0 <= j < |s.wf.value.late| ==>
                CarriesFrom(cfg, bs, s.wf.value.late[j].a, s.wf.value.late[j].att)))
  }

  lemma FromMore(cfg: Config, bs: set<Bytes>, cs: set<Bytes>, s: Upload)
    requires bs <= cs && From(cfg, bs, s)
    ensures From(cfg, cs, s)
  {
  }

  lemma ConsumedStays(cfg: Config, s: Upload, m: Move)
    requires SInv(cfg, s) && Consumed(s)
    ensures Consumed(Step(cfg, s, m))
  {
    StepGrows(cfg, s, m);
  }

  /** A reply gives an attempt data from the originals seen. */
  lemma ResumeFrom(cfg: Config, bs: set<Bytes>, e: Env, a: Act, att: Attempt, fault: Fault)
    requires !att.Done? && CarriesFrom(cfg, bs, a, att)
    requires att.RFetch? && ORIGINAL in e.objs ==> e.objs[ORIGINAL] in bs
    ensures CarriesFrom(cfg, bs, a, Resume(cfg, att, Perform(cfg, e, Next(cfg, a, att), fault).1))
  {
  }

  lemma CallCarries(cfg: Config, bs: set<Bytes>, s: Upload, m: Move)
    requires From(cfg, bs, s) && s.wf.Some? && CallOf(cfg, s.wf.value, m).Some?
    requires Caller(s.wf.value, m).1.RFetch? ==> Consumed(s)
    ensures var w := CallStep(cfg, s, m).wf.value;
            && (forall a :: FutOf(w.futs, a).Running? ==> CarriesFrom(cfg, bs, a, FutOf(w.futs, a).att))
            && (forall j :: 0 <= j < |w.late| ==> CarriesFrom(cfg, bs, w.late[j].a, w.late[j].att))
  {
    var wf := s.wf.value;
    var (a, att) := Caller(wf, m);
    var w := CallStep(cfg, s, m).wf.value;
    assert CarriesFrom(cfg, bs, a, att);
    ResumeFrom(cfg, bs, s.env, a, att, FaultOf(m));
    forall b | FutOf(w.futs, b).Running?
      ensures CarriesFrom(cfg, bs, b, FutOf(w.futs, b).att)
    {
      if m.LateCall? || b != a {
        assert FutOf(w.futs, b) == FutOf(wf.futs, b);
      }
    }
  }

  lemma CallMakes(cfg: Config, bs: set<Bytes>, s: Upload, m: Move, i: nat)
    requires Good(cfg) && From(cfg, bs, s) && s.wf.Some? && CallOf(cfg, s.wf.value, m).Some?
    requires var (a, att) := Caller(s.wf.value, m); att.RStore? ==> a.ActResize? && a.i < |cfg.specs|
    requires i < |cfg.specs| && cfg.specs[i].name in CallStep(cfg, s, m).env.objs
    ensures MadeFrom(cfg, bs, cfg.specs[i], CallStep(cfg, s, m).env.objs[cfg.specs[i].name])
  {
    var (a, att) := Caller(s.wf.value, m);
    assert CarriesFrom(cfg, bs, a, att);
    if att.RStore? && a.i != i {
      assert cfg.specs[i].name != cfg.specs[a.i].name;
    }
  }

  lemma CallerIsScheduled(n: nat, wf: Wf, m: Move)
    requires WfInv(n, wf)
    requires (m.Call? && FutOf(wf.futs, m.a).Running?) || (m.LateCall? && m.j < |wf.late|)
    ensures var (a, att) := Caller(wf, m);
            && IsScheduled(wf, a) && Fits(a, att)
            && (a.ActResize? ==> a.i < n && Succeeded(wf, ActValidate))
  {
  }

  lemma CallFrom(cfg: Config, bs: set<Bytes>, s: Upload, m: Move)
    requires Good(cfg) && SInv(cfg, s) && From(cfg, bs, s)
    requires s.wf.Some? && CallOf(cfg, s.wf.value, m).Some?
    requires Current(CallStep(cfg, s, m)) <= bs
    ensures From(cfg, bs, CallStep(cfg, s, m))
  {
    CallerIsScheduled(|cfg.specs|, s.wf.value, m);
    CallCarries(cfg, bs, s, m);
    forall i | 0 <= i < |cfg.specs| && cfg.specs[i].name in CallStep(cfg, s, m).env.objs
      ensures MadeFrom(cfg, bs, cfg.specs[i], CallStep(cfg, s, m).env.objs[cfg.specs[i].name])
    {
      CallMakes(cfg, bs, s, m, i);
    }
  }

  lemma WfStepFrom(cfg: Config, bs: set<Bytes>, s: Upload, m: Move)
    requires s.wf.Some? && WfInv(|cfg.specs|, s.wf.value) && From(cfg, bs, s)
    requires !m.Call? && !m.LateCall?
    ensures var w := WfStep(|cfg.specs|, s.wf.value, s.now, m);
            && (forall a :: FutOf(w.futs, a).Running? ==> CarriesFrom(cfg, bs, a, FutOf(w.futs, a).att))
            && (forall j :: 0 <= j < |w.late| ==> CarriesFrom(cfg, bs, w.late[j].a, w.late[j].att))
  {
    var wf := s.wf.value;
    var w := WfStep(|cfg.specs|, wf, s.now, m);
    WfStepRuns(|cfg.specs|, wf, s.now, m);
    forall a | FutOf(w.futs, a).Running?
      ensures CarriesFrom(cfg, bs, a, FutOf(w.futs, a).att)
    {
    }
  }

  /** No move but a call gives a running attempt anything new. */
  lemma WfStepRuns(n: nat, wf: Wf, now: nat, m: Move)
    requires WfInv(n, wf)
    ensures var w := WfStep(n, wf, now, m);
            && (forall a :: FutOf(w.futs, a).Running? ==>
                  FutOf(w.futs, a) == FutOf(wf.futs, a) || FutOf(w.futs, a).att == Start(a))
            && (forall j :: 0 <= j < |w.late| ==>
                  || (j < |wf.late| && w.late[j] == wf.late[j])
                  || (m.Expire? && FutOf(wf.futs, m.a).Running? && w.late[j] == Late(m.a, FutOf(wf.futs, m.a).att)))
  {
    if m.RunTask? {
      TaskGrows(n, wf, now);
    } else if m.Crash? {
      CrashIsInvisible(n, wf, now);
    } else {
      WorkerStepRuns(n, wf, now, m);
    }
  }

  lemma WorkerStepRuns(n: nat, wf: Wf, now: nat, m: Move)
    requires !m.RunTask? && !m.Crash?
    ensures var w := WfStep(n, wf, now, m);
            && (forall a :: FutOf(w.futs, a).Running? ==>
                  FutOf(w.futs, a) == FutOf(wf.futs, a) || FutOf(w.futs, a).att == Start(a))
            && (forall j :: 0 <= j < |w.late| ==>
                  || (j < |wf.late| && w.late[j] == wf.late[j])
                  || (m.Expire? && FutOf(wf.futs, m.a).Running? && w.late[j] == Late(m.a, FutOf(wf.futs, m.a).att)))
  {
  }

  lemma StepFrom(cfg: Config, bs: set<Bytes>, s: Upload, m: Move)
    requires Good(cfg) && SInv(cfg, s) && From(cfg, bs, s)
    ensures From(cfg, bs + Current(Step(cfg, s, m)), Step(cfg, s, m))
  {
    var cs := bs + Current(Step(cfg, s, m));
    FromMore(cfg, bs, cs, s);
    if s.wf.Some? {
      if m.Call? || m.LateCall? {
        if CallOf(cfg, s.wf.value, m).Some? { CallFrom(cfg, cs, s, m); }
      } else {
        WfStepFrom(cfg, cs, s, m);
      }
    }
  }

  /** Every original present at some state of the run after the signal was consumed. */
  function Originals(cfg: Config, s: Upload, ms: seq<Move>): set<Bytes> {
    if ms == [] then Current(s)
    else Originals(cfg, s, ms[..|ms| - 1]) + Current(Run(cfg, s, ms))
  }

  lemma {:induction false} OriginalsMeaning(cfg: Config, s: Upload, ms: seq<Move>, b: Bytes)
    requires b in Originals(cfg, s, ms)
    ensures exists j :: 0 <= j <= |ms| && b in Current(Run(cfg, s, ms[..j]))
    decreases |ms|
  {
    if b in Current(Run(cfg, s, ms)) {
      assert ms[..|ms|] == ms;
    } else {
      var rest := ms[..|ms| - 1];
      OriginalsMeaning(cfg, s, rest, b);
      var j :| 0 <= j <= |rest| && b in Current(Run(cfg, s, rest[..j]));
      assert ms[..j] == rest[..j];
    }
  }

  lemma {:induction false} RunFrom(cfg: Config, s: Upload, ms: seq<Move>)
    requires Good(cfg) && SInv(cfg, s) && From(cfg, Current(s), s)
    ensures From(cfg, Originals(cfg, s, ms), Run(cfg, s, ms))
    decreases |ms|
  {
    if ms != [] {
      RunFrom(cfg, s, ms[..|ms| - 1]);
      RunSafe(cfg, s, ms[..|ms| - 1]);
      StepFrom(cfg, Originals(cfg, s, ms[..|ms| - 1]), Run(cfg, s, ms[..|ms| - 1]), ms[|ms| - 1]);
    }
  }

  /** Every stored variant is the resized form of an original that was in the store at an earlier
      state of the run, after the completion signal was consumed. */
  lemma VariantsHaveOriginals(cfg: Config, ms: seq<Move>, i: nat)
    requires Good(cfg) && i < |cfg.specs|
    requires cfg.specs[i].name in Run(cfg, Begin(), ms).env.objs
    ensures exists j :: 0 <= j <= |ms|
              && var s := Run(cfg, Begin(), ms[..j]);
                 && Consumed(s) && ORIGINAL in s.env.objs
                 && cfg.resize(s.env.objs[ORIGINAL], cfg.specs[i].w, cfg.specs[i].h)
                    == Some(Run(cfg, Begin(), ms).env.objs[cfg.specs[i].name])
  {
    RunFrom(cfg, Begin(), ms);
    var bs := Originals(cfg, Begin(), ms);
    var d := Run(cfg, Begin(), ms).env.objs[cfg.specs[i].name];
    assert MadeFrom(cfg, bs, cfg.specs[i], d);
    var b :| b in bs && cfg.resize(b, cfg.specs[i].w, cfg.specs[i].h) == Some(d);
    OriginalsMeaning(cfg, Begin(), ms, b);
  }

  // ---- With the original left alone ----

  predicate NoPut(ms: seq<Move>) {
    forall i :: 0 <= i < |ms| ==> !ms[i].ClientPut?
  }

  /** What Validate, its future being `f`, has established about the original so far. */
  ghost predicate CheckedBy(cfg: Config, f: Fut, objs: map<string, Bytes>) {
    && (f.Running? && f.att.VHead? ==>
          ORIGINAL in objs && cfg.sniffs(Prefix(objs[ORIGINAL], SNIFF_BYTES)))
    && (Outcome(f) == Some(Ok) || (f.Running? && f.att == Done(Ok)) ==>
          ORIGINAL in objs && Passes(cfg, objs[ORIGINAL]))
  }

  ghost predicate Checked(cfg: Config, s: Upload) {
    s.wf.Some? ==> CheckedBy(cfg, FutOf(s.wf.value.futs, ActValidate), s.env.objs)
  }

  /** Without a PUT the original only ever disappears, and not once Validate has let it pass. */
  lemma QuietStep(cfg: Config, s: Upload, m: Move)
    requires Good(cfg) && SInv(cfg, s) && s.wf.Some? && !m.ClientPut?
    ensures var t := Step(cfg, s, m);
            ORIGINAL in t.env.objs ==> ORIGINAL in s.env.objs && t.env.objs[ORIGINAL] == s.env.objs[ORIGINAL]
    ensures Checked(cfg, s) ==> Checked(cfg, Step(cfg, s, m))
  {
    if m.Call? || m.LateCall? {
      if CallOf(cfg, s.wf.value, m).Some? {
        QuietCall(cfg, s, m);
      }
    } else {
      QuietMove(cfg, s, m);
    }
  }

  /** Validate's own calls establish what its attempt stands for. */
  lemma ValidateChecks(cfg: Config, e: Env, used: nat, att: Attempt, fault: Fault)
    requires !att.Done? && Fits(ActValidate, att) && CheckedBy(cfg, Running(used, att), e.objs)
    ensures var (e', reply) := Perform(cfg, e, Next(cfg, ActValidate, att), fault);
            CheckedBy(cfg, Running(used, Resume(cfg, att, reply)), e'.objs)
  {
  }

  /** A call by anyone else that deletes the original finds Validate unstarted or failed. */
  lemma OtherRemove(cfg: Config, wf: Wf, m: Move)
    requires WfInv(|cfg.specs|, wf) && CallOf(cfg, wf, m) == Some(Remove)
    requires m.Call? ==> !m.a.ActValidate?
    ensures var f := FutOf(wf.futs, ActValidate); f.Idle? || (f.Finished? && f.res.Err?)
  {
  }

  lemma StoresVariant(cfg: Config, wf: Wf, m: Move)
    requires Good(cfg) && WfInv(|cfg.specs|, wf) && CallOf(cfg, wf, m).Some?
    ensures CallOf(cfg, wf, m).value.Store? ==> CallOf(cfg, wf, m).value.name != ORIGINAL
    ensures Fits(Caller(wf, m).0, Caller(wf, m).1)
  {
  }

  lemma QuietCall(cfg: Config, s: Upload, m: Move)
    requires Good(cfg) && SInv(cfg, s) && s.wf.Some? && CallOf(cfg, s.wf.value, m).Some?
    ensures var t := CallStep(cfg, s, m);
            ORIGINAL in t.env.objs ==> ORIGINAL in s.env.objs && t.env.objs[ORIGINAL] == s.env.objs[ORIGINAL]
    ensures Checked(cfg, s) ==> Checked(cfg, CallStep(cfg, s, m))
  {
    StoresVariant(cfg, s.wf.value, m);
    if CallOf(cfg, s.wf.value, m) == Some(Remove) && (m.Call? ==> !m.a.ActValidate?) {
      OtherRemove(cfg, s.wf.value, m);
    }
    QuietPerform(cfg, s, m);
  }

  lemma QuietPerform(cfg: Config, s: Upload, m: Move)
    requires s.wf.Some? && CallOf(cfg, s.wf.value, m).Some?
    requires var op := CallOf(cfg, s.wf.value, m).value;
             && (op.Store? ==> op.name != ORIGINAL)
             && Fits(Caller(s.wf.value, m).0, Caller(s.wf.value, m).1)
             && (op.Remove? && (m.Call? ==> !m.a.ActValidate?) ==>
                   var f := FutOf(s.wf.value.futs, ActValidate); f.Idle? || (f.Finished? && f.res.Err?))
    ensures var t := CallStep(cfg, s, m);
            ORIGINAL in t.env.objs ==> ORIGINAL in s.env.objs && t.env.objs[ORIGINAL] == s.env.objs[ORIGINAL]
    ensures Checked(cfg, s) ==> Checked(cfg, CallStep(cfg, s, m))
  {
    if m.Call? && m.a.ActValidate? && Checked(cfg, s) {
      var f := FutOf(s.wf.value.futs, ActValidate);
      ValidateChecks(cfg, s.env, f.used, f.att, m.fault);
    }
  }

  lemma QuietMove(cfg: Config, s: Upload, m: Move)
    requires SInv(cfg, s) && s.wf.Some? && !m.Call? && !m.LateCall? && !m.ClientPut?
    ensures Step(cfg, s, m).env.objs == s.env.objs
    ensures Checked(cfg, s) ==> Checked(cfg, Step(cfg, s, m))
  {
    WfStepGrows(|cfg.specs|, s.wf.value, s.now, m);
    WfStepRuns(|cfg.specs|, s.wf.value, s.now, m);
    QuietFut(cfg, FutOf(s.wf.value.futs, ActValidate),
             FutOf(WfStep(|cfg.specs|, s.wf.value, s.now, m).futs, ActValidate), s.env.objs,
             Achieved(s.wf.value, ActValidate));
  }

  lemma QuietFut(cfg: Config, f: Fut, g: Fut, objs: map<string, Bytes>, achieved: bool)
    requires achieved <==> Outcome(f) == Some(Ok) || (f.Running? && f.att == Done(Ok))
    requires Outcome(g) == Some(Ok) || (g.Running? && g.att == Done(Ok)) ==> achieved
    requires g.Running? ==> g == f || g.att == Start(ActValidate)
    ensures CheckedBy(cfg, f, objs) ==> CheckedBy(cfg, g, objs)
  {
  }

  lemma {:induction false} QuietRun(cfg: Config, s: Upload, ms: seq<Move>)
    requires Good(cfg) && SInv(cfg, s) && Consumed(s) && From(cfg, Current(s), s) && Checked(cfg, s) && NoPut(ms)
    ensures var t := Run(cfg, s, ms);
            && SInv(cfg, t) && Consumed(t) && Checked(cfg, t)
            && Current(t) <= Current(s) && From(cfg, Current(s), t)
    decreases |ms|
  {
    if ms != [] {
      var t := Run(cfg, s, ms[..|ms| - 1]);
      QuietRun(cfg, s, ms[..|ms| - 1]);
      StepSafe(cfg, t, ms[|ms| - 1]);
      QuietStep(cfg, t, ms[|ms| - 1]);
      ConsumedStays(cfg, t, ms[|ms| - 1]);
      StepFrom(cfg, Current(s), t, ms[|ms| - 1]);
      assert Current(s) + Current(Step(cfg, t, ms[|ms| - 1])) == Current(s);
    }
  }

  /** Validate is scheduled and has not begun. */
  predicate ValidateBegins(s: Upload) {
    s.wf.Some? && FutOf(s.wf.value.futs, ActValidate) == Backoff(0)
  }

  lemma NothingStoredYet(cfg: Config, s: Upload)
    requires Good(cfg) && SInv(cfg, s) && s.wf.Some? && !Succeeded(s.wf.value, ActValidate)
    requires !FutOf(s.wf.value.futs, ActValidate).Running?
    ensures From(cfg, Current(s), s) && Checked(cfg, s)
  {
  }
}
