/** The parallel fan-out refines resizing the specs one after another in list order. */
module FanOut {
  import opened Types
  import opened Attempts
  import opened Workflow
  import opened Machine
  import opened Inv
  import opened Safety
  import opened SafetyTheorems
  import opened Provenance

  /** The trace of writes that took effect holds a store under this name. */
  predicate Stored(wf: Wf, name: string) {
    exists j :: 0 <= j < |wf.log| && StoresAs(wf.log[j], name)
  }

  predicate StoresAs(op: Op, name: string) {
    op.Store? && op.name == name
  }

  /** The bucket holds a variant exactly if a store of it took effect. */
  ghost predicate StoresLogged(s: Upload) {
    s.wf.Some? ==> forall name :: name != ORIGINAL ==> (name in s.env.objs <==> Stored(s.wf.value, name))
  }

  lemma StoredSnoc(wf: Wf, op: Op, name: string)
    ensures Stored(wf.(log := wf.log + [op]), name) <==> Stored(wf, name) || StoresAs(op, name)
  {
    var log := wf.log + [op];
    assert log[|wf.log|] == op && forall j :: 0 <= j < |wf.log| ==> log[j] == wf.log[j];
  }

  lemma StoredByLog(v: Wf, w: Wf, name: string)
    requires v.log == w.log
    ensures Stored(v, name) <==> Stored(w, name)
  {
  }

  lemma CallStoresLogged(cfg: Config, s: Upload, m: Move)
    requires StoresLogged(s) && s.wf.Some? && CallOf(cfg, s.wf.value, m).Some?
    ensures StoresLogged(CallStep(cfg, s, m))
  {
    var t := CallStep(cfg, s, m);
    var op := CallOf(cfg, s.wf.value, m).value;
    var log := if Writes(op) && !FaultOf(m).Before? then s.wf.value.log + [op] else s.wf.value.log;
    assert t.wf.value.log == log;
    forall name | name != ORIGINAL
      ensures name in t.env.objs <==> Stored(t.wf.value, name)
    {
      StoredSnoc(s.wf.value, op, name);
      StoredByLog(t.wf.value, s.wf.value.(log := log), name);
    }
  }

  lemma StepStoresLogged(cfg: Config, s: Upload, m: Move)
    requires SInv(cfg, s) && StoresLogged(s)
    ensures StoresLogged(Step(cfg, s, m))
  {
    if s.wf.Some? {
      var t := Step(cfg, s, m);
      if m.Call? || m.LateCall? {
        if CallOf(cfg, s.wf.value, m).Some? { CallStoresLogged(cfg, s, m); }
      } else {
        WfStepGrows(|cfg.specs|, s.wf.value, s.now, m);
        forall name
          ensures Stored(t.wf.value, name) <==> Stored(s.wf.value, name)
        {
          StoredByLog(t.wf.value, s.wf.value, name);
        }
      }
    }
  }

  /** In every run, late attempts included: a variant is in the bucket exactly if a store of it took
      effect. */
  lemma {:induction false} RunStoresLogged(cfg: Config, ms: seq<Move>)
    requires Good(cfg)
    ensures StoresLogged(Run(cfg, Begin(), ms))
    decreases |ms|
  {
    if ms != [] {
      RunStoresLogged(cfg, ms[..|ms| - 1]);
      RunSafe(cfg, Begin(), ms[..|ms| - 1]);
      StepStoresLogged(cfg, Run(cfg, Begin(), ms[..|ms| - 1]), ms[|ms| - 1]);
    }
  }

  /** How one spec came out: whether a store of it ever took effect, and what its future says. */
  datatype SpecOutcome = SpecOutcome(wrote: bool, res: Result)

  function Resized(cfg: Config, b: Bytes, sp: Spec): Bytes {
    var d := cfg.resize(b, sp.w, sp.h);
    if d.Some? then d.value else []
  }

  /** The reference: go through the specs in list order, store what was written, remember the last
      error. It looks at nothing but the original and the outcomes. */
  function InOrder(cfg: Config, b: Bytes, outs: seq<SpecOutcome>): (map<string, Bytes>, Option<Res>)
    requires |outs| <= |cfg.specs|
  {
    if outs == [] then (map[ORIGINAL := b], None)
    else
      var k := |outs| - 1;
      var (objs, err) := InOrder(cfg, b, outs[..k]);
      (if outs[k].wrote then objs[cfg.specs[k].name := Resized(cfg, b, cfg.specs[k])] else objs,
       if outs[k].res.Err? then Some(Error(ActResize(k), outs[k].res.why)) else err)
  }

  /** The outcomes a state shows for the first `k` specs. */
  function Outcomes(cfg: Config, s: Upload, k: nat): (outs: seq<SpecOutcome>)
    requires k <= |cfg.specs| && s.wf.Some? && AllFinished(s.wf.value.futs, k)
    ensures |outs| == k
  {
    if k == 0 then []
    else Outcomes(cfg, s, k - 1)
         + [SpecOutcome(Stored(s.wf.value, cfg.specs[k - 1].name), FutOf(s.wf.value.futs, ActResize(k - 1)).res)]
  }

  /** The fan-out has been issued and no attempt of it has started. */
  ghost predicate FanOutBegins(cfg: Config, s: Upload) {
    && s.wf.Some? && s.wf.value.code.Gather?
    && forall i :: 0 <= i < |cfg.specs| ==> FutOf(s.wf.value.futs, ActResize(i)) == Backoff(0)
  }

  lemma OnlyOriginalYet(cfg: Config, s: Upload)
    requires Good(cfg) && SInv(cfg, s) && FanOutBegins(cfg, s)
    ensures ORIGINAL in s.env.objs && s.env.objs == map[ORIGINAL := s.env.objs[ORIGINAL]]
    ensures From(cfg, Current(s), s)
  {
  }

  /** Without a PUT, from any state in which the variants stem from the one original. */
  lemma {:induction false} UnmovedRun(cfg: Config, s: Upload, ms: seq<Move>)
    requires Good(cfg) && SInv(cfg, s) && s.wf.Some? && Succeeded(s.wf.value, ActValidate)
    requires From(cfg, Current(s), s) && NoPut(ms)
    ensures var t := Run(cfg, s, ms);
            && SInv(cfg, t) && t.wf.Some? && Grows(s.wf.value, t.wf.value)
            && From(cfg, Current(s), t) && Current(t) == Current(s)
    decreases |ms|
  {
    if ms != [] {
      var m := ms[|ms| - 1];
      var t := Run(cfg, s, ms[..|ms| - 1]);
      UnmovedRun(cfg, s, ms[..|ms| - 1]);
      StepSafe(cfg, t, m);
      QuietStep(cfg, t, m);
      StepGrows(cfg, t, m);
      var u := Step(cfg, t, m);
      assert Achieved(u.wf.value, ActValidate);
      StepFrom(cfg, Current(s), t, m);
      assert Current(s) + Current(u) == Current(s);
    }
  }

  /** `objs` is the original and what the state stores for the first `k` specs. */
  ghost predicate StoresFirst(cfg: Config, s: Upload, b: Bytes, k: nat, objs: map<string, Bytes>) {
    && k <= |cfg.specs| && ORIGINAL in objs && objs[ORIGINAL] == b
    && (forall i :: 0 <= i < k ==> (cfg.specs[i].name in objs <==> cfg.specs[i].name in s.env.objs))
    && (forall name :: name in objs && name != ORIGINAL ==>
          name in s.env.objs && objs[name] == s.env.objs[name])
    && (forall i :: k <= i < |cfg.specs| ==> cfg.specs[i].name !in objs)
  }

  lemma NamesDistinct(cfg: Config, i: nat, j: nat)
    requires Good(cfg) && i < |cfg.specs| && j < |cfg.specs| && cfg.specs[i].name == cfg.specs[j].name
    ensures i == j
  {
  }

  lemma StoresNext(cfg: Config, s: Upload, b: Bytes, k: nat, objs: map<string, Bytes>)
    requires Good(cfg) && k < |cfg.specs| && StoresFirst(cfg, s, b, k, objs) && From(cfg, {b}, s)
    ensures var sp := cfg.specs[k];
            StoresFirst(cfg, s, b, k + 1, if sp.name in s.env.objs then objs[sp.name := Resized(cfg, b, sp)] else objs)
  {
    var sp := cfg.specs[k];
    if sp.name in s.env.objs {
      assert MadeFrom(cfg, {b}, sp, s.env.objs[sp.name]);
      assert s.env.objs[sp.name] == Resized(cfg, b, sp);
    }
    forall i | 0 <= i < |cfg.specs| && cfg.specs[i].name == sp.name
      ensures i == k
    {
      NamesDistinct(cfg, i, k);
    }
  }

  lemma InOrderSnoc(cfg: Config, b: Bytes, outs: seq<SpecOutcome>, o: SpecOutcome)
    requires |outs| < |cfg.specs|
    ensures var (objs, err) := InOrder(cfg, b, outs);
            var sp := cfg.specs[|outs|];
            InOrder(cfg, b, outs + [o]) ==
            (if o.wrote then objs[sp.name := Resized(cfg, b, sp)] else objs,
             if o.res.Err? then Some(Error(ActResize(|outs|), o.res.why)) else err)
  {
    assert (outs + [o])[..|outs|] == outs;
  }

  lemma {:induction false} InOrderStores(cfg: Config, s: Upload, b: Bytes, k: nat)
    requires Good(cfg) && k <= |cfg.specs| && s.wf.Some? && AllFinished(s.wf.value.futs, k)
    requires From(cfg, {b}, s) && StoresLogged(s)
    ensures InOrder(cfg, b, Outcomes(cfg, s, k)).1 == LastErr(s.wf.value.futs, k)
    ensures StoresFirst(cfg, s, b, k, InOrder(cfg, b, Outcomes(cfg, s, k)).0)
  {
    if k > 0 {
      InOrderStores(cfg, s, b, k - 1);
      assert cfg.specs[k - 1].name != ORIGINAL;
      InOrderSnoc(cfg, b, Outcomes(cfg, s, k - 1), Outcomes(cfg, s, k)[k - 1]);
      StoresNext(cfg, s, b, k - 1, InOrder(cfg, b, Outcomes(cfg, s, k - 1)).0);
    }
  }

  ghost predicate FannedIn(cfg: Config, t: Upload) {
    && t.wf.Some? && Phase(t.wf.value.code) in {Some(ActComplete), Some(ActFail)}
    && AllFinished(t.wf.value.futs, |cfg.specs|)
  }

  /** The store is what list order gives, the error is the last failing spec's, and a spec that
      succeeded is stored. */
  ghost predicate ShowsInOrder(cfg: Config, b: Bytes, t: Upload)
    requires FannedIn(cfg, t)
  {
    var wf := t.wf.value;
    var outs := Outcomes(cfg, t, |cfg.specs|);
    var err := LastErr(wf.futs, |cfg.specs|);
    && (t.env.objs, err) == InOrder(cfg, b, outs)
    && (wf.code.a.ActFail? <==> err.Some?)
    && (wf.code.Await? ==> wf.code.carry == err)
    && (wf.code.Closed? && wf.code.a.ActFail? ==> Some(wf.code.res) == err)
    && (forall i :: 0 <= i < |cfg.specs| && outs[i].res.Ok? ==> outs[i].wrote)
  }

  lemma FannedInShows(cfg: Config, b: Bytes, t: Upload)
    requires Good(cfg) && SInv(cfg, t) && FannedIn(cfg, t) && StoresLogged(t)
    requires From(cfg, {b}, t) && ORIGINAL in t.env.objs && t.env.objs[ORIGINAL] == b
    ensures ShowsInOrder(cfg, b, t)
  {
    var n := |cfg.specs|;
    FanInDone(n, t.wf.value);
    InOrderStores(cfg, t, b, n);
    OutcomesAt(cfg, t, n);
    var objs := InOrder(cfg, b, Outcomes(cfg, t, n)).0;
    forall name | name in t.env.objs
      ensures name in objs && objs[name] == t.env.objs[name]
    {
      if name != ORIGINAL {
        assert Variant(cfg, t.wf.value, name);
      }
    }
    assert t.env.objs == objs;
  }

  lemma FannedInState(cfg: Config, t: Upload)
    requires SInv(cfg, t) && t.wf.Some? && Phase(t.wf.value.code) in {Some(ActComplete), Some(ActFail)}
    ensures FannedIn(cfg, t)
  {
  }

  /** For every interleaving of resize attempts, retried, timed out or acting late, with the
      original left alone: once the fan-in is over, store and error are those of resizing the specs
      one after another in list order. */
  lemma FanOutIsSequential(cfg: Config, ms: seq<Move>, later: seq<Move>)
    requires Good(cfg) && NoPut(later)
    requires FanOutBegins(cfg, Run(cfg, Begin(), ms))
    requires var t := Run(cfg, Begin(), ms + later);
             t.wf.Some? && Phase(t.wf.value.code) in {Some(ActComplete), Some(ActFail)}
    ensures ORIGINAL in Run(cfg, Begin(), ms).env.objs
    ensures FannedIn(cfg, Run(cfg, Begin(), ms + later))
    ensures ShowsInOrder(cfg, Run(cfg, Begin(), ms).env.objs[ORIGINAL], Run(cfg, Begin(), ms + later))
  {
    var s := Run(cfg, Begin(), ms);
    RunSafe(cfg, Begin(), ms);
    OnlyOriginalYet(cfg, s);
    RunAppend(cfg, Begin(), ms, later);
    assert Behind(|cfg.specs|, Phase(s.wf.value.code).value, ActValidate);
    UnmovedRun(cfg, s, later);
    var t := Run(cfg, s, later);
    FannedInState(cfg, t);
    RunStoresLogged(cfg, ms + later);
    var b := s.env.objs[ORIGINAL];
    assert Current(s) == {b};
    assert b in Current(t);
    FannedInShows(cfg, b, t);
  }

  lemma FanInDone(n: nat, wf: Wf)
    requires WfInv(n, wf) && Phase(wf.code) in {Some(ActComplete), Some(ActFail)}
    ensures AllFinished(wf.futs, n)
    ensures wf.code.a.ActFail? <==> LastErr(wf.futs, n).Some?
    ensures wf.code.Await? ==> wf.code.carry == LastErr(wf.futs, n)
    ensures wf.code.Closed? && wf.code.a.ActFail? ==> Some(wf.code.res) == LastErr(wf.futs, n)
  {
    assert Scheduled(n, wf.code, wf.code.a);
    ScheduleExcludes(n, wf);
    if wf.code.a.ActComplete? {
      forall i: nat | i < n
        ensures Outcome(FutOf(wf.futs, ActResize(i))) == Some(Ok)
      {
        assert Behind(n, ActComplete, ActResize(i));
      }
      NoErrors(wf.futs, n);
    }
  }

  lemma {:induction false} NoErrors(futs: map<Act, Fut>, k: nat)
    requires forall i: nat :: i < k ==> Outcome(FutOf(futs, ActResize(i))) == Some(Ok)
    ensures LastErr(futs, k).None?
  {
    if k > 0 {
      assert Outcome(FutOf(futs, ActResize(k - 1))) == Some(Ok);
      NoErrors(futs, k - 1);
    }
  }

  lemma {:induction false} OutcomesAt(cfg: Config, s: Upload, k: nat)
    requires k <= |cfg.specs| && s.wf.Some? && AllFinished(s.wf.value.futs, k)
    ensures forall i :: 0 <= i < k ==>
              Outcomes(cfg, s, k)[i]
              == SpecOutcome(Stored(s.wf.value, cfg.specs[i].name), FutOf(s.wf.value.futs, ActResize(i)).res)
  {
    if k > 0 {
      OutcomesAt(cfg, s, k - 1);
    }
  }

  /** So two interleavings in which the same stores took effect and each resize settled alike end in
      the same objects with the same error. */
  lemma InterleavingsAgree(cfg: Config, ms: seq<Move>, later1: seq<Move>, later2: seq<Move>)
    requires Good(cfg) && NoPut(later1) && NoPut(later2)
    requires FanOutBegins(cfg, Run(cfg, Begin(), ms))
    requires var t := Run(cfg, Begin(), ms + later1);
             t.wf.Some? && Phase(t.wf.value.code) in {Some(ActComplete), Some(ActFail)}
    requires var t := Run(cfg, Begin(), ms + later2);
             t.wf.Some? && Phase(t.wf.value.code) in {Some(ActComplete), Some(ActFail)}
    requires var t1, t2 := Run(cfg, Begin(), ms + later1), Run(cfg, Begin(), ms + later2);
             forall i :: 0 <= i < |cfg.specs| ==>
               && (Stored(t1.wf.value, cfg.specs[i].name) <==> Stored(t2.wf.value, cfg.specs[i].name))
               && Outcome(FutOf(t1.wf.value.futs, ActResize(i))) == Outcome(FutOf(t2.wf.value.futs, ActResize(i)))
    ensures var t1, t2 := Run(cfg, Begin(), ms + later1), Run(cfg, Begin(), ms + later2);
            && t1.env.objs == t2.env.objs
            && LastErr(t1.wf.value.futs, |cfg.specs|) == LastErr(t2.wf.value.futs, |cfg.specs|)
            && Phase(t1.wf.value.code) == Phase(t2.wf.value.code)
  {
    FanOutIsSequential(cfg, ms, later1);
    FanOutIsSequential(cfg, ms, later2);
    OutcomesDecide(cfg, Run(cfg, Begin(), ms).env.objs[ORIGINAL], Run(cfg, Begin(), ms + later1),
                   Run(cfg, Begin(), ms + later2));
  }

  lemma OutcomesDecide(cfg: Config, b: Bytes, t1: Upload, t2: Upload)
    requires FannedIn(cfg, t1) && ShowsInOrder(cfg, b, t1)
    requires FannedIn(cfg, t2) && ShowsInOrder(cfg, b, t2)
    requires forall i :: 0 <= i < |cfg.specs| ==>
               && (Stored(t1.wf.value, cfg.specs[i].name) <==> Stored(t2.wf.value, cfg.specs[i].name))
               && Outcome(FutOf(t1.wf.value.futs, ActResize(i))) == Outcome(FutOf(t2.wf.value.futs, ActResize(i)))
    ensures t1.env.objs == t2.env.objs
    ensures LastErr(t1.wf.value.futs, |cfg.specs|) == LastErr(t2.wf.value.futs, |cfg.specs|)
    ensures Phase(t1.wf.value.code) == Phase(t2.wf.value.code)
  {
    SameOutcomes(cfg, t1, t2);
  }

  lemma SameOutcomes(cfg: Config, t1: Upload, t2: Upload)
    requires FannedIn(cfg, t1) && FannedIn(cfg, t2)
    requires forall i :: 0 <= i < |cfg.specs| ==>
               && (Stored(t1.wf.value, cfg.specs[i].name) <==> Stored(t2.wf.value, cfg.specs[i].name))
               && Outcome(FutOf(t1.wf.value.futs, ActResize(i))) == Outcome(FutOf(t2.wf.value.futs, ActResize(i)))
    ensures Outcomes(cfg, t1, |cfg.specs|) == Outcomes(cfg, t2, |cfg.specs|)
  {
    OutcomesAt(cfg, t1, |cfg.specs|);
    OutcomesAt(cfg, t2, |cfg.specs|);
  }
}
