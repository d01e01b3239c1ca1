/** The main safety results for one upload. Every one of them is about every run: any sequence of
    moves, including attempts that go on acting after their timeout was reported. */
module SafetyTheorems {
  import opened Types
  import opened Attempts
  import opened Workflow
  import opened Machine
  import opened History
  import opened Inv
  import opened Safety

  function WithoutCrashes(ms: seq<Move>): seq<Move> {
    if ms == [] then []
    else
      var rest := WithoutCrashes(ms[..|ms| - 1]);
      if ms[|ms| - 1].Crash? then rest else rest + [ms[|ms| - 1]]
  }

  /** In every reachable state, re-running the workflow over its history gives the cached program
      point and exactly the commands issued so far; so a crash there changes nothing. */
  lemma ReplayIsInvisible(cfg: Config, ms: seq<Move>)
    requires Good(cfg)
    ensures var s := Run(cfg, Begin(), ms);
            && (s.wf.Some? ==>
                  Exec(|cfg.specs|, Visible(s.wf.value.hist)) == Trace(s.wf.value.code, s.wf.value.issued))
            && Step(cfg, s, Crash) == s
  {
    RunSafe(cfg, Begin(), ms);
    var s := Run(cfg, Begin(), ms);
    if s.wf.Some? {
      ReplayStands(cfg, s);
    }
  }

  lemma ReplayStands(cfg: Config, s: Upload)
    requires s.wf.Some? && WfInv(|cfg.specs|, s.wf.value)
    ensures Exec(|cfg.specs|, Visible(s.wf.value.hist)) == Trace(s.wf.value.code, s.wf.value.issued)
    ensures Step(cfg, s, Crash) == s
  {
    var wf := s.wf.value;
    ReplayGives(|cfg.specs|, wf.hist, wf.code, wf.issued);
    CrashIsInvisible(|cfg.specs|, wf, s.now);
  }

  /** Crashing and replaying at any points, any number of times, leaves the run as it was. */
  lemma {:induction false} CrashesDropOut(cfg: Config, ms: seq<Move>)
    requires Good(cfg)
    ensures Run(cfg, Begin(), ms) == Run(cfg, Begin(), WithoutCrashes(ms))
    decreases |ms|
  {
    if ms != [] {
      var rest := ms[..|ms| - 1];
      CrashesDropOut(cfg, rest);
      ReplayIsInvisible(cfg, rest);
      RunSnoc(cfg, Begin(), WithoutCrashes(rest), ms[|ms| - 1]);
    }
  }

  lemma StepGrows(cfg: Config, s: Upload, m: Move)
    requires SInv(cfg, s) && s.wf.Some?
    ensures Step(cfg, s, m).wf.Some? && Grows(s.wf.value, Step(cfg, s, m).wf.value)
  {
    var wf := s.wf.value;
    if m.Call? || m.LateCall? {
      if CallOf(cfg, wf, m).Some? {
        DeliverGrows(cfg, wf, m, Perform(cfg, s.env, CallOf(cfg, wf, m).value, FaultOf(m)).1);
      }
    } else {
      WfStepGrows(|cfg.specs|, wf, s.now, m);
    }
  }

  lemma {:induction false} RunGrows(cfg: Config, s: Upload, ms: seq<Move>)
    requires Good(cfg) && SInv(cfg, s) && s.wf.Some?
    ensures Run(cfg, s, ms).wf.Some? && Grows(s.wf.value, Run(cfg, s, ms).wf.value)
    decreases |ms|
  {
    if ms != [] {
      RunGrows(cfg, s, ms[..|ms| - 1]);
      RunSafe(cfg, s, ms[..|ms| - 1]);
      StepGrows(cfg, Run(cfg, s, ms[..|ms| - 1]), ms[|ms| - 1]);
    }
  }

  /** A settled activity is never run again: its future, attempt count included, is final. */
  lemma SettledIsFinal(cfg: Config, ms: seq<Move>, later: seq<Move>, a: Act)
    requires Good(cfg)
    requires var s := Run(cfg, Begin(), ms); s.wf.Some? && FutOf(s.wf.value.futs, a).Finished?
    ensures var t := Run(cfg, Begin(), ms + later);
            t.wf.Some? && FutOf(t.wf.value.futs, a) == FutOf(Run(cfg, Begin(), ms).wf.value.futs, a)
  {
    RunSafe(cfg, Begin(), ms);
    RunGrows(cfg, Run(cfg, Begin(), ms), later);
    RunAppend(cfg, Begin(), ms, later);
  }

  // ---- What `complete` promises ----

  ghost predicate AllStored(cfg: Config, objs: map<string, Bytes>) {
    ORIGINAL in objs && forall i :: 0 <= i < |cfg.specs| ==> cfg.specs[i].name in objs
  }

  lemma CompleteScheduledStores(cfg: Config, s: Upload)
    requires SInv(cfg, s) && s.wf.Some? && IsScheduled(s.wf.value, ActComplete)
    ensures AllStored(cfg, s.env.objs)
  {
  }

  /** Once a read returns `complete`, the original and every variant exist then and ever after. */
  lemma CompleteLasts(cfg: Config, ms: seq<Move>, later: seq<Move>)
    requires Good(cfg)
    requires var s := Run(cfg, Begin(), ms); s.env.row.Some? && s.env.row.value.status.Complete?
    ensures AllStored(cfg, Run(cfg, Begin(), ms).env.objs)
    ensures AllStored(cfg, Run(cfg, Begin(), ms + later).env.objs)
  {
    var s := Run(cfg, Begin(), ms);
    RunSafe(cfg, Begin(), ms);
    CompleteScheduledStores(cfg, s);
    RunSafe(cfg, s, later);
    RunGrows(cfg, s, later);
    RunAppend(cfg, Begin(), ms, later);
    CompleteScheduledStores(cfg, Run(cfg, s, later));
  }

  /** The sizes the image handler accepts are the keys `complete` promises. */
  lemma AcceptedSizesAreStored(cfg: Config, objs: map<string, Bytes>, size: string)
    requires cfg.specs == SIZES && AllStored(cfg, objs)
    requires size == "original" || size == "12x12" || size == "25x25"
    ensures Good(cfg) && size in objs
  {
    assert SIZES[0].name in objs && SIZES[1].name in objs;
    assert "12x12"[0] != "25x25"[0] && "12x12"[0] != "original"[0] && "25x25"[0] != "original"[0];
  }

  // ---- Branch exclusivity ----

  /** A write of a terminal status. */
  predicate Ends(op: Op) {
    op.Update? && Terminal(op.st)
  }

  /** The two branches exclude each other; a delete of the original and a store of a variant never
      both take effect; at most one terminal status is ever written; and the workflow decides
      between Complete and Fail only after every resize has settled. */
  lemma BranchesExclude(cfg: Config, ms: seq<Move>)
    requires Good(cfg)
    ensures var s := Run(cfg, Begin(), ms);
            s.wf.Some? ==>
              var wf := s.wf.value;
              && !(IsScheduled(wf, ActAbandon) && IsScheduled(wf, ActValidate))
              && !(IsScheduled(wf, ActComplete) && IsScheduled(wf, ActFail))
              && (IsScheduled(wf, ActComplete) || IsScheduled(wf, ActFail) ==>
                    AllFinished(wf.futs, |cfg.specs|))
              && (forall i, j :: 0 <= i < |wf.log| && 0 <= j < |wf.log| && wf.log[i].Remove? ==>
                    !wf.log[j].Store?)
              && (forall i, j :: 0 <= i < |wf.log| && 0 <= j < |wf.log| && Ends(wf.log[i]) && Ends(wf.log[j]) ==>
                    wf.log[i] == wf.log[j])
  {
    RunSafe(cfg, Begin(), ms);
    var s := Run(cfg, Begin(), ms);
    if s.wf.Some? {
      var wf := s.wf.value;
      ScheduleExcludes(|cfg.specs|, wf);
      forall i, j | 0 <= i < |wf.log| && 0 <= j < |wf.log|
        ensures wf.log[i].Remove? ==> !wf.log[j].Store?
        ensures Ends(wf.log[i]) && Ends(wf.log[j]) ==> wf.log[i] == wf.log[j]
      {
        assert Logged(wf, wf.log[i]) && Logged(wf, wf.log[j]);
      }
    }
  }

  lemma ScheduleExcludes(n: nat, wf: Wf)
    requires WfInv(n, wf)
    ensures IsScheduled(wf, ActAbandon) ==> !IsScheduled(wf, ActValidate)
    ensures IsScheduled(wf, ActComplete) ==> !IsScheduled(wf, ActFail)
    ensures IsScheduled(wf, ActComplete) || IsScheduled(wf, ActFail) ==>
              AllFinished(wf.futs, n) && Succeeded(wf, ActValidate)
    ensures Doomed(wf) ==> !Succeeded(wf, ActValidate) && IsScheduled(wf, ActValidate)
  {
  }

  // ---- The creation chain ----

  /** Whatever fails in Negotiate: a URL has a workflow behind it, a workflow has a row, and every
      stored key is the original or a variant of an upload with a row and a URL. */
  lemma CreationChain(cfg: Config, ms: seq<Move>)
    requires Good(cfg)
    ensures var s := Run(cfg, Begin(), ms);
            && (s.url.Some? ==> s.wf.Some?)
            && (s.wf.Some? ==> s.env.row.Some?)
            && (ORIGINAL in s.env.objs ==> s.url.Some?)
            && (forall name :: name in s.env.objs ==>
                  && s.wf.Some?
                  && (name == ORIGINAL || exists i :: 0 <= i < |cfg.specs| && cfg.specs[i].name == name))
  {
    RunSafe(cfg, Begin(), ms);
    var s := Run(cfg, Begin(), ms);
    if s.wf.Some? {
      forall name | name in s.env.objs && name != ORIGINAL
        ensures exists i :: 0 <= i < |cfg.specs| && cfg.specs[i].name == name
      {
        assert Variant(cfg, s.wf.value, name);
      }
    }
  }

  // ---- What never changes in a row ----

  ghost predicate SameButStatus(x: Option<Row>, y: Option<Row>) {
    x.Some? && y.Some? && x.value.(status := Pending) == y.value.(status := Pending)
  }

  lemma StepKeepsRow(cfg: Config, s: Upload, m: Move)
    requires Chain(s) && s.env.row.Some?
    ensures SameButStatus(s.env.row, Step(cfg, s, m).env.row)
  {
  }

  /** A row once made stays, with its owner, file name, content type and time of creation. */
  lemma {:induction false} RowStays(cfg: Config, s: Upload, ms: seq<Move>)
    requires Good(cfg) && SInv(cfg, s) && s.env.row.Some?
    ensures SameButStatus(s.env.row, Run(cfg, s, ms).env.row)
    decreases |ms|
  {
    if ms != [] {
      RowStays(cfg, s, ms[..|ms| - 1]);
      RunSafe(cfg, s, ms[..|ms| - 1]);
      StepKeepsRow(cfg, Run(cfg, s, ms[..|ms| - 1]), ms[|ms| - 1]);
    }
  }
}
