/** When a failed Validate has left the upload `rejected` and its object deleted, in whole runs: with
    PUTs landing at any time, timeouts at any time, and a timed-out attempt acting late. */
module Verdicts {
  import opened Types
  import opened Attempts
  import opened Workflow
  import opened Machine
  import opened Inv
  import opened Safety
  import opened SafetyTheorems
  import opened Provenance
  import opened StatusOrder
  import opened Blocks
  import opened Reachable

  // ---- The calls Validate makes in a run ----

  /** One external call of Validate: how it went wrong, and the original it found in the store. */
  datatype Made = Made(fault: Fault, original: Option<Bytes>)

  predicate ByValidate(cfg: Config, s: Upload, m: Move) {
    s.wf.Some? && CallOf(cfg, s.wf.value, m).Some? && Caller(s.wf.value, m).0.ActValidate?
  }

  /** The calls Validate makes from `s` on, in order; a timed-out attempt that acts late included. */
  function CallsMade(cfg: Config, s: Upload, ms: seq<Move>): seq<Made> {
    if ms == [] then []
    else
      var rest, m := ms[..|ms| - 1], ms[|ms| - 1];
      CallsMade(cfg, s, rest)
      + if ByValidate(cfg, Run(cfg, s, rest), m) then [Made(FaultOf(m), OriginalOf(Run(cfg, s, rest)))] else []
  }

  /** How many calls Validate had made when the last PUT was accepted; 0 if none was. */
  function CallsBeforePut(cfg: Config, s: Upload, ms: seq<Move>): nat {
    if ms == [] then 0
    else
      var rest, m := ms[..|ms| - 1], ms[|ms| - 1];
      if AcceptedPut(Run(cfg, s, rest), m) then |CallsMade(cfg, s, rest)| else CallsBeforePut(cfg, s, rest)
  }

  predicate Answered(c: seq<Made>) {
    |c| >= 2 && c[0].fault.NoFault? && c[1].fault.NoFault? && c[1].original.Some?
  }

  predicate BadlyTyped(cfg: Config, c: seq<Made>)
    requires Answered(c)
  {
    !cfg.sniffs(Prefix(c[1].original.value, SNIFF_BYTES))
  }

  predicate Oversized(c: seq<Made>) {
    |c| >= 3 && c[2].fault.NoFault? && c[2].original.Some? && |c[2].original.value| > MAX_IMAGE_BYTES
  }

  /** Mark and sniff were answered, the object was there, and its type or its size was refused. */
  predicate FoundBad(cfg: Config, c: seq<Made>) {
    Answered(c) && (BadlyTyped(cfg, c) || Oversized(c))
  }

  /** The number of the call that deletes, counting from 0; the next one writes the status. */
  function DropAt(cfg: Config, c: seq<Made>): nat
    requires Answered(c)
  {
    if BadlyTyped(cfg, c) then 2 else 3
  }

  /** The condition, on the calls Validate made: an object was found bad; both of `reject`'s calls were
      made, which they were not if the attempt was timed out and stopped before them; neither was lost
      before its effect; and no PUT was accepted after the delete. */
  ghost predicate RejectionSticksInRun(cfg: Config, s: Upload, ms: seq<Move>) {
    var c := CallsMade(cfg, s, ms);
    && FoundBad(cfg, c)
    && var k := DropAt(cfg, c);
       && k + 1 < |c| && !c[k].fault.Before? && !c[k + 1].fault.Before?
       && CallsBeforePut(cfg, s, ms) <= k
  }

  // ---- Where the calls lead ----

  function ReplyTo(cfg: Config, att: Attempt, c: Made): Reply
    requires !att.Done?
  {
    var objs := if c.original.Some? then map[ORIGINAL := c.original.value] else map[];
    Perform(cfg, Env(None, objs), Next(cfg, ActValidate, att), c.fault).1
  }

  /** The point the attempt has come to. */
  function Position(cfg: Config, c: seq<Made>): Attempt {
    if c == [] then VMark
    else
      var k := |c| - 1;
      var att := Position(cfg, c[..k]);
      if att.Done? then att else Resume(cfg, att, ReplyTo(cfg, att, c[k]))
  }

  /** What the last of the calls does to the row and the object, if it is not lost. */
  function LastOp(cfg: Config, c: seq<Made>): Option<Op>
    requires c != []
  {
    var k := |c| - 1;
    var att := Position(cfg, c[..k]);
    if att.Done? || c[k].fault.Before? then None else Some(Next(cfg, ActValidate, att))
  }

  function StatusBy(cfg: Config, c: seq<Made>): Status {
    if c == [] then Pending
    else
      var op := LastOp(cfg, c);
      if op.Some? && op.value.Update? then op.value.st else StatusBy(cfg, c[..|c| - 1])
  }

  /** Call number `k` deleted the object. */
  predicate Deletes(cfg: Config, c: seq<Made>, k: nat) {
    k < |c| && LastOp(cfg, c[..k + 1]) == Some(Remove)
  }

  lemma PositionStep(cfg: Config, c: seq<Made>, i: nat)
    requires i < |c|
    ensures var att := Position(cfg, c[..i]);
            && Position(cfg, c[..i + 1]) == (if att.Done? then att else Resume(cfg, att, ReplyTo(cfg, att, c[i])))
            && LastOp(cfg, c[..i + 1])
               == (if att.Done? || c[i].fault.Before? then None else Some(Next(cfg, ActValidate, att)))
            && StatusBy(cfg, c[..i + 1])
               == (var op := LastOp(cfg, c[..i + 1]);
                   if op.Some? && op.value.Update? then op.value.st else StatusBy(cfg, c[..i]))
  {
    assert c[..i + 1][..i] == c[..i];
  }

  lemma {:induction false} DoneStays(cfg: Config, c: seq<Made>, i: nat, k: nat)
    requires i <= k <= |c| && Position(cfg, c[..i]).Done?
    ensures Position(cfg, c[..k]).Done? && StatusBy(cfg, c[..k]) == StatusBy(cfg, c[..i])
    decreases k
  {
    if i < k {
      DoneStays(cfg, c, i, k - 1);
      PositionStep(cfg, c, k - 1);
      assert LastOp(cfg, c[..k]).None?;
    }
  }

  lemma Sniffed(cfg: Config, c: seq<Made>)
    requires |c| >= 2
    ensures Position(cfg, c[..0]) == VMark && (Position(cfg, c[..1]).VSniff? || Position(cfg, c[..1]).Done?)
    ensures Position(cfg, c[..2]) == if !Answered(c) then Done(Err(CallFailed))
                                     else if BadlyTyped(cfg, c) then VDrop(BadType) else VHead
    ensures !StatusBy(cfg, c[..2]).Rejected?
  {
    assert c[..0] == [];
    PositionStep(cfg, c, 0);
    PositionStep(cfg, c, 1);
  }

  lemma Sized(cfg: Config, c: seq<Made>)
    requires |c| >= 3 && Answered(c) && !BadlyTyped(cfg, c)
    ensures if Oversized(c) then Position(cfg, c[..3]) == VDrop(TooLarge) else Position(cfg, c[..3]).Done?
    ensures StatusBy(cfg, c[..3]) == StatusBy(cfg, c[..2])
  {
    Sniffed(cfg, c);
    PositionStep(cfg, c, 2);
  }

  lemma DropNext(cfg: Config, c: seq<Made>, i: nat)
    requires i < |c| && Position(cfg, c[..i]).VDrop?
    ensures Deletes(cfg, c, i) <==> !c[i].fault.Before?
    ensures Position(cfg, c[..i + 1]).VReject? && StatusBy(cfg, c[..i + 1]) == StatusBy(cfg, c[..i])
  {
    PositionStep(cfg, c, i);
  }

  lemma RejectNext(cfg: Config, c: seq<Made>, i: nat)
    requires i < |c| && Position(cfg, c[..i]).VReject?
    ensures Position(cfg, c[..i + 1]).Done?
    ensures StatusBy(cfg, c[..i + 1]) == if c[i].fault.Before? then StatusBy(cfg, c[..i]) else Rejected
  {
    PositionStep(cfg, c, i);
  }

  /** From the verdict on: the delete, the status write, and the end. */
  lemma Dropping(cfg: Config, c: seq<Made>, i: nat)
    requires i <= |c| && Position(cfg, c[..i]).VDrop? && !StatusBy(cfg, c[..i]).Rejected?
    ensures StatusBy(cfg, c[..|c|]).Rejected? <==> i + 1 < |c| && !c[i + 1].fault.Before?
  {
    if i < |c| {
      DropNext(cfg, c, i);
      if i + 1 < |c| {
        RejectNext(cfg, c, i + 1);
        DoneStays(cfg, c, i + 2, |c|);
      }
    }
  }

  /** There is no second delete. */
  lemma DropsOnce(cfg: Config, c: seq<Made>, i: nat, k: nat)
    requires i < k < |c| && Position(cfg, c[..i]).VDrop?
    ensures !Position(cfg, c[..k]).VDrop?
  {
    DropNext(cfg, c, i);
    if k > i + 1 {
      RejectNext(cfg, c, i + 1);
      DoneStays(cfg, c, i + 2, k);
    }
  }

  lemma DeletesAtDrop(cfg: Config, c: seq<Made>, k: nat)
    requires Deletes(cfg, c, k)
    ensures k < |c| && Position(cfg, c[..k]).VDrop?
  {
    PositionStep(cfg, c, k);
  }

  /** Without an object found bad there is no `rejected`. */
  lemma NotRejected(cfg: Config, c: seq<Made>)
    requires !FoundBad(cfg, c)
    ensures !StatusBy(cfg, c).Rejected?
  {
    assert c[..|c|] == c;
    if |c| < 2 {
      assert c[..0] == [];
      if |c| == 1 { PositionStep(cfg, c, 0); }
    } else {
      Sniffed(cfg, c);
      if !Answered(c) {
        DoneStays(cfg, c, 2, |c|);
      } else if |c| >= 3 {
        Sized(cfg, c);
        DoneStays(cfg, c, 3, |c|);
      }
    }
  }

  /** An object found bad brings the attempt to the delete. */
  lemma BadDrops(cfg: Config, c: seq<Made>)
    requires FoundBad(cfg, c)
    ensures DropAt(cfg, c) <= |c|
    ensures Position(cfg, c[..DropAt(cfg, c)]).VDrop? && !StatusBy(cfg, c[..DropAt(cfg, c)]).Rejected?
    ensures forall k: nat :: k < DropAt(cfg, c) ==> !Position(cfg, c[..k]).VDrop?
  {
    Sniffed(cfg, c);
    if !BadlyTyped(cfg, c) { Sized(cfg, c); }
  }

  /** The verdict spelled out: which calls leave `rejected`, and which call deletes. */
  lemma VerdictOf(cfg: Config, c: seq<Made>)
    requires FoundBad(cfg, c)
    ensures var d := DropAt(cfg, c);
            && (StatusBy(cfg, c).Rejected? <==> d + 1 < |c| && !c[d + 1].fault.Before?)
            && (d < |c| ==> (Deletes(cfg, c, d) <==> !c[d].fault.Before?))
    ensures forall k :: Deletes(cfg, c, k) ==> k == DropAt(cfg, c)
  {
    var d := DropAt(cfg, c);
    BadDrops(cfg, c);
    Dropping(cfg, c, d);
    assert c[..|c|] == c;
    if d < |c| { DropNext(cfg, c, d); }
    forall k: nat | Deletes(cfg, c, k)
      ensures k == d
    {
      DeletesAtDrop(cfg, c, k);
      if k > d { DropsOnce(cfg, c, d, k); }
    }
  }

  // ---- The run follows the calls ----

  lemma CallsSnoc(cfg: Config, s: Upload, ms: seq<Move>, m: Move)
    ensures CallsMade(cfg, s, ms + [m]) == CallsMade(cfg, s, ms)
              + if ByValidate(cfg, Run(cfg, s, ms), m) then [Made(FaultOf(m), OriginalOf(Run(cfg, s, ms)))] else []
  {
    assert (ms + [m])[..|ms|] == ms;
  }

  lemma PutSnoc(cfg: Config, s: Upload, ms: seq<Move>, m: Move)
    ensures CallsBeforePut(cfg, s, ms + [m])
            == if AcceptedPut(Run(cfg, s, ms), m) then |CallsMade(cfg, s, ms)| else CallsBeforePut(cfg, s, ms)
  {
    assert (ms + [m])[..|ms|] == ms;
  }

  lemma DeletesSnoc(cfg: Config, c: seq<Made>, x: Made, k: nat)
    ensures k < |c| ==> (Deletes(cfg, c + [x], k) <==> Deletes(cfg, c, k))
    ensures Deletes(cfg, c + [x], |c|) <==> LastOp(cfg, c + [x]) == Some(Remove)
  {
    if k < |c| {
      assert (c + [x])[..k + 1] == c[..k + 1];
    }
    assert (c + [x])[..|c| + 1] == c + [x];
  }

  lemma SnocMoves(cfg: Config, c: seq<Made>, x: Made)
    requires !Position(cfg, c).Done?
    ensures var att := Position(cfg, c);
            && Position(cfg, c + [x]) == Resume(cfg, att, ReplyTo(cfg, att, x))
            && LastOp(cfg, c + [x]) == (if x.fault.Before? then None else Some(Next(cfg, ActValidate, att)))
            && StatusBy(cfg, c + [x])
               == (var op := Next(cfg, ActValidate, att);
                   if !x.fault.Before? && op.Update? then op.st else StatusBy(cfg, c))
  {
    assert (c + [x])[..|c|] == c;
  }

  lemma SameReply(cfg: Config, s: Upload, att: Attempt, fault: Fault)
    requires !att.Done? && Fits(ActValidate, att)
    ensures Perform(cfg, s.env, Next(cfg, ActValidate, att), fault).1 == ReplyTo(cfg, att, Made(fault, OriginalOf(s)))
  {
  }

  ghost predicate AttemptTracks(cfg: Config, wf: Wf, c: seq<Made>) {
    match FutOf(wf.futs, ActValidate)
    case Idle => false
    case Backoff(used) => used == 0 && c == [] && wf.late == []
    case Running(_, att) => wf.late == [] && att == Position(cfg, c)
    case Finished(_, r) =>
      r.Err? ==> wf.late == [] || (|wf.late| == 1 && wf.late[0] == Late(ActValidate, Position(cfg, c)))
  }

  /** A delete with no PUT after it leaves no object; an object once found is there otherwise. */
  ghost predicate ObjectTracks(cfg: Config, c: seq<Made>, put: nat, objs: map<string, Bytes>) {
    && put <= |c|
    && (forall k: nat :: Deletes(cfg, c, k) && put <= k ==> ORIGINAL !in objs)
    && (Answered(c) && (forall k: nat :: Deletes(cfg, c, k) ==> k < put) ==> ORIGINAL in objs)
  }

  /** The row, the object and the attempt are where the calls made so far have brought them. */
  ghost predicate TracksAt(cfg: Config, c: seq<Made>, put: nat, t: Upload) {
    && t.wf.Some? && AttemptTracks(cfg, t.wf.value, c)
    && t.env.row.Some? && t.env.row.value.status == StatusBy(cfg, c)
    && ObjectTracks(cfg, c, put, t.env.objs)
  }

  ghost predicate Tracks(cfg: Config, s: Upload, ms: seq<Move>) {
    TracksAt(cfg, CallsMade(cfg, s, ms), CallsBeforePut(cfg, s, ms), Run(cfg, s, ms))
  }

  /** As long as Validate has not succeeded, every call is one of its. */
  lemma OnlyValidateActs(cfg: Config, wf: Wf, m: Move)
    requires WfInv(|cfg.specs|, wf) && IsScheduled(wf, ActValidate) && !Succeeded(wf, ActValidate)
    requires CallOf(cfg, wf, m).Some?
    ensures Caller(wf, m).0.ActValidate? && Fits(ActValidate, Caller(wf, m).1)
  {
    CallerIsScheduled(|cfg.specs|, wf, m);
    OthersIdle(|cfg.specs|, wf);
  }

  lemma CallTracks(cfg: Config, c: seq<Made>, put: nat, t: Upload, m: Move)
    requires TracksAt(cfg, c, put, t) && ByValidate(cfg, t, m)
    requires Fits(ActValidate, Caller(t.wf.value, m).1) && !Succeeded(t.wf.value, ActValidate)
    ensures TracksAt(cfg, c + [Made(FaultOf(m), OriginalOf(t))], put, Step(cfg, t, m))
  {
    var x := Made(FaultOf(m), OriginalOf(t));
    CalledAt(cfg, t, m, c);
    SnocMoves(cfg, c, x);
    CallTracksObject(cfg, c, x, put, t);
  }

  /** The call moves the attempt on as its position says, and does to the row what it says. */
  lemma CalledAt(cfg: Config, t: Upload, m: Move, c: seq<Made>)
    requires t.wf.Some? && AttemptTracks(cfg, t.wf.value, c) && ByValidate(cfg, t, m) && t.env.row.Some?
    requires Fits(ActValidate, Caller(t.wf.value, m).1)
    requires !Succeeded(t.wf.value, ActValidate)
    ensures !Position(cfg, c).Done? && Caller(t.wf.value, m).1 == Position(cfg, c)
    ensures var u := Step(cfg, t, m);
            && u.wf.Some? && AttemptTracks(cfg, u.wf.value, c + [Made(FaultOf(m), OriginalOf(t))])
            && u.env == if FaultOf(m).Before? then t.env else Effect(t.env, Next(cfg, ActValidate, Position(cfg, c)))
  {
    var x := Made(FaultOf(m), OriginalOf(t));
    var att := Caller(t.wf.value, m).1;
    assert att == Position(cfg, c);
    SameReply(cfg, t, att, FaultOf(m));
    SnocMoves(cfg, c, x);
  }

  lemma DeletesThen(cfg: Config, c: seq<Made>, x: Made)
    ensures forall k: nat {:trigger Deletes(cfg, c + [x], k)} :: Deletes(cfg, c + [x], k) <==>
              if k < |c| then Deletes(cfg, c, k) else k == |c| && LastOp(cfg, c + [x]) == Some(Remove)
  {
    forall k: nat
      ensures Deletes(cfg, c + [x], k) <==>
                if k < |c| then Deletes(cfg, c, k) else k == |c| && LastOp(cfg, c + [x]) == Some(Remove)
    {
      DeletesSnoc(cfg, c, x, k);
    }
  }

  lemma AnsweredSnoc(c: seq<Made>, x: Made)
    ensures Answered(c) ==> Answered(c + [x])
    ensures Answered(c + [x]) && !Answered(c) ==> |c| == 1 && x.original.Some?
  {
  }

  lemma CallTracksObject(cfg: Config, c: seq<Made>, x: Made, put: nat, t: Upload)
    requires ObjectTracks(cfg, c, put, t.env.objs) && !Position(cfg, c).Done? && x.original == OriginalOf(t)
    requires Fits(ActValidate, Position(cfg, c))
    ensures var e := if x.fault.Before? then t.env else Effect(t.env, Next(cfg, ActValidate, Position(cfg, c)));
            ObjectTracks(cfg, c + [x], put, e.objs)
  {
    SnocMoves(cfg, c, x);
    var op := Next(cfg, ActValidate, Position(cfg, c));
    var e := if x.fault.Before? then t.env else Effect(t.env, op);
    ObjectSnoc(cfg, c, x, put, t.env.objs, e.objs);
  }

  lemma ObjectSnoc(cfg: Config, c: seq<Made>, x: Made, put: nat, objs: map<string, Bytes>, objs': map<string, Bytes>)
    requires ObjectTracks(cfg, c, put, objs) && (x.original.Some? ==> ORIGINAL in objs)
    requires if LastOp(cfg, c + [x]) == Some(Remove) then ORIGINAL !in objs' else objs' == objs
    ensures ObjectTracks(cfg, c + [x], put, objs')
  {
    DeletesThen(cfg, c, x);
    AnsweredSnoc(c, x);
    if LastOp(cfg, c + [x]) == Some(Remove) {
      assert Deletes(cfg, c + [x], |c|) && put <= |c|;
    } else {
      assert forall k: nat :: k < |c| ==> (Deletes(cfg, c + [x], k) <==> Deletes(cfg, c, k));
    }
  }

  /** A delete before a PUT counts no more after it. */
  lemma PutTracksObject(cfg: Config, c: seq<Made>, put: nat, objs: map<string, Bytes>, objs': map<string, Bytes>)
    requires ObjectTracks(cfg, c, put, objs)
    ensures ORIGINAL in objs' ==> ObjectTracks(cfg, c, |c|, objs')
    ensures objs' == objs ==> ObjectTracks(cfg, c, put, objs')
  {
  }

  /** What a move other than a call does. */
  lemma OtherMove(cfg: Config, t: Upload, m: Move, c: seq<Made>)
    requires SInv(cfg, t) && t.wf.Some? && AttemptTracks(cfg, t.wf.value, c) && !Succeeded(t.wf.value, ActValidate)
    requires (m.Call? || m.LateCall?) ==> CallOf(cfg, t.wf.value, m).None?
    ensures var u := Step(cfg, t, m);
            && u.wf.Some? && AttemptTracks(cfg, u.wf.value, c) && u.env.row == t.env.row
            && if AcceptedPut(t, m) then ORIGINAL in u.env.objs else u.env.objs == t.env.objs
  {
    if m.RunTask? {
      TaskGrows(|cfg.specs|, t.wf.value, t.now);
    } else if m.Crash? {
      CrashIsInvisible(|cfg.specs|, t.wf.value, t.now);
    } else {
      OthersIdle(|cfg.specs|, t.wf.value);
      OtherWorker(cfg, t, m, c);
    }
  }

  lemma OthersIdle(n: nat, wf: Wf)
    requires FutsFit(n, wf) && IsScheduled(wf, ActValidate) && !Succeeded(wf, ActValidate)
    ensures forall a: Act :: a != ActValidate ==> FutOf(wf.futs, a).Idle?
  {
    assert Scheduled(n, wf.code, ActValidate);
    assert !Behind(n, Phase(wf.code).value, ActValidate);
  }

  lemma OtherWorker(cfg: Config, t: Upload, m: Move, c: seq<Made>)
    requires t.wf.Some? && AttemptTracks(cfg, t.wf.value, c) && Chain(t)
    requires FutFits(ActValidate, FutOf(t.wf.value.futs, ActValidate))
    requires forall a: Act :: a != ActValidate ==> FutOf(t.wf.value.futs, a).Idle?
    requires (m.Call? || m.LateCall?) ==> CallOf(cfg, t.wf.value, m).None?
    requires !m.RunTask? && !m.Crash?
    ensures var u := Step(cfg, t, m);
            && u.wf.Some? && AttemptTracks(cfg, u.wf.value, c) && u.env.row == t.env.row
            && if AcceptedPut(t, m) then ORIGINAL in u.env.objs else u.env.objs == t.env.objs
  {
    assert c == [] ==> Position(cfg, c) == VMark;
  }

  lemma OtherTracks(cfg: Config, c: seq<Made>, put: nat, t: Upload, m: Move)
    requires SInv(cfg, t) && TracksAt(cfg, c, put, t) && !Succeeded(t.wf.value, ActValidate)
    requires (m.Call? || m.LateCall?) ==> CallOf(cfg, t.wf.value, m).None?
    ensures TracksAt(cfg, c, if AcceptedPut(t, m) then |c| else put, Step(cfg, t, m))
  {
    OtherMove(cfg, t, m, c);
    PutTracksObject(cfg, c, put, t.env.objs, Step(cfg, t, m).env.objs);
  }

  /** The calls made so far, once the run has taken one more move. */
  function CallsThen(cfg: Config, t: Upload, c: seq<Made>, m: Move): seq<Made> {
    if ByValidate(cfg, t, m) then c + [Made(FaultOf(m), OriginalOf(t))] else c
  }

  lemma StepTracks(cfg: Config, c: seq<Made>, put: nat, t: Upload, m: Move)
    requires SInv(cfg, t) && TracksAt(cfg, c, put, t) && !Succeeded(t.wf.value, ActValidate)
    ensures TracksAt(cfg, CallsThen(cfg, t, c, m), if AcceptedPut(t, m) then |c| else put, Step(cfg, t, m))
  {
    if (m.Call? || m.LateCall?) && CallOf(cfg, t.wf.value, m).Some? {
      OnlyValidateActs(cfg, t.wf.value, m);
      CallTracks(cfg, c, put, t, m);
    } else {
      OtherTracks(cfg, c, put, t, m);
    }
  }

  lemma TracksSnoc(cfg: Config, s: Upload, ms: seq<Move>, m: Move, t: Upload, c: seq<Made>, put: nat, c': seq<Made>,
                   put': nat)
    requires t == Run(cfg, s, ms) && c == CallsMade(cfg, s, ms) && put == CallsBeforePut(cfg, s, ms)
    requires c' == CallsThen(cfg, t, c, m) && put' == if AcceptedPut(t, m) then |c| else put
    ensures Run(cfg, s, ms + [m]) == Step(cfg, t, m)
    ensures CallsMade(cfg, s, ms + [m]) == c' && CallsBeforePut(cfg, s, ms + [m]) == put'
  {
    RunSnoc(cfg, s, ms, m);
    CallsSnoc(cfg, s, ms, m);
    PutSnoc(cfg, s, ms, m);
  }

  /** Until Validate succeeds, the run follows the calls. */
  lemma {:induction false} RunTracks(cfg: Config, s: Upload, ms: seq<Move>)
    requires Good(cfg) && SInv(cfg, s) && Tracks(cfg, s, [])
    requires s.wf.Some? && Run(cfg, s, ms).wf.Some? && !Succeeded(Run(cfg, s, ms).wf.value, ActValidate)
    ensures Tracks(cfg, s, ms)
    decreases |ms|
  {
    if ms != [] {
      var rest, m := ms[..|ms| - 1], ms[|ms| - 1];
      var t, c, put := Run(cfg, s, rest), CallsMade(cfg, s, rest), CallsBeforePut(cfg, s, rest);
      NotYet(cfg, s, rest, m);
      RunTracks(cfg, s, rest);
      RunSafe(cfg, s, rest);
      StepTracks(cfg, c, put, t, m);
      TracksSnoc(cfg, s, rest, m, t, c, put, CallsThen(cfg, t, c, m), if AcceptedPut(t, m) then |c| else put);
      assert rest + [m] == ms;
    }
  }

  lemma NotYet(cfg: Config, s: Upload, ms: seq<Move>, m: Move)
    requires Good(cfg) && SInv(cfg, s) && s.wf.Some?
    requires var u := Step(cfg, Run(cfg, s, ms), m); u.wf.Some? && !Succeeded(u.wf.value, ActValidate)
    ensures Run(cfg, s, ms).wf.Some? && !Succeeded(Run(cfg, s, ms).wf.value, ActValidate)
  {
    RunSafe(cfg, s, ms);
    RunGrows(cfg, s, ms);
    StepGrows(cfg, Run(cfg, s, ms), m);
  }

  // ---- Where it begins ----

  /** No attempt of any activity has started. */
  ghost predicate Unbegun(wf: Wf) {
    forall a :: !Begun(FutOf(wf.futs, a))
  }

  lemma UnbegunStep(cfg: Config, s: Upload, m: Move)
    requires SInv(cfg, s)
    requires s.wf.Some? && Unbegun(s.wf.value) ==> s.env.row.Some? && s.env.row.value.status.Pending?
    requires Step(cfg, s, m).wf.Some? && Unbegun(Step(cfg, s, m).wf.value)
    ensures Step(cfg, s, m).env.row.Some? && Step(cfg, s, m).env.row.value.status.Pending?
  {
    if s.wf.Some? {
      StepGrows(cfg, s, m);
      if m.Call? || m.LateCall? {
        assert CallOf(cfg, s.wf.value, m).None? by {
          if CallOf(cfg, s.wf.value, m).Some? { CallerBegun(cfg, s.wf.value, m); }
        }
      }
    }
  }

  lemma CallerBegun(cfg: Config, wf: Wf, m: Move)
    requires WfInv(|cfg.specs|, wf) && CallOf(cfg, wf, m).Some?
    ensures Begun(FutOf(wf.futs, Caller(wf, m).0))
  {
  }

  /** In every run, the row is `pending` until the first attempt of an activity starts. */
  lemma {:induction false} UnbegunIsPending(cfg: Config, ms: seq<Move>)
    requires Good(cfg)
    ensures var s := Run(cfg, Begin(), ms);
            s.wf.Some? && Unbegun(s.wf.value) ==> s.env.row.Some? && s.env.row.value.status.Pending?
    decreases |ms|
  {
    if ms != [] {
      var s := Run(cfg, Begin(), ms[..|ms| - 1]);
      UnbegunIsPending(cfg, ms[..|ms| - 1]);
      RunSafe(cfg, Begin(), ms[..|ms| - 1]);
      if Run(cfg, Begin(), ms).wf.Some? && Unbegun(Run(cfg, Begin(), ms).wf.value) {
        UnbegunStep(cfg, s, ms[|ms| - 1]);
      }
    }
  }

  lemma TracksBegin(cfg: Config, pre: seq<Move>)
    requires Good(cfg) && ValidateBegins(Run(cfg, Begin(), pre))
    ensures Tracks(cfg, Run(cfg, Begin(), pre), [])
  {
    var s := Run(cfg, Begin(), pre);
    RunSafe(cfg, Begin(), pre);
    NothingBegun(|cfg.specs|, s.wf.value);
    UnbegunIsPending(cfg, pre);
    assert Run(cfg, s, []) == s && CallsMade(cfg, s, []) == [] && CallsBeforePut(cfg, s, []) == 0;
  }

  lemma LateBegun(wf: Wf)
    requires LateFits(wf)
    ensures wf.late != [] ==> Begun(FutOf(wf.futs, wf.late[0].a))
  {
  }

  lemma NothingBegun(n: nat, wf: Wf)
    requires WfInv(n, wf) && FutOf(wf.futs, ActValidate) == Backoff(0)
    ensures Unbegun(wf) && wf.late == []
  {
    OthersIdle(n, wf);
    LateBegun(wf);
  }

  /** For every run, with any moves at all, in which Validate is scheduled after `pre` and has settled
      with an error after `ms` more: the row reads `rejected` and there is no object if and only if the
      rejection stuck. In particular it does not if the object was missing, a call failed before the
      verdict, or a timeout stopped the attempt. */
  lemma FailedMeansRejectedInRunIff(cfg: Config, pre: seq<Move>, ms: seq<Move>)
    requires Good(cfg) && ValidateBegins(Run(cfg, Begin(), pre))
    requires var t := Run(cfg, Begin(), pre + ms);
             var r := if t.wf.Some? then Outcome(FutOf(t.wf.value.futs, ActValidate)) else None;
             r.Some? && r.value.Err?
    ensures var t := Run(cfg, Begin(), pre + ms);
            (t.env.row.Some? && t.env.row.value.status.Rejected? && ORIGINAL !in t.env.objs)
            <==> RejectionSticksInRun(cfg, Run(cfg, Begin(), pre), ms)
  {
    var s := Run(cfg, Begin(), pre);
    RunAppend(cfg, Begin(), pre, ms);
    RunSafe(cfg, Begin(), pre);
    TracksBegin(cfg, pre);
    RunTracks(cfg, s, ms);
    if FoundBad(cfg, CallsMade(cfg, s, ms)) {
      VerdictOf(cfg, CallsMade(cfg, s, ms));
    } else {
      NotRejected(cfg, CallsMade(cfg, s, ms));
    }
  }

  /** A run to which the claim does not apply, without a single failed call: the attempt is timed out
      after its first call, the workflow closes with that error, the row stays `validating`, and the
      bad object is still there. */
  lemma TimeoutIsNoRejection(cfg: Config, bad: Bytes)
    requires Good(cfg)
    ensures exists s :: Reach(cfg, s) && s.wf.Some?
              && s.wf.value.code == Closed(ActValidate, Error(ActValidate, TimedOut))
              && s.env.row.Some? && StatusOf(s) == Validating
              && ORIGINAL in s.env.objs && s.env.objs[ORIGINAL] == bad
  {
    var a := ActValidate;
    var s := ToValidate(cfg, bad);
    var e := Effect(s.env, Update(Validating));
    var log := Extend(s.wf.value.log, Update(Validating), NoFault);
    var t := Reported(s, a, 1, Err(TimedOut), e, log);
    GoExpire(cfg, s, a, 1, VSniff, e, log);
    GoCall(cfg, s, a, 1, VMark, s.env, s.wf.value.log, NoFault, [Expire(a, false)], t);
    GoDispatch(cfg, s, a, [Call(a, NoFault)] + [Expire(a, false)], t);
    var ms := [Dispatch(a)] + ([Call(a, NoFault)] + [Expire(a, false)]);
    GoesMeans(cfg, s, ms, t);
    ReachRun(cfg, s, ms);
    ReachSafe(cfg, s);
    ReachSafe(cfg, t);
    CloseStep(cfg, t);
    ReachStep(cfg, t, RunTask);
    assert s.wf.value.code == Await(a, None);
    var u := Step(cfg, t, RunTask);
    assert u.wf.value.code == Closed(a, Error(a, TimedOut));
  }

  // ---- What a refused object makes the workflow return ----

  /** After any run that has come to the start of Validate with an object that fails a check: left
      undisturbed, the workflow closes with Validate's own error, which says which check it was. */
  lemma RefusalIsReturned(cfg: Config, ms: seq<Move>) returns (more: seq<Move>)
    requires Good(cfg) && ValidateBegins(Run(cfg, Begin(), ms))
    requires var s := Run(cfg, Begin(), ms); ORIGINAL in s.env.objs && !Passes(cfg, s.env.objs[ORIGINAL])
    ensures var s, t := Run(cfg, Begin(), ms), Run(cfg, Begin(), ms + more);
            var typed := cfg.sniffs(Prefix(s.env.objs[ORIGINAL], SNIFF_BYTES));
            && t.wf.Some?
            && t.wf.value.code == Closed(ActValidate, Error(ActValidate, if typed then TooLarge else BadType))
  {
    var s := Run(cfg, Begin(), ms);
    var faults := (k: nat) => NoFault;
    var try := [Dispatch(ActValidate)] + FinishMoves(cfg, ActValidate, VMark, s.env, faults, 0);
    RunSafe(cfg, Begin(), ms);
    ValidateAwaits(|cfg.specs|, s.wf.value);
    ValidateVerdict(cfg, s.env, faults);
    var log := AttemptRuns(cfg, s, ActValidate, faults);
    var t := Run(cfg, s, try);
    RunSafe(cfg, s, try);
    CloseStep(cfg, t);
    more := try + [RunTask];
    RunSnoc(cfg, s, try, RunTask);
    RunAppend(cfg, Begin(), ms, more);
    ReturnsItsResult(cfg, ms + more);
  }

  lemma ValidateAwaits(n: nat, wf: Wf)
    requires WfInv(n, wf) && FutOf(wf.futs, ActValidate) == Backoff(0)
    ensures wf.code.Await? && wf.code.a.ActValidate?
  {
    assert Scheduled(n, wf.code, ActValidate);
    assert !Behind(n, Phase(wf.code).value, ActValidate);
  }
}
