/** Uploads whose workflow is not found: when that means that it has finished, and when the row is
    stuck. */
module Orphans {
  import opened Types
  import opened Machine
  import opened Inv
  import opened Keys
  import opened Safety
  import opened SafetyTheorems
  import opened Progress
  import opened Premises
  import opened World
  import opened Uploads
  import Pipeline
  import Transport

  /** The events hold a start of this upload's workflow that took effect. */
  ghost predicate StartTookEffect(cfg: Config, es: seq<Event>, id: string) {
    exists i :: 0 <= i < |es| && StartsAt(cfg, es, i, id)
  }

  predicate StartsAt(cfg: Config, es: seq<Event>, i: nat, id: string)
    requires i < |es|
  {
    && es[i].For? && es[i].id == id && es[i].m.StartWf? && !es[i].m.fault.Before?
    && NegOf(WorldRun(cfg, NewWorld(), es[..i]), id).RowMade?
  }

  lemma StartSnoc(cfg: Config, es: seq<Event>, id: string)
    requires es != []
    ensures var k := |es| - 1;
            StartTookEffect(cfg, es, id) <==> StartTookEffect(cfg, es[..k], id) || StartsAt(cfg, es, k, id)
  {
    var k := |es| - 1;
    forall i: nat | i < k
      ensures StartsAt(cfg, es[..k], i, id) <==> StartsAt(cfg, es, i, id)
    {
      assert es[..k][..i] == es[..i];
    }
  }

  lemma NewWorkflow(cfg: Config, w: World, e: Event, id: string)
    ensures WorkflowId(id) in WorldStep(cfg, w, e).wfs <==>
              || WorkflowId(id) in w.wfs
              || (e.For? && e.id == id && e.m.StartWf? && !e.m.fault.Before? && NegOf(w, id).RowMade?)
  {
    if e.For? {
      WorkflowIdInjective(e.id, id);
      if e.m.Call? || e.m.LateCall? { CallMakesNoWorkflow(cfg, w, e.id, e.m); }
    }
  }

  lemma CallMakesNoWorkflow(cfg: Config, w: World, id: string, m: Move)
    ensures SharedCall(cfg, w, id, m).wfs.Keys == w.wfs.Keys
  {
  }

  lemma {:induction false} WorkflowIffStarted(cfg: Config, es: seq<Event>, id: string)
    ensures WorkflowId(id) in WorldRun(cfg, NewWorld(), es).wfs <==> StartTookEffect(cfg, es, id)
    decreases |es|
  {
    if es != [] {
      var k := |es| - 1;
      WorkflowIffStarted(cfg, es[..k], id);
      NewWorkflow(cfg, WorldRun(cfg, NewWorld(), es[..k]), es[k], id);
      StartSnoc(cfg, es, id);
    }
  }

  /** Whenever the engine does not find an upload's workflow: the workflow has returned if and only if
      a start of it had taken effect. */
  lemma NotFoundMeansFinishedIff(cfg: Config, es: seq<Event>, id: string)
    requires Good(cfg) && Sane(es) && SlashFree(id)
    requires Pipeline.SignalReply(WorldRun(cfg, NewWorld(), es).wfs, id, NoFault) == Failure(NotFound)
    ensures var wf := Find(WorldRun(cfg, NewWorld(), es).wfs, WorkflowId(id));
            (wf.Some? && wf.value.code.Closed?) <==> StartTookEffect(cfg, es, id)
  {
    WorkflowIffStarted(cfg, es, id);
    UploadsAreIndependent(cfg, es, id);
    RunSafe(cfg, Begin(), MovesOf(es, id));
    var wf := Find(WorldRun(cfg, NewWorld(), es).wfs, WorkflowId(id));
    if wf.Some? {
      EndedMeansClosed(|cfg.specs|, wf.value);
    }
  }

  // ---- A row that nothing ever moves ----

  /** Negotiate has given up before any workflow was started: nothing ever happens to the row. */
  lemma {:induction false} OrphanStays(cfg: Config, s: Upload, ms: seq<Move>)
    requires s.neg.GaveUp? && s.wf.None?
    ensures var t := Run(cfg, s, ms); t.neg.GaveUp? && t.wf.None? && t.env.row == s.env.row
    decreases |ms|
  {
    if ms != [] {
      OrphanStays(cfg, s, ms[..|ms| - 1]);
    }
  }

  /** No event concerns this id yet. */
  predicate Unmentioned(es: seq<Event>, id: string) {
    forall i :: 0 <= i < |es| && es[i].For? ==> es[i].id != id
  }

  lemma {:induction false} UnmentionedIsFresh(cfg: Config, es: seq<Event>, id: string)
    requires Sane(es) && SlashFree(id) && Unmentioned(es, id)
    ensures var v := View(WorldRun(cfg, NewWorld(), es), id);
            v == Begin().(now := v.now)
    decreases |es|
  {
    if es == [] {
      assert ObjsOf(map[], id) == map[];
    } else {
      var rest, e := es[..|es| - 1], es[|es| - 1];
      UnmentionedIsFresh(cfg, rest, id);
      if e.For? && !e.m.Tick? { StepProjects(cfg, WorldRun(cfg, NewWorld(), rest), e.id, e.m, id); }
    }
  }

  /** The moves of one upload, as events of the world. */
  function Lift(ms: seq<Move>, id: string): seq<Event> {
    if ms == [] then []
    else
      var m := ms[|ms| - 1];
      Lift(ms[..|ms| - 1], id) + [if m.Tick? then Clock(m.d) else For(id, m)]
  }

  lemma {:induction false} LiftMoves(ms: seq<Move>, id: string)
    requires SlashFree(id)
    ensures MovesOf(Lift(ms, id), id) == ms && Sane(Lift(ms, id))
    decreases |ms|
  {
    if ms != [] {
      var rest, m := ms[..|ms| - 1], ms[|ms| - 1];
      LiftMoves(rest, id);
      var es := Lift(ms, id);
      assert es[..|es| - 1] == Lift(rest, id);
    }
  }

  predicate PendingAfter(cfg: Config, es: seq<Event>, id: string) {
    var w := WorldRun(cfg, NewWorld(), es);
    id in w.rows && w.rows[id].status.Pending?
  }

  ghost predicate PendingForever(cfg: Config, es: seq<Event>, id: string) {
    forall later {:trigger PendingAfter(cfg, es + later, id)} :: Sane(later) ==> PendingAfter(cfg, es + later, id)
  }

  /** The upload as Negotiate leaves it. */
  lemma Negotiated(cfg: Config, pre: seq<Event>, id: string, filename: string, contentType: string, owner: string,
                   create: Fault, start: Fault, sign: Fault)
    requires Sane(pre) && SlashFree(id) && Unmentioned(pre, id) && !create.Before?
    ensures var deal := Negotiation(id, filename, contentType, owner, create, start, sign);
            var v := View(WorldRun(cfg, NewWorld(), pre + deal), id);
            && v.env.row == Some(Row(filename, contentType, Pending, owner, v.now))
            && if create.NoFault? && !start.Before? then v.wf == Some(NEW_WF) else v.wf.None? && v.neg.GaveUp?
  {
    var deal := Negotiation(id, filename, contentType, owner, create, start, sign);
    WorldRunAppend(cfg, NewWorld(), pre, deal);
    UnmentionedIsFresh(cfg, pre, id);
    NegotiationRuns(cfg, WorldRun(cfg, NewWorld(), pre), id, filename, contentType, owner, create, start, sign);
  }

  /** Of the uploads that Negotiate has made a row for, exactly those whose workflow was not started
      stay `pending` for ever, in every continuation of every run. */
  lemma PendingForeverIff(cfg: Config, pre: seq<Event>, id: string, filename: string, contentType: string,
                          owner: string, create: Fault, start: Fault, sign: Fault)
    requires Good(cfg) && Sane(pre) && SlashFree(id) && Unmentioned(pre, id) && !create.Before?
    ensures PendingForever(cfg, pre + Negotiation(id, filename, contentType, owner, create, start, sign), id)
            <==> !(create.NoFault? && !start.Before?)
  {
    var deal := Negotiation(id, filename, contentType, owner, create, start, sign);
    var es := pre + deal;
    assert Sane(deal) && Sane(es);
    Negotiated(cfg, pre, id, filename, contentType, owner, create, start, sign);
    if create.NoFault? && !start.Before? {
      var later := Rescued(cfg, es, id);
      assert !PendingAfter(cfg, es + later, id);
    } else {
      forall later | Sane(later)
        ensures PendingAfter(cfg, es + later, id)
      {
        OrphanPends(cfg, es, later, id);
      }
    }
  }

  lemma OrphanPends(cfg: Config, es: seq<Event>, later: seq<Event>, id: string)
    requires Sane(es) && Sane(later) && SlashFree(id) && PendingAfter(cfg, es, id)
    requires var v := View(WorldRun(cfg, NewWorld(), es), id); v.wf.None? && v.neg.GaveUp?
    ensures PendingAfter(cfg, es + later, id)
    ensures WorkflowId(id) !in WorldRun(cfg, NewWorld(), es + later).wfs
    ensures WorldRun(cfg, NewWorld(), es + later).rows[id] == WorldRun(cfg, NewWorld(), es).rows[id]
  {
    UploadsAreIndependent(cfg, es, id);
    UploadsAreIndependent(cfg, es + later, id);
    MovesAppend(es, later, id);
    RunAppend(cfg, Begin(), MovesOf(es, id), MovesOf(later, id));
    OrphanStays(cfg, Run(cfg, Begin(), MovesOf(es, id)), MovesOf(later, id));
  }

  /** A workflow that was started can be led out of `pending`, by the clock and the workers alone. */
  lemma Rescued(cfg: Config, es: seq<Event>, id: string) returns (later: seq<Event>)
    requires Good(cfg) && Sane(es) && SlashFree(id)
    requires View(WorldRun(cfg, NewWorld(), es), id).wf == Some(NEW_WF)
    ensures Sane(later) && !PendingAfter(cfg, es + later, id)
  {
    UploadsAreIndependent(cfg, es, id);
    var s := Run(cfg, Begin(), MovesOf(es, id));
    RunSafe(cfg, Begin(), MovesOf(es, id));
    TimerReaps(cfg, s);
    var ms :| ClockWork(ms) && ClosedEmpty(s, Run(cfg, s, ms));
    later := Lift(ms, id);
    LiftMoves(ms, id);
    UploadsAreIndependent(cfg, es + later, id);
    MovesAppend(es, later, id);
    RunAppend(cfg, Begin(), MovesOf(es, id), ms);
  }

  /** And all that time its owner is told that completing it went well. */
  lemma OrphanIsAnswered(cfg: Config, pre: seq<Event>, later: seq<Event>, id: string, filename: string,
                         contentType: string, owner: string, create: Fault, start: Fault, sign: Fault)
    requires Good(cfg) && Sane(pre) && Sane(later) && SlashFree(id) && Unmentioned(pre, id)
    requires |id| == Transport.ID_LENGTH
    requires !create.Before? && !(create.NoFault? && !start.Before?)
    ensures var w := WorldRun(cfg, NewWorld(),
                              pre + Negotiation(id, filename, contentType, owner, create, start, sign) + later);
            && Transport.StatusAnswer(w.rows, owner, id, NoFault)
               == Transport.Response(200, Some(Transport.JSON), Transport.StatusJson(id, Pending))
            && Transport.CompleteAnswer(w.rows, owner, id, NoFault, NoFault)
               == Transport.Response(200, None, Transport.Empty)
            && Pipeline.Signalled(w.wfs, id, NoFault) == w.wfs
  {
    var es := pre + Negotiation(id, filename, contentType, owner, create, start, sign);
    assert Sane(es);
    Negotiated(cfg, pre, id, filename, contentType, owner, create, start, sign);
    OrphanPends(cfg, es, later, id);
  }
}
