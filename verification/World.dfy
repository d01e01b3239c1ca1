/** Unboundedly many uploads over one shared table, one bucket and one workflow engine. A move of
    one upload acts on the shared maps under that upload's own keys; projected on one id, a run of
    the world is a run of the single-upload machine. */
module World {
  import opened Types
  import opened Keys
  import Metadata
  import opened Attempts
  import opened Workflow
  import opened Machine
  import opened SafetyTheorems

  /** The uploads table, the bucket, the open and closed workflows, and what the HTTP server and the
      clients know of each id. */
  datatype World = World(now: nat, rows: map<string, Row>, objs: map<string, Bytes>, wfs: map<string, Wf>,
                         negs: map<string, Neg>, urls: map<string, nat>)

  datatype Event = Clock(d: nat) | For(id: string, m: Move)

  function NewWorld(): World {
    World(0, map[], map[], map[], map[], map[])
  }

  function NegOf(w: World, id: string): Neg {
    if id in w.negs then w.negs[id] else Fresh
  }

  // ---- Calls on the shared state ----

  function SharedEffect(w: World, id: string, op: Op): World {
    match op
    case Update(st) => w.(rows := Metadata.WithStatus(w.rows, id, st))
    case Store(name, d) => w.(objs := w.objs[ObjectKey(id, name) := d])
    case Remove => w.(objs := w.objs - {ObjectKey(id, ORIGINAL)})
    case _ => w
  }

  function SharedAnswer(cfg: Config, w: World, id: string, op: Op): Reply {
    var orig := Find(w.objs, ObjectKey(id, ORIGINAL));
    match op
    case Sniff => if orig.Some? then Data(Prefix(orig.value, SNIFF_BYTES)) else Refused
    case Head => if orig.Some? then Size(|orig.value|) else Refused
    case Fetch => if orig.Some? then Data(orig.value) else Refused
    case Scale(d, width, height) =>
      var out := cfg.resize(d, width, height);
      if out.Some? then Data(out.value) else Refused
    case _ => Acked
  }

  /** One external call on the shared state: it may fail before its effect, after it, or not. */
  function SharedPerform(cfg: Config, w: World, id: string, op: Op, fault: Fault): (World, Reply) {
    (if fault.Before? then w else SharedEffect(w, id, op),
     if fault.NoFault? then SharedAnswer(cfg, w, id, op) else Refused)
  }

  /** An attempt run to its end on the shared state with nothing else going on. */
  function SharedFinish(cfg: Config, w: World, id: string, a: Act, att: Attempt, faults: nat -> Fault, k: nat)
    : (World, Result)
    decreases CallsLeft(att)
  {
    if att.Done? then (w, att.res)
    else
      var (w', reply) := SharedPerform(cfg, w, id, Next(cfg, a, att), faults(k));
      SharedFinish(cfg, w', id, a, Resume(cfg, att, reply), faults, k + 1)
  }

  function PutRow(w: World, id: string, row: Row): World {
    w.(rows := w.rows[id := row])
  }

  function PutNeg(w: World, id: string, neg: Neg): World {
    w.(negs := w.negs[id := neg])
  }

  function PutUrl(w: World, id: string, signed: nat): World {
    w.(urls := w.urls[id := signed])
  }

  function PutWf(w: World, id: string, wf: Wf): World {
    w.(wfs := w.wfs[WorkflowId(id) := wf])
  }

  function SharedCall(cfg: Config, w: World, id: string, m: Move): World {
    var wf := Find(w.wfs, WorkflowId(id));
    if wf.None? || CallOf(cfg, wf.value, m).None? then w
    else
      var (w', reply) := SharedPerform(cfg, w, id, CallOf(cfg, wf.value, m).value, FaultOf(m));
      PutWf(w', id, Deliver(cfg, wf.value, m, reply))
  }

  // ---- Steps of the world ----

  function IdStep(cfg: Config, w: World, id: string, m: Move): World {
    match m
    case Tick(_) => w
    case CreateRow(filename, contentType, owner, fault) =>
      if !NegOf(w, id).Fresh? then w
      else PutNeg(if fault.Before? then w else PutRow(w, id, Row(filename, contentType, Pending, owner, w.now)),
                  id, if fault.NoFault? then RowMade else GaveUp)
    case StartWf(fault) =>
      if !NegOf(w, id).RowMade? then w
      else PutNeg(if fault.Before? then w else PutWf(w, id, NEW_WF), id, if fault.NoFault? then Started else GaveUp)
    case Sign(fault) =>
      if !NegOf(w, id).Started? then w
      else PutNeg(if fault.NoFault? then PutUrl(w, id, w.now) else w, id, if fault.NoFault? then Issued else GaveUp)
    case ClientPut(data) =>
      if id in w.urls && w.now < w.urls[id] + PRESIGN_TTL
      then w.(objs := w.objs[ObjectKey(id, ORIGINAL) := data]) else w
    case Call(_, _) => SharedCall(cfg, w, id, m)
    case LateCall(_, _) => SharedCall(cfg, w, id, m)
    case _ =>
      var wf := Find(w.wfs, WorkflowId(id));
      if wf.None? then w
      else PutWf(w, id, WfStep(|cfg.specs|, wf.value, w.now, m))
  }

  function WorldStep(cfg: Config, w: World, e: Event): World {
    match e
    case Clock(d) => w.(now := w.now + d)
    case For(id, m) => IdStep(cfg, w, id, m)
  }

  function WorldRun(cfg: Config, w: World, es: seq<Event>): World {
    if es == [] then w else WorldStep(cfg, WorldRun(cfg, w, es[..|es| - 1]), es[|es| - 1])
  }

  predicate Sane(es: seq<Event>) {
    forall i :: 0 <= i < |es| && es[i].For? ==> SlashFree(es[i].id)
  }

  // ---- The projection on one id ----

  function View(w: World, id: string): Upload {
    Upload(w.now, Env(Find(w.rows, id), ObjsOf(w.objs, id)), NegOf(w, id), Find(w.urls, id),
           Find(w.wfs, WorkflowId(id)))
  }

  /** The moves of one id, and the clock. */
  function MovesOf(es: seq<Event>, id: string): seq<Move> {
    if es == [] then []
    else
      var rest := MovesOf(es[..|es| - 1], id);
      match es[|es| - 1]
      case Clock(d) => rest + [Tick(d)]
      case For(other, m) => if other == id && !m.Tick? then rest + [m] else rest
  }

  // ---- One step ----

  /** A call changes the table or the bucket for its own upload as the single-upload machine says,
      and for no other. */
  lemma EffectProjects(w: World, id: string, op: Op, other: string)
    requires SlashFree(id) && SlashFree(other)
    ensures View(SharedEffect(w, id, op), other)
            == if other == id then View(w, id).(env := Effect(View(w, id).env, op)) else View(w, other)
  {
    match op
    case Store(name, d) => StoreUnder(w.objs, id, name, d, other);
    case Remove => RemoveUnder(w.objs, id, ORIGINAL, other);
    case _ =>
  }

  lemma AnswerProjects(cfg: Config, w: World, id: string, op: Op)
    ensures SharedAnswer(cfg, w, id, op) == Answer(cfg, View(w, id).env, op)
  {
    FindUnder(w.objs, id, ORIGINAL);
    AnswerFinds(cfg, View(w, id).env, op);
  }

  /** All that an answer depends on is the original. */
  lemma AnswerFinds(cfg: Config, e: Env, op: Op)
    ensures var orig := Find(e.objs, ORIGINAL);
            Answer(cfg, e, op) ==
            match op
            case Sniff => if orig.Some? then Data(Prefix(orig.value, SNIFF_BYTES)) else Refused
            case Head => if orig.Some? then Size(|orig.value|) else Refused
            case Fetch => if orig.Some? then Data(orig.value) else Refused
            case _ => Answer(cfg, e, op)
  {
  }

  lemma PerformProjects(cfg: Config, w: World, id: string, op: Op, fault: Fault, other: string)
    requires SlashFree(id) && SlashFree(other)
    ensures var (w', reply) := SharedPerform(cfg, w, id, op, fault);
            var (e', reply') := Perform(cfg, View(w, id).env, op, fault);
            reply == reply' && View(w', other) == if other == id then View(w, id).(env := e') else View(w, other)
  {
    EffectProjects(w, id, op, other);
    AnswerProjects(cfg, w, id, op);
  }

  lemma FinishUnfolds(cfg: Config, w: World, id: string, a: Act, att: Attempt, faults: nat -> Fault, k: nat)
    requires !att.Done?
    ensures var (w', reply) := SharedPerform(cfg, w, id, Next(cfg, a, att), faults(k));
            SharedFinish(cfg, w, id, a, att, faults, k)
            == SharedFinish(cfg, w', id, a, Resume(cfg, att, reply), faults, k + 1)
  {
  }

  lemma EnvFinishUnfolds(cfg: Config, e: Env, a: Act, att: Attempt, faults: nat -> Fault, k: nat)
    requires !att.Done?
    ensures var (e', reply) := Perform(cfg, e, Next(cfg, a, att), faults(k));
            Finish(cfg, a, att, e, faults, k) == Finish(cfg, a, Resume(cfg, att, reply), e', faults, k + 1)
  {
  }

  lemma {:induction false} FinishProjectsFrom(cfg: Config, w: World, id: string, e: Env, a: Act, att: Attempt,
                                              faults: nat -> Fault, k: nat, other: string,
                                              done: (World, Result), own: (Env, Result))
    requires SlashFree(id) && SlashFree(other) && View(w, id).env == e
    requires SharedFinish(cfg, w, id, a, att, faults, k) == done && Finish(cfg, a, att, e, faults, k) == own
    ensures done.1 == own.1
    ensures View(done.0, other) == if other == id then View(w, id).(env := own.0) else View(w, other)
    decreases CallsLeft(att)
  {
    if !att.Done? {
      var op := Next(cfg, a, att);
      var (w', reply) := SharedPerform(cfg, w, id, op, faults(k));
      PerformProjects(cfg, w, id, op, faults(k), other);
      PerformProjects(cfg, w, id, op, faults(k), id);
      FinishUnfolds(cfg, w, id, a, att, faults, k);
      EnvFinishUnfolds(cfg, e, a, att, faults, k);
      ResumeDrops(cfg, att, reply);
      FinishProjectsFrom(cfg, w', id, Perform(cfg, e, op, faults(k)).0, a, Resume(cfg, att, reply), faults, k + 1,
                         other, done, own);
    }
  }

  /** An attempt run to its end does to its own upload what `Finish` says, with the same result, and
      nothing to any other. */
  lemma FinishProjects(cfg: Config, w: World, id: string, a: Act, faults: nat -> Fault, other: string)
    requires SlashFree(id) && SlashFree(other)
    ensures var (w', r) := SharedFinish(cfg, w, id, a, Start(a), faults, 0);
            var (e, r') := Finish(cfg, a, Start(a), View(w, id).env, faults, 0);
            r == r' && View(w', other) == if other == id then View(w, id).(env := e) else View(w, other)
  {
    FinishProjectsFrom(cfg, w, id, View(w, id).env, a, Start(a), faults, 0, other,
                       SharedFinish(cfg, w, id, a, Start(a), faults, 0),
                       Finish(cfg, a, Start(a), View(w, id).env, faults, 0));
  }

  lemma PutWfProjects(w: World, id: string, wf: Wf, other: string)
    ensures View(PutWf(w, id, wf), other)
            == if other == id then View(w, id).(wf := Some(wf)) else View(w, other)
  {
    WorkflowIdInjective(other, id);
  }

  lemma CallProjects(cfg: Config, w: World, id: string, m: Move, other: string)
    requires SlashFree(id) && SlashFree(other)
    ensures View(SharedCall(cfg, w, id, m), other)
            == if other == id then CallStep(cfg, View(w, id), m) else View(w, other)
  {
    var wf := Find(w.wfs, WorkflowId(id));
    if wf.Some? && CallOf(cfg, wf.value, m).Some? {
      var op := CallOf(cfg, wf.value, m).value;
      var (w', reply) := SharedPerform(cfg, w, id, op, FaultOf(m));
      PerformProjects(cfg, w, id, op, FaultOf(m), other);
      PutWfProjects(w', id, Deliver(cfg, wf.value, m, reply), other);
    }
  }

  predicate ServerMove(m: Move) {
    m.CreateRow? || m.StartWf? || m.Sign? || m.ClientPut?
  }

  lemma PutRowProjects(w: World, id: string, row: Row, other: string)
    ensures View(PutRow(w, id, row), other)
            == if other == id then View(w, id).(env := View(w, id).env.(row := Some(row))) else View(w, other)
  {
  }

  lemma PutNegProjects(w: World, id: string, neg: Neg, other: string)
    ensures View(PutNeg(w, id, neg), other) == if other == id then View(w, id).(neg := neg) else View(w, other)
  {
  }

  lemma PutUrlProjects(w: World, id: string, signed: nat, other: string)
    ensures View(PutUrl(w, id, signed), other)
            == if other == id then View(w, id).(url := Some(signed)) else View(w, other)
  {
  }

  lemma ServerMoveProjects(cfg: Config, w: World, id: string, m: Move, other: string)
    requires SlashFree(id) && SlashFree(other) && ServerMove(m)
    ensures View(IdStep(cfg, w, id, m), other)
            == if other == id then Step(cfg, View(w, id), m) else View(w, other)
  {
    if m.CreateRow? {
      CreateProjects(cfg, w, id, m, other);
    } else if m.StartWf? {
      StartProjects(cfg, w, id, m, other);
    } else if m.Sign? {
      SignProjects(cfg, w, id, m, other);
    } else {
      StoreUnder(w.objs, id, ORIGINAL, m.data, other);
    }
  }

  lemma CreateProjects(cfg: Config, w: World, id: string, m: Move, other: string)
    requires m.CreateRow?
    ensures View(IdStep(cfg, w, id, m), other)
            == if other == id then Step(cfg, View(w, id), m) else View(w, other)
  {
    var row := Row(m.filename, m.contentType, Pending, m.owner, w.now);
    var neg := if m.fault.NoFault? then RowMade else GaveUp;
    PutRowProjects(w, id, row, other);
    PutNegProjects(if m.fault.Before? then w else PutRow(w, id, row), id, neg, other);
  }

  /** The start of a workflow, on the world and on the one upload, as plain updates. */
  lemma StartIs(cfg: Config, w: World, s: Upload, id: string, fault: Fault)
    ensures var neg := if fault.NoFault? then Started else GaveUp;
            && IdStep(cfg, w, id, StartWf(fault))
               == (if !NegOf(w, id).RowMade? then w
                   else PutNeg(if fault.Before? then w else PutWf(w, id, NEW_WF), id, neg))
            && Step(cfg, s, StartWf(fault))
               == (if !s.neg.RowMade? then s
                   else (if fault.Before? then s else s.(wf := Some(NEW_WF))).(neg := neg))
  {
  }

  lemma StartProjects(cfg: Config, w: World, id: string, m: Move, other: string)
    requires m.StartWf?
    ensures View(IdStep(cfg, w, id, m), other)
            == if other == id then Step(cfg, View(w, id), m) else View(w, other)
  {
    StartIs(cfg, w, View(w, id), id, m.fault);
    PutWfProjects(w, id, NEW_WF, other);
    PutNegProjects(if m.fault.Before? then w else PutWf(w, id, NEW_WF), id,
                   if m.fault.NoFault? then Started else GaveUp, other);
  }

  /** Signing a URL, likewise. */
  lemma SignIs(cfg: Config, w: World, s: Upload, id: string, fault: Fault)
    ensures var neg := if fault.NoFault? then Issued else GaveUp;
            && IdStep(cfg, w, id, Sign(fault))
               == (if !NegOf(w, id).Started? then w
                   else PutNeg(if fault.NoFault? then PutUrl(w, id, w.now) else w, id, neg))
            && Step(cfg, s, Sign(fault))
               == (if !s.neg.Started? then s
                   else (if fault.NoFault? then s.(url := Some(s.now)) else s).(neg := neg))
  {
  }

  lemma SignProjects(cfg: Config, w: World, id: string, m: Move, other: string)
    requires m.Sign?
    ensures View(IdStep(cfg, w, id, m), other)
            == if other == id then Step(cfg, View(w, id), m) else View(w, other)
  {
    SignIs(cfg, w, View(w, id), id, m.fault);
    PutUrlProjects(w, id, w.now, other);
    PutNegProjects(if m.fault.NoFault? then PutUrl(w, id, w.now) else w, id,
                   if m.fault.NoFault? then Issued else GaveUp, other);
  }

  lemma WorkflowMoveProjects(cfg: Config, w: World, id: string, m: Move, other: string)
    requires !ServerMove(m) && !m.Tick? && !m.Call? && !m.LateCall?
    ensures View(IdStep(cfg, w, id, m), other)
            == if other == id then Step(cfg, View(w, id), m) else View(w, other)
  {
    var wf := Find(w.wfs, WorkflowId(id));
    if wf.Some? { PutWfProjects(w, id, WfStep(|cfg.specs|, wf.value, w.now, m), other); }
  }

  /** One move of one upload: a step of that upload, and nothing at all to any other. */
  lemma StepProjects(cfg: Config, w: World, id: string, m: Move, other: string)
    requires SlashFree(id) && SlashFree(other) && !m.Tick?
    ensures View(IdStep(cfg, w, id, m), other)
            == if other == id then Step(cfg, View(w, id), m) else View(w, other)
  {
    if ServerMove(m) {
      ServerMoveProjects(cfg, w, id, m, other);
    } else if m.Call? || m.LateCall? {
      CallProjects(cfg, w, id, m, other);
    } else {
      WorkflowMoveProjects(cfg, w, id, m, other);
    }
  }

  // ---- Whole runs ----

  /** Any interleaved run of any number of uploads, projected on one id, is a run of the
      single-upload machine: the moves made for that id and the clock, in order. */
  lemma {:induction false} UploadsAreIndependent(cfg: Config, es: seq<Event>, id: string)
    requires Sane(es) && SlashFree(id)
    ensures View(WorldRun(cfg, NewWorld(), es), id) == Run(cfg, Begin(), MovesOf(es, id))
    decreases |es|
  {
    if es == [] {
      assert ObjsOf(map[], id) == map[];
    } else {
      var rest, e := es[..|es| - 1], es[|es| - 1];
      UploadsAreIndependent(cfg, rest, id);
      var w := WorldRun(cfg, NewWorld(), rest);
      match e
      case Clock(d) => RunSnoc(cfg, Begin(), MovesOf(rest, id), Tick(d));
      case For(other, m) =>
        if !m.Tick? { StepProjects(cfg, w, other, m, id); }
        RunSnoc(cfg, Begin(), MovesOf(rest, id), m);
    }
  }

  lemma {:induction false} WorldRunAppend(cfg: Config, w: World, es: seq<Event>, later: seq<Event>)
    ensures WorldRun(cfg, w, es + later) == WorldRun(cfg, WorldRun(cfg, w, es), later)
    decreases |later|
  {
    if later == [] {
      assert es + later == es;
    } else {
      var all := es + later;
      assert all[..|all| - 1] == es + later[..|later| - 1];
      WorldRunAppend(cfg, w, es, later[..|later| - 1]);
    }
  }

  lemma {:induction false} MovesAppend(es: seq<Event>, later: seq<Event>, id: string)
    ensures MovesOf(es + later, id) == MovesOf(es, id) + MovesOf(later, id)
    decreases |later|
  {
    if later == [] {
      assert es + later == es;
    } else {
      var all := es + later;
      assert all[..|all| - 1] == es + later[..|later| - 1];
      MovesAppend(es, later[..|later| - 1], id);
    }
  }

  /** What `complete` promises, in the shared bucket: whatever else goes on, then and ever after,
      the keys of the original and of every size are there. */
  lemma CompleteLastsInTheWorld(cfg: Config, es: seq<Event>, later: seq<Event>, id: string, name: string)
    requires Good(cfg) && Sane(es) && Sane(later) && SlashFree(id)
    requires var w := WorldRun(cfg, NewWorld(), es); id in w.rows && w.rows[id].status.Complete?
    requires name == ORIGINAL || exists i :: 0 <= i < |cfg.specs| && cfg.specs[i].name == name
    ensures ObjectKey(id, name) in WorldRun(cfg, NewWorld(), es).objs
    ensures ObjectKey(id, name) in WorldRun(cfg, NewWorld(), es + later).objs
  {
    UploadsAreIndependent(cfg, es, id);
    UploadsAreIndependent(cfg, es + later, id);
    MovesAppend(es, later, id);
    CompleteLasts(cfg, MovesOf(es, id), MovesOf(later, id));
    ObjsMeaning(WorldRun(cfg, NewWorld(), es).objs, id);
    ObjsMeaning(WorldRun(cfg, NewWorld(), es + later).objs, id);
  }

  /** The moves of other uploads can be left out of a run without `id` noticing. */
  lemma OthersDoNotMatter(cfg: Config, es: seq<Event>, es': seq<Event>, id: string)
    requires Sane(es) && Sane(es') && SlashFree(id) && MovesOf(es, id) == MovesOf(es', id)
    ensures View(WorldRun(cfg, NewWorld(), es), id) == View(WorldRun(cfg, NewWorld(), es'), id)
  {
    UploadsAreIndependent(cfg, es, id);
    UploadsAreIndependent(cfg, es', id);
  }

  // ---- Every key in the bucket has a row ----

  ghost predicate Owned(key: string) {
    exists id, name :: SlashFree(id) && key == ObjectKey(id, name)
  }

  lemma {:induction false} KeysAreOwned(cfg: Config, es: seq<Event>, key: string)
    requires Sane(es) && key in WorldRun(cfg, NewWorld(), es).objs
    ensures Owned(key)
    decreases |es|
  {
    if es != [] {
      var rest, e := es[..|es| - 1], es[|es| - 1];
      if key in WorldRun(cfg, NewWorld(), rest).objs {
        KeysAreOwned(cfg, rest, key);
      } else {
        assert e.For? && SlashFree(e.id);
        NewKey(cfg, WorldRun(cfg, NewWorld(), rest), e.id, e.m, key);
      }
    }
  }

  lemma NewKey(cfg: Config, w: World, id: string, m: Move, key: string)
    requires key in IdStep(cfg, w, id, m).objs && key !in w.objs
    ensures exists name :: key == ObjectKey(id, name)
  {
    if m.ClientPut? {
      assert key == ObjectKey(id, ORIGINAL);
    } else {
      var op := CallOf(cfg, w.wfs[WorkflowId(id)], m).value;
      assert op.Store? && key == ObjectKey(id, op.name);
    }
  }

  /** Every key in the shared bucket is the original or a variant of exactly one upload, which has
      a row and a workflow. */
  lemma EveryKeyHasItsRow(cfg: Config, es: seq<Event>, key: string) returns (id: string, name: string)
    requires Good(cfg) && Sane(es) && key in WorldRun(cfg, NewWorld(), es).objs
    ensures SlashFree(id) && key == ObjectKey(id, name)
    ensures forall id', name' :: SlashFree(id') && key == ObjectKey(id', name') ==> id' == id && name' == name
    ensures var w := WorldRun(cfg, NewWorld(), es); id in w.rows && WorkflowId(id) in w.wfs
    ensures name == ORIGINAL || exists i :: 0 <= i < |cfg.specs| && cfg.specs[i].name == name
  {
    KeysAreOwned(cfg, es, key);
    id, name :| SlashFree(id) && key == ObjectKey(id, name);
    forall id', name' | SlashFree(id') && key == ObjectKey(id', name')
      ensures id' == id && name' == name
    {
      ObjectKeyInjective(id, name, id', name');
    }
    UploadsAreIndependent(cfg, es, id);
    CreationChain(cfg, MovesOf(es, id));
    ObjsMeaning(WorldRun(cfg, NewWorld(), es).objs, id);
  }
}
