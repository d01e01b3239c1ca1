/** One attempt of an activity, cut at each external call.

    An attempt is a coroutine: `Next` is the call it makes next, `Resume` is where the reply takes
    it. `Perform` is what the table, the bucket and the image service do with a call. */
module Attempts {
  import opened Types

  datatype Act = ActValidate | ActProcessing | ActResize(i: nat) | ActComplete | ActFail | ActAbandon

  datatype Why = CallFailed | BadType | TooLarge | TimedOut
  datatype Result = Ok | Err(why: Why)

  datatype Attempt =
    | VMark | VSniff | VHead | VDrop(why: Why) | VReject(why: Why)  // Validate and reject
    | RFetch | RScale(data: Bytes) | RStore(data: Bytes)            // Resize
    | ADrop | AMark                                                 // Abandon
    | Mark                                                          // Processing, Complete, Fail
    | Done(res: Result)

  datatype Op =
    | Update(st: Status)
    | Sniff | Head | Fetch
    | Scale(data: Bytes, w: int, h: int)
    | Store(name: string, data: Bytes)
    | Remove

  datatype Reply = Refused | Acked | Data(b: Bytes) | Size(n: nat)

  /** What one upload sees of the shared state: its row and its objects, keyed by name. */
  datatype Env = Env(row: Option<Row>, objs: map<string, Bytes>)

  function MaxAttempts(a: Act): nat {
    if a.ActValidate? then 1 else 3
  }

  predicate Retryable(w: Why) {
    w.CallFailed? || w.TimedOut?
  }

  function SpecOf(cfg: Config, a: Act): Spec {
    if a.ActResize? && a.i < |cfg.specs| then cfg.specs[a.i] else Spec("", 0, 0)
  }

  /** The status a one-call activity writes. */
  function Target(a: Act): Status {
    match a
    case ActProcessing => Processing
    case ActComplete => Complete
    case _ => Failed
  }

  function Start(a: Act): Attempt {
    match a
    case ActValidate => VMark
    case ActResize(_) => RFetch
    case ActAbandon => ADrop
    case _ => Mark
  }

  function Next(cfg: Config, a: Act, att: Attempt): Op
    requires !att.Done?
  {
    match att
    case VMark => Update(Validating)
    case VSniff => Sniff
    case VHead => Head
    case VDrop(_) => Remove
    case VReject(_) => Update(Rejected)
    case RFetch => Fetch
    case RScale(d) => Scale(d, SpecOf(cfg, a).w, SpecOf(cfg, a).h)
    case RStore(d) => Store(SpecOf(cfg, a).name, d)
    case ADrop => Remove
    case AMark => Update(Abandoned)
    case Mark => Update(Target(a))
  }

  /** Where a reply takes the attempt. The replies of `reject`'s two calls and of Abandon's
      delete are ignored, as in the source. */
  function Resume(cfg: Config, att: Attempt, reply: Reply): Attempt
    requires !att.Done?
  {
    match att
    case VDrop(w) => VReject(w)
    case VReject(w) => Done(Err(w))
    case ADrop => AMark
    case VMark => if reply.Acked? then VSniff else Done(Err(CallFailed))
    case VSniff =>
      if !reply.Data? then Done(Err(CallFailed))
      else if cfg.sniffs(reply.b) then VHead else VDrop(BadType)
    case VHead =>
      if !reply.Size? then Done(Err(CallFailed))
      else if reply.n > MAX_IMAGE_BYTES then VDrop(TooLarge) else Done(Ok)
    case RFetch => if reply.Data? then RScale(reply.b) else Done(Err(CallFailed))
    case RScale(_) => if reply.Data? then RStore(reply.b) else Done(Err(CallFailed))
    case _ => if reply.Acked? then Done(Ok) else Done(Err(CallFailed))
  }

  function Effect(e: Env, op: Op): Env {
    match op
    case Update(st) =>
      if e.row.Some? then e.(row := Some(e.row.value.(status := st))) else e
    case Store(name, d) => e.(objs := e.objs[name := d])
    case Remove => e.(objs := e.objs - {ORIGINAL})
    case _ => e
  }

  function Answer(cfg: Config, e: Env, op: Op): Reply {
    match op
    case Sniff => if ORIGINAL in e.objs then Data(Prefix(e.objs[ORIGINAL], SNIFF_BYTES)) else Refused
    case Head => if ORIGINAL in e.objs then Size(|e.objs[ORIGINAL]|) else Refused
    case Fetch => if ORIGINAL in e.objs then Data(e.objs[ORIGINAL]) else Refused
    case Scale(d, w, h) =>
      var out := cfg.resize(d, w, h);
      if out.Some? then Data(out.value) else Refused
    case _ => Acked
  }

  /** One external call: it may fail before its effect, after it, or not at all. */
  function Perform(cfg: Config, e: Env, op: Op, fault: Fault): (Env, Reply) {
    (if fault.Before? then e else Effect(e, op),
     if fault.NoFault? then Answer(cfg, e, op) else Refused)
  }

  /** The attempts an activity can be in. */
  ghost predicate Fits(a: Act, att: Attempt) {
    match att
    case VMark | VSniff | VHead => a.ActValidate?
    case VDrop(w) => a.ActValidate? && !Retryable(w)
    case VReject(w) => a.ActValidate? && !Retryable(w)
    case RFetch => a.ActResize?
    case RScale(_) => a.ActResize?
    case RStore(_) => a.ActResize?
    case ADrop | AMark => a.ActAbandon?
    case Mark => a.ActProcessing? || a.ActComplete? || a.ActFail?
    case Done(r) => r.Err? && !Retryable(r.why) ==> a.ActValidate?
  }

  /** Calls an attempt can still make. */
  function CallsLeft(att: Attempt): (n: nat)
    ensures n <= 5
  {
    match att
    case VMark => 5 case VSniff => 4 case VHead => 3 case VDrop(_) => 2 case VReject(_) => 1
    case RFetch => 3 case RScale(_) => 2 case RStore(_) => 1
    case ADrop => 2 case AMark => 1
    case Mark => 1
    case Done(_) => 0
  }

  /** Every reply brings an attempt nearer its end. */
  lemma ResumeDrops(cfg: Config, att: Attempt, reply: Reply)
    requires !att.Done?
    ensures CallsLeft(Resume(cfg, att, reply)) < CallsLeft(att)
  {
  }

  /** An attempt run to its end with nothing else going on; `faults(k)` is what goes wrong with the
      `k`-th external call. */
  function Finish(cfg: Config, a: Act, att: Attempt, e: Env, faults: nat -> Fault, k: nat): (Env, Result)
    decreases CallsLeft(att)
  {
    if att.Done? then (e, att.res)
    else
      var (e', reply) := Perform(cfg, e, Next(cfg, a, att), faults(k));
      Finish(cfg, a, Resume(cfg, att, reply), e', faults, k + 1)
  }

  function Marked(e: Env, st: Status): Env {
    Effect(e, Update(st))
  }

  /** Validate without faults: a missing object is an error that leaves `validating`; an object that
      passes both checks is left alone; any other is deleted and the upload is `rejected`, with a
      permanent error. */
  lemma ValidateVerdict(cfg: Config, e: Env, faults: nat -> Fault)
    requires forall k :: faults(k) == NoFault
    ensures Finish(cfg, ActValidate, VMark, e, faults, 0) ==
            if ORIGINAL !in e.objs then (Marked(e, Validating), Err(CallFailed))
            else if Passes(cfg, e.objs[ORIGINAL]) then (Marked(e, Validating), Ok)
            else (Marked(Marked(e, Validating), Rejected).(objs := e.objs - {ORIGINAL}),
                  Err(if cfg.sniffs(Prefix(e.objs[ORIGINAL], SNIFF_BYTES)) then TooLarge else BadType))
  {
  }

  /** `reject` returns its permanent error whatever happens to its delete and its status write. */
  lemma RejectVerdict(cfg: Config, e: Env, why: Why, faults: nat -> Fault, k: nat)
    ensures Finish(cfg, ActValidate, VDrop(why), e, faults, k).1 == Err(why)
    ensures Finish(cfg, ActValidate, VDrop(why), e, faults, k).0 ==
            Perform(cfg, Perform(cfg, e, Remove, faults(k)).0, Update(Rejected), faults(k + 1)).0
  {
  }

  /** When a run of Validate meets the claim that a failed validation has left the upload `rejected`
      and its object deleted: every call up to the verdict was answered, the object was there, and
      if it fails a check neither the delete nor the status write was lost before its effect. */
  predicate RejectionSticks(cfg: Config, e: Env, faults: nat -> Fault) {
    && faults(0).NoFault? && faults(1).NoFault? && ORIGINAL in e.objs
    && var b := e.objs[ORIGINAL];
       if !cfg.sniffs(Prefix(b, SNIFF_BYTES)) then !faults(2).Before? && !faults(3).Before?
       else faults(2).NoFault? && (|b| > MAX_IMAGE_BYTES ==> !faults(3).Before? && !faults(4).Before?)
  }

  /** A failed Validate leaves the upload `rejected` and its object deleted exactly when
      `RejectionSticks`; in particular not when the object is missing or a call fails. */
  lemma FailedMeansRejectedIff(cfg: Config, e: Env, faults: nat -> Fault)
    requires e.row.Some? && e.row.value.status.Pending?
    ensures var (e', r) := Finish(cfg, ActValidate, VMark, e, faults, 0);
            (r.Err? ==> e'.row.Some? && e'.row.value.status.Rejected? && ORIGINAL !in e'.objs)
            <==> RejectionSticks(cfg, e, faults)
  {
  }

  /** What one attempt of a resize does: it succeeds exactly when nothing fails, the original is
      there and the image service accepts it; and all it can change is its own variant. */
  lemma ResizeVerdict(cfg: Config, e: Env, a: Act, faults: nat -> Fault)
    requires a.ActResize? && a.i < |cfg.specs|
    ensures var (e', r) := Finish(cfg, a, RFetch, e, faults, 0);
            var sp := cfg.specs[a.i];
            var ready := ORIGINAL in e.objs && faults(0).NoFault? && faults(1).NoFault?
                         && cfg.resize(e.objs[ORIGINAL], sp.w, sp.h).Some?;
            && r == (if ready && faults(2).NoFault? then Ok else Err(CallFailed))
            && e' == if ready && !faults(2).Before?
                     then e.(objs := e.objs[sp.name := cfg.resize(e.objs[ORIGINAL], sp.w, sp.h).value]) else e
  {
    var sp := cfg.specs[a.i];
    if ORIGINAL in e.objs && faults(0).NoFault? {
      var b := e.objs[ORIGINAL];
      assert Finish(cfg, a, RFetch, e, faults, 0) == Finish(cfg, a, RScale(b), e, faults, 1);
      if faults(1).NoFault? && cfg.resize(b, sp.w, sp.h).Some? {
        var d := cfg.resize(b, sp.w, sp.h).value;
        assert Finish(cfg, a, RScale(b), e, faults, 1) == Finish(cfg, a, RStore(d), e, faults, 2);
        assert Finish(cfg, a, RStore(d), e, faults, 2) == (Perform(cfg, e, Store(sp.name, d), faults(2)).0,
                                                           if faults(2).NoFault? then Ok else Err(CallFailed));
      } else {
        assert Finish(cfg, a, RScale(b), e, faults, 1) == (e, Err(CallFailed));
      }
    }
  }

  /** Resize is idempotent: a successful attempt leaves the same state whatever an earlier attempt
      did and however it failed. */
  lemma ResizeRetries(cfg: Config, e: Env, a: Act, earlier: nat -> Fault, faults: nat -> Fault)
    requires Good(cfg) && a.ActResize? && a.i < |cfg.specs|
    ensures var e1 := Finish(cfg, a, RFetch, e, earlier, 0).0;
            var (e2, r) := Finish(cfg, a, RFetch, e1, faults, 0);
            && r == Finish(cfg, a, RFetch, e, faults, 0).1
            && (r.Ok? ==> e2 == Finish(cfg, a, RFetch, e, faults, 0).0)
  {
    var e1 := Finish(cfg, a, RFetch, e, earlier, 0).0;
    ResizeVerdict(cfg, e, a, earlier);
    ResizeVerdict(cfg, e, a, faults);
    ResizeVerdict(cfg, e1, a, faults);
    var sp := cfg.specs[a.i];
    assert sp.name != ORIGINAL;
    assert ORIGINAL in e1.objs <==> ORIGINAL in e.objs;
    assert ORIGINAL in e.objs ==> e1.objs[ORIGINAL] == e.objs[ORIGINAL];
  }
}
