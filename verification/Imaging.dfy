/** The image service's counting semaphore: a buffered channel filled on entry and drained by a
    deferred call, with a select against cancellation. */
module Imaging {
  import opened Types
  import Attempts

  // ---- The semaphore ----

  datatype Admission = Entered | GaveUp | Blocked

  predicate Free(limit: Option<nat>, held: nat) {
    limit.Some? ==> held < limit.value
  }

  /** The select. A nil channel (`limit` is None) means no limit and no select at all; when a slot
      is free and the context is done, either case may be taken: `slot` is the choice made. */
  function Admit(limit: Option<nat>, held: nat, done: bool, slot: bool): (a: Admission)
    ensures a.Entered? ==> Free(limit, held)
    ensures a.GaveUp? ==> done && limit.Some?
    ensures a.Blocked? <==> !Free(limit, held) && !done
  {
    if limit.None? then Entered
    else if held < limit.value && (slot || !done) then Entered
    else if done then GaveUp
    else Blocked
  }

  datatype Answer = Resized(data: Bytes) | InvalidArgument | ContextError

  function Decode(cfg: Config, data: Bytes, w: int, h: int): (a: Answer)
    ensures forall d :: a == Resized(d) <==> cfg.resize(data, w, h) == Some(d)
    ensures a == InvalidArgument <==> cfg.resize(data, w, h) == None
  {
    var out := cfg.resize(data, w, h);
    if out.Some? then Resized(out.value) else InvalidArgument
  }

  class Server {
    const limit: Option<nat>
    /** Elements in the channel. */
    var held: nat

    /** NewServer: fewer than one concurrent decode is treated as one. */
    constructor (maxConcurrent: int)
      ensures limit == Some(if maxConcurrent < 1 then 1 else maxConcurrent) && held == 0
    {
      var n: int := maxConcurrent;
      if n < 1 {
        n := 1;
      }
      limit := Some(n);
      held := 0;
    }

    /** The zero value, as the tests use it. */
    constructor Zero()
      ensures limit == None && held == 0
    {
      limit := None;
      held := 0;
    }

    predicate Valid()
      reads this
    {
      if limit.Some? then 1 <= limit.value && held <= limit.value else held == 0
    }

    /** The select of one request: what it does to the channel. */
    method Enter(done: bool, slot: bool) returns (a: Admission)
      requires Valid()
      modifies this`held
      ensures Valid() && a == Admit(limit, old(held), done, slot)
      ensures limit.None? ==> a.Entered?
      ensures limit.Some? && old(held) < limit.value ==> a == if slot || !done then Entered else GaveUp
      ensures limit.Some? && old(held) == limit.value ==> a == if done then GaveUp else Blocked
      ensures held == old(held) + if a.Entered? && limit.Some? then 1 else 0
    {
      if limit.None? {
        return Entered;
      }
      if held < limit.value && (slot || !done) {
        held := held + 1;
        return Entered;
      }
      return if done then GaveUp else Blocked;
    }

    /** The deferred receive. */
    method Leave()
      requires Valid() && (limit.Some? ==> held > 0)
      modifies this`held
      ensures Valid() && held == old(held) - if limit.Some? then 1 else 0
    {
      if limit.Some? {
        held := held - 1;
      }
    }

    /** One call from entry to return, unless it would block: the decode's answer if it got a slot,
        the context's error if not, and the channel as it was either way. */
    method Resize(cfg: Config, data: Bytes, w: int, h: int, done: bool, slot: bool) returns (r: Option<Answer>)
      requires Valid()
      modifies this`held
      ensures Valid() && held == old(held)
      ensures if limit.None? || (held < limit.value && (slot || !done))
              then r == match cfg.resize(data, w, h)
                        case Some(d) => Some(Resized(d))
                        case None => Some(InvalidArgument)
              else r == if done then Some(ContextError) else None
    {
      var a := Enter(done, slot);
      if a.Blocked? {
        return None;
      }
      if a.GaveUp? {
        return Some(ContextError);
      }
      var out := cfg.resize(data, w, h);
      r := if out.Some? then Some(Resized(out.value)) else Some(InvalidArgument);
      Leave();
    }
  }

  // ---- Any number of requests at once ----

  datatype Phase = Waiting | Decoding | Returned(answer: Answer)

  /** A request, with the slots it has taken and freed so far. */
  datatype Request = Request(data: Bytes, w: int, h: int, done: bool, phase: Phase, taken: nat, freed: nat)

  datatype Pool = Pool(limit: Option<nat>, held: nat, reqs: map<nat, Request>)

  datatype Move =
    | Arrive(id: nat, data: Bytes, w: int, h: int)
    | Cancel(id: nat)                  // the caller's context is done
    | Try(id: nat, slot: bool)         // the select is evaluated
    | Finish(id: nat)                  // the decode ends and the deferred receive runs

  function Fresh(limit: Option<nat>): Pool {
    Pool(limit, 0, map[])
  }

  function Take(p: Pool): nat {
    if p.limit.Some? then 1 else 0
  }

  function TryStep(p: Pool, id: nat, slot: bool): Pool {
    if id !in p.reqs || !p.reqs[id].phase.Waiting? then p
    else
      var q := p.reqs[id];
      match Admit(p.limit, p.held, q.done, slot)
      case Entered =>
        p.(held := p.held + Take(p), reqs := p.reqs[id := q.(phase := Decoding, taken := q.taken + Take(p))])
      case GaveUp => p.(reqs := p.reqs[id := q.(phase := Returned(ContextError))])
      case Blocked => p
  }

  function FinishStep(cfg: Config, p: Pool, id: nat): Pool {
    if id !in p.reqs || !p.reqs[id].phase.Decoding? then p
    else
      var q := p.reqs[id];
      var r := q.(phase := Returned(Decode(cfg, q.data, q.w, q.h)), freed := q.freed + Take(p));
      p.(held := if p.held >= Take(p) then p.held - Take(p) else 0, reqs := p.reqs[id := r])
  }

  function Step(cfg: Config, p: Pool, m: Move): Pool {
    match m
    case Arrive(id, data, w, h) =>
      if id in p.reqs then p else p.(reqs := p.reqs[id := Request(data, w, h, false, Waiting, 0, 0)])
    case Cancel(id) => if id in p.reqs then p.(reqs := p.reqs[id := p.reqs[id].(done := true)]) else p
    case Try(id, slot) => TryStep(p, id, slot)
    case Finish(id) => FinishStep(cfg, p, id)
  }

  function Run(cfg: Config, p: Pool, ms: seq<Move>): Pool {
    if ms == [] then p else Step(cfg, Run(cfg, p, ms[..|ms| - 1]), ms[|ms| - 1])
  }

  function Decoders(reqs: map<nat, Request>): set<nat> {
    set id | id in reqs && reqs[id].phase.Decoding?
  }

  function Waiters(reqs: map<nat, Request>): set<nat> {
    set id | id in reqs && reqs[id].phase.Waiting?
  }

  lemma PutRequest(reqs: map<nat, Request>, id: nat, q: Request)
    ensures Decoders(reqs[id := q]) == if q.phase.Decoding? then Decoders(reqs) + {id} else Decoders(reqs) - {id}
    ensures Waiters(reqs[id := q]) == if q.phase.Waiting? then Waiters(reqs) + {id} else Waiters(reqs) - {id}
  {
  }

  /** What a request's history of slots and its answer must be. */
  predicate Accounted(cfg: Config, limit: Option<nat>, q: Request) {
    match q.phase
    case Waiting => q.taken == 0 && q.freed == 0
    case Decoding => q.taken == (if limit.Some? then 1 else 0) && q.freed == 0
    case Returned(ContextError) => limit.Some? && q.taken == 0 && q.freed == 0 && q.done
    case Returned(a) =>
      q.taken == (if limit.Some? then 1 else 0) && q.freed == q.taken && a == Decode(cfg, q.data, q.w, q.h)
  }

  ghost predicate AllAccounted(cfg: Config, p: Pool) {
    forall id :: id in p.reqs ==> Accounted(cfg, p.limit, p.reqs[id])
  }

  ghost predicate SlotsFit(p: Pool) {
    && (p.limit.Some? ==> 1 <= p.limit.value && p.held <= p.limit.value && p.held == |Decoders(p.reqs)|)
    && (p.limit.None? ==> p.held == 0)
  }

  ghost predicate PoolInv(cfg: Config, p: Pool) {
    SlotsFit(p) && AllAccounted(cfg, p)
  }

  lemma TrySlots(p: Pool, id: nat, slot: bool)
    requires SlotsFit(p)
    ensures SlotsFit(TryStep(p, id, slot))
  {
    if id in p.reqs && p.reqs[id].phase.Waiting? {
      var q := p.reqs[id];
      PutRequest(p.reqs, id, q.(phase := Decoding, taken := q.taken + Take(p)));
      PutRequest(p.reqs, id, q.(phase := Returned(ContextError)));
      assert id !in Decoders(p.reqs);
    }
  }

  lemma TryKeeps(cfg: Config, p: Pool, id: nat, slot: bool)
    requires PoolInv(cfg, p)
    ensures PoolInv(cfg, TryStep(p, id, slot))
  {
    TrySlots(p, id, slot);
  }

  lemma FinishKeeps(cfg: Config, p: Pool, id: nat)
    requires PoolInv(cfg, p)
    ensures PoolInv(cfg, FinishStep(cfg, p, id))
  {
    if id in p.reqs && p.reqs[id].phase.Decoding? {
      PutRequest(p.reqs, id, FinishStep(cfg, p, id).reqs[id]);
      assert id in Decoders(p.reqs);
    }
  }

  lemma StepKeeps(cfg: Config, p: Pool, m: Move)
    requires PoolInv(cfg, p)
    ensures PoolInv(cfg, Step(cfg, p, m))
  {
    match m
    case Arrive(id, data, w, h) => assert Decoders(Step(cfg, p, m).reqs) == Decoders(p.reqs);
    case Cancel(id) => assert Decoders(Step(cfg, p, m).reqs) == Decoders(p.reqs);
    case Try(id, slot) => TryKeeps(cfg, p, id, slot);
    case Finish(id) => FinishKeeps(cfg, p, id);
  }

  lemma {:induction false} RunKeeps(cfg: Config, p: Pool, ms: seq<Move>)
    requires PoolInv(cfg, p)
    ensures PoolInv(cfg, Run(cfg, p, ms)) && Run(cfg, p, ms).limit == p.limit
    decreases |ms|
  {
    if ms != [] {
      RunKeeps(cfg, p, ms[..|ms| - 1]);
      StepKeeps(cfg, Run(cfg, p, ms[..|ms| - 1]), ms[|ms| - 1]);
    }
  }

  predicate NewLimit(limit: Option<nat>) {
    limit.Some? ==> 1 <= limit.value
  }

  /** Under any number of requests, cancellations and failures: the occupied slots are exactly the
      requests now decoding and never exceed the limit; a request that has decoded took one slot and
      freed it once; one that gave up took none and freed none. */
  lemma SlotsAreDecoders(cfg: Config, limit: Option<nat>, ms: seq<Move>)
    requires NewLimit(limit)
    ensures var p := Run(cfg, Fresh(limit), ms);
            && (limit.Some? ==> p.held == |Decoders(p.reqs)| <= limit.value)
            && (forall id :: id in p.reqs ==> Accounted(cfg, limit, p.reqs[id]))
  {
    assert Decoders(Fresh(limit).reqs) == {};
    RunKeeps(cfg, Fresh(limit), ms);
  }

  ghost predicate AllReturned(p: Pool) {
    forall id :: id in p.reqs ==> p.reqs[id].phase.Returned?
  }

  /** Once every request has returned the channel is empty. */
  lemma EmptyWhenAllReturned(cfg: Config, limit: Option<nat>, ms: seq<Move>)
    requires NewLimit(limit)
    requires AllReturned(Run(cfg, Fresh(limit), ms))
    ensures Run(cfg, Fresh(limit), ms).held == 0
  {
    assert Decoders(Fresh(limit).reqs) == {};
    RunKeeps(cfg, Fresh(limit), ms);
    assert Decoders(Run(cfg, Fresh(limit), ms).reqs) == {};
  }

  predicate Enters(cfg: Config, p: Pool, id: nat) {
    var t := Step(cfg, p, Try(id, true)); id in t.reqs && t.reqs[id].phase.Decoding?
  }

  /** Whenever a request is waiting, it can enter now, or some decode holds a slot and its end lets
      the waiter in. */
  lemma NeverDeadlocks(cfg: Config, limit: Option<nat>, ms: seq<Move>, id: nat)
    requires NewLimit(limit)
    requires var p := Run(cfg, Fresh(limit), ms); id in p.reqs && p.reqs[id].phase.Waiting?
    ensures var p := Run(cfg, Fresh(limit), ms);
            Enters(cfg, p, id)
            || exists d :: d in Decoders(p.reqs) && Enters(cfg, Step(cfg, p, Finish(d)), id)
  {
    assert Decoders(Fresh(limit).reqs) == {};
    RunKeeps(cfg, Fresh(limit), ms);
    var p := Run(cfg, Fresh(limit), ms);
    if limit.Some? && p.held == limit.value {
      var d :| d in Decoders(p.reqs);
      assert Enters(cfg, Step(cfg, p, Finish(d)), id);
    }
  }

  // ---- Cancellation releases a waiter ----

  /** In every reachable pool, what the select does to a waiting request. One whose context is done does
      not go on waiting, whichever case is taken; if all slots are taken it returns the context's error,
      and takes none; without a limit it decodes all the same. One whose context is not done never returns
      from the select: it enters if a slot is free and waits otherwise. */
  lemma CancelReleases(cfg: Config, limit: Option<nat>, ms: seq<Move>, id: nat, slot: bool)
    requires NewLimit(limit)
    requires var p := Run(cfg, Fresh(limit), ms); id in p.reqs && p.reqs[id].phase.Waiting?
    ensures var p := Run(cfg, Fresh(limit), ms);
            var t := Step(cfg, p, Try(id, slot));
            && id in t.reqs
            && (p.reqs[id].done ==> !t.reqs[id].phase.Waiting?)
            && (p.reqs[id].done && limit == Some(p.held) ==>
                  t.reqs[id].phase == Returned(ContextError) && t.reqs[id].taken == 0 && t.held == p.held)
            && (p.reqs[id].done && limit.Some? && p.held < limit.value ==>
                  t.reqs[id].phase == if slot then Decoding else Returned(ContextError))
            && (limit.None? ==> t.reqs[id].phase == Decoding)
            && (!p.reqs[id].done ==>
                  !t.reqs[id].phase.Returned? && (t.reqs[id].phase.Waiting? <==> limit == Some(p.held)))
  {
    assert Decoders(Fresh(limit).reqs) == {};
    RunKeeps(cfg, Fresh(limit), ms);
  }

  /** A caller that cancels gives the request up from then on, and disturbs no other; no move takes a
      cancellation back. */
  lemma CancelStays(cfg: Config, p: Pool, id: nat, m: Move)
    requires id in p.reqs
    ensures var t := Step(cfg, p, Cancel(id)); t == p.(reqs := p.reqs[id := p.reqs[id].(done := true)])
    ensures id in Step(cfg, p, m).reqs
    ensures Step(cfg, p, m).reqs[id].done == (p.reqs[id].done || m == Cancel(id))
  {
  }

  // ---- What a request is answered ----

  /** The request was let through the select. */
  predicate TookTurn(limit: Option<nat>, q: Request) {
    limit.Some? ==> q.taken == 1
  }

  /** In every run: a request that has returned is answered with the resized image if and only if it took
      its turn and its image can be resized, with an invalid argument if and only if it took its turn and
      the image cannot, and with the context's error if and only if it never got its turn; and then its
      caller had cancelled. */
  lemma AnswersAreResizes(cfg: Config, limit: Option<nat>, ms: seq<Move>, id: nat)
    requires NewLimit(limit)
    requires var p := Run(cfg, Fresh(limit), ms); id in p.reqs && p.reqs[id].phase.Returned?
    ensures var q := Run(cfg, Fresh(limit), ms).reqs[id];
            && (forall d :: q.phase.answer == Resized(d) <==>
                  TookTurn(limit, q) && cfg.resize(q.data, q.w, q.h) == Some(d))
            && (q.phase.answer == InvalidArgument <==>
                  TookTurn(limit, q) && cfg.resize(q.data, q.w, q.h) == None)
            && (q.phase.answer == ContextError <==> !TookTurn(limit, q))
            && (q.phase.answer == ContextError ==> q.done)
  {
    assert Decoders(Fresh(limit).reqs) == {};
    RunKeeps(cfg, Fresh(limit), ms);
  }

  /** A worker's call to the service, when nothing is lost on the way, gets exactly what a request with the
      same image and size that took its turn is answered: the image, or a refusal if it is invalid. */
  lemma WorkerIsAnswered(cfg: Config, limit: Option<nat>, ms: seq<Move>, id: nat, e: Attempts.Env)
    requires NewLimit(limit)
    requires var p := Run(cfg, Fresh(limit), ms); id in p.reqs && p.reqs[id].phase.Returned?
    requires TookTurn(limit, Run(cfg, Fresh(limit), ms).reqs[id])
    ensures var q := Run(cfg, Fresh(limit), ms).reqs[id];
            var reply := Attempts.Answer(cfg, e, Attempts.Scale(q.data, q.w, q.h));
            && (forall d :: reply == Attempts.Data(d) <==> q.phase.answer == Resized(d))
            && (reply == Attempts.Refused <==> q.phase.answer == InvalidArgument)
  {
    AnswersAreResizes(cfg, limit, ms, id);
  }

  // ---- Every request returns ----

  /** The moves that the requests not yet returned still have to make. */
  function Todo(reqs: map<nat, Request>): nat {
    2 * |Waiters(reqs)| + |Decoders(reqs)|
  }

  /** A select or an end of decoding that changes anything brings some request nearer its return. */
  lemma WorkDrops(cfg: Config, p: Pool, m: Move)
    requires (m.Try? || m.Finish?) && Step(cfg, p, m) != p
    ensures Todo(Step(cfg, p, m).reqs) < Todo(p.reqs)
  {
    var q, r := p.reqs[m.id], Step(cfg, p, m).reqs[m.id];
    PutRequest(p.reqs, m.id, r);
    assert m.id in Waiters(p.reqs) <==> q.phase.Waiting?;
    assert m.id in Decoders(p.reqs) <==> q.phase.Decoding?;
  }

  /** From any reachable state, at most two moves for each request that has not returned make them
      all return and leave the channel empty. */
  lemma {:induction false} Drains(cfg: Config, p: Pool) returns (ms: seq<Move>)
    requires PoolInv(cfg, p)
    ensures AllReturned(Run(cfg, p, ms)) && Run(cfg, p, ms).held == 0
    ensures |ms| <= 2 * |Waiters(p.reqs)| + |Decoders(p.reqs)|
    ensures forall i :: 0 <= i < |ms| ==> ms[i].Try? || ms[i].Finish?
    decreases Todo(p.reqs)
  {
    if Waiters(p.reqs) == {} && Decoders(p.reqs) == {} {
      forall id | id in p.reqs
        ensures p.reqs[id].phase.Returned?
      {
        assert id !in Waiters(p.reqs) && id !in Decoders(p.reqs);
      }
      ms := [];
    } else {
      var m := if Decoders(p.reqs) == {} then var id :| id in Waiters(p.reqs); Try(id, true)
               else var d :| d in Decoders(p.reqs); Finish(d);
      assert Step(cfg, p, m).reqs[m.id].phase != p.reqs[m.id].phase;
      WorkDrops(cfg, p, m);
      StepKeeps(cfg, p, m);
      var rest := Drains(cfg, Step(cfg, p, m));
      ms := [m] + rest;
      RunFirst(cfg, p, m, rest);
    }
  }

  lemma {:induction false} RunFirst(cfg: Config, p: Pool, m: Move, ms: seq<Move>)
    ensures Run(cfg, p, [m] + ms) == Run(cfg, Step(cfg, p, m), ms)
    decreases |ms|
  {
    if ms == [] {
      assert [m] + ms == [m] && [m][..0] == [];
      assert Run(cfg, p, []) == p;
    } else {
      var k := |ms| - 1;
      assert ([m] + ms)[..|[m] + ms| - 1] == [m] + ms[..k];
      RunFirst(cfg, p, m, ms[..k]);
    }
  }

  // ---- One request by itself ----

  /** A request on its own, from arrival to return, is one call of `Server.Resize`: the same answer,
      and the channel as it was. */
  lemma OneLife(cfg: Config, p: Pool, id: nat, data: Bytes, w: int, h: int, done: bool, slot: bool)
    requires PoolInv(cfg, p) && id !in p.reqs
    ensures var p1 := Step(cfg, p, Arrive(id, data, w, h));
            var p2 := if done then Step(cfg, p1, Cancel(id)) else p1;
            var t := Step(cfg, Step(cfg, p2, Try(id, slot)), Finish(id));
            && t.held == p.held && id in t.reqs
            && if p.limit.None? || (p.held < p.limit.value && (slot || !done))
               then t.reqs[id].phase == match cfg.resize(data, w, h)
                                        case Some(d) => Returned(Resized(d))
                                        case None => Returned(InvalidArgument)
               else t.reqs[id].phase == if done then Returned(ContextError) else Waiting
  {
  }
}
