/** The upload service: Negotiate and Complete, as runs of the world. */
module Uploads {
  import opened Types
  import opened Machine
  import opened Deadline
  import opened Keys
  import Metadata
  import Storage
  import Pipeline
  import opened World

  /** The three effects of Negotiate. After a failure the later ones have no effect. */
  function Negotiation(id: string, filename: string, contentType: string, owner: string, create: Fault,
                       start: Fault, sign: Fault): seq<Event> {
    [For(id, CreateRow(filename, contentType, owner, create)), For(id, StartWf(start)), For(id, Sign(sign))]
  }

  /** The seconds a client is told its URL is good for. */
  function PresignTTLSeconds(): nat {
    PRESIGN_TTL
  }

  class Service {
    const repo: Metadata.Repository
    const store: Storage.ObjectStore
    const pipe: Pipeline.Orchestrator
    ghost const cfg: Config
    /** How far each negotiation has come, and when each URL was signed. */
    ghost var negs: map<string, Neg>
    ghost var urls: map<string, nat>

    constructor (repo: Metadata.Repository, store: Storage.ObjectStore, pipe: Pipeline.Orchestrator,
                 ghost cfg: Config)
      ensures this.repo == repo && this.store == store && this.pipe == pipe && this.cfg == cfg
      ensures negs == map[] && urls == map[]
    {
      this.repo := repo;
      this.store := store;
      this.pipe := pipe;
      this.cfg := cfg;
      negs := map[];
      urls := map[];
    }

    ghost function State(now: nat): World
      reads this, repo, store, pipe
    {
      World(now, repo.rows, store.objs, pipe.wfs, negs, urls)
    }

    /** The premise on ids: this one has not been used. */
    ghost predicate Unused(id: string)
      reads this, repo, pipe
    {
      id !in negs && id !in repo.rows && WorkflowId(id) !in pipe.wfs && id !in urls
    }

    /** `newId` is what the id generator returned. Whatever fails, what has been done is a run of the
        world; the caller gets an id and a URL exactly when nothing failed. */
    method Negotiate(newId: Option<string>, filename: string, contentType: string, owner: string, now: nat,
                     create: Fault, start: Fault, sign: Fault) returns (r: Try<(string, Storage.Url)>)
      requires newId.Some? ==> Unused(newId.value)
      modifies this, repo, pipe
      ensures State(now) ==
              if newId.None? then old(State(now))
              else WorldRun(cfg, old(State(now)),
                            Negotiation(newId.value, filename, contentType, owner, create, start, sign))
      ensures r == if newId.Some? && create.NoFault? && start.NoFault? && sign.NoFault?
                   then Success((newId.value, Storage.Url(ObjectKey(newId.value, ORIGINAL), "PUT", now + PRESIGN_TTL)))
                   else Failure(Unavailable)
    {
      if newId.None? {
        return Failure(Unavailable);
      }
      var id := newId.value;
      ghost var w := State(now);
      NegotiationRuns(cfg, w, id, filename, contentType, owner, create, start, sign);
      var created := repo.Create(id, filename, contentType, Pending, owner, now, create);
      if !created {
        negs := negs[id := GaveUp];
        return Failure(Unavailable);
      }
      var started := pipe.Start(id, start);
      if !started {
        negs := negs[id := GaveUp];
        return Failure(Unavailable);
      }
      var url := store.Presign(ObjectKey(id, ORIGINAL), "PUT", PRESIGN_TTL, now, sign);
      if url.Failure? {
        negs := negs[id := GaveUp];
        return Failure(Unavailable);
      }
      negs, urls := negs[id := Issued], urls[id := now];
      r := Success((id, url.value));
    }

    /** Forwards the completion signal. */
    method Complete(id: string, ghost now: nat, fault: Fault) returns (ok: bool)
      modifies pipe
      ensures ok == fault.NoFault?
      ensures State(now) == WorldStep(cfg, old(State(now)), For(id, Signal(fault)))
    {
      ok := pipe.Signal(id, fault);
    }
  }

  /** What Negotiate leaves, for every combination of failures: the row exists unless its insert had
      no effect; the workflow exists if the insert was acknowledged and the start took effect; there
      is a URL only if nothing failed; and no other upload's keys are touched. */
  lemma NegotiationRuns(cfg: Config, w: World, id: string, filename: string, contentType: string, owner: string,
                        create: Fault, start: Fault, sign: Fault)
    requires NegOf(w, id).Fresh?
    ensures WorldRun(cfg, w, Negotiation(id, filename, contentType, owner, create, start, sign)) ==
            w.(rows := if create.Before? then w.rows
                       else w.rows[id := Row(filename, contentType, Pending, owner, w.now)],
               wfs := if create.NoFault? && !start.Before? then w.wfs[WorkflowId(id) := NEW_WF] else w.wfs,
               urls := if create.NoFault? && start.NoFault? && sign.NoFault? then w.urls[id := w.now] else w.urls,
               negs := w.negs[id := if create.NoFault? && start.NoFault? && sign.NoFault? then Issued else GaveUp])
  {
    var es := Negotiation(id, filename, contentType, owner, create, start, sign);
    RunThree(cfg, w, es[0], es[1], es[2]);
    CreateRuns(cfg, w, id, filename, contentType, owner, create);
    var w1 := WorldStep(cfg, w, es[0]);
    StartRuns(cfg, w1, id, start);
    var w2 := WorldStep(cfg, w1, es[1]);
    SignRuns(cfg, w2, id, sign);
    PutTwice(w.negs, id, w1.negs[id], w2.negs[id]);
    PutTwice(w.negs, id, w2.negs[id], WorldStep(cfg, w2, es[2]).negs[id]);
  }

  lemma PutTwice(negs: map<string, Neg>, id: string, a: Neg, b: Neg)
    ensures negs[id := a][id := b] == negs[id := b] && negs[id := a][id := a] == negs[id := a]
  {
  }

  lemma CreateRuns(cfg: Config, w: World, id: string, filename: string, contentType: string, owner: string,
                   create: Fault)
    requires NegOf(w, id).Fresh?
    ensures WorldStep(cfg, w, For(id, CreateRow(filename, contentType, owner, create))) ==
            w.(rows := if create.Before? then w.rows
                       else w.rows[id := Row(filename, contentType, Pending, owner, w.now)],
               negs := w.negs[id := if create.NoFault? then RowMade else GaveUp])
  {
  }

  lemma StartRuns(cfg: Config, w: World, id: string, start: Fault)
    requires id in w.negs && (w.negs[id].RowMade? || w.negs[id].GaveUp?)
    ensures WorldStep(cfg, w, For(id, StartWf(start))) ==
            if w.negs[id].GaveUp? then w
            else w.(wfs := if start.Before? then w.wfs else w.wfs[WorkflowId(id) := NEW_WF],
                    negs := w.negs[id := if start.NoFault? then Started else GaveUp])
  {
  }

  lemma SignRuns(cfg: Config, w: World, id: string, sign: Fault)
    requires id in w.negs && (w.negs[id].Started? || w.negs[id].GaveUp?)
    ensures WorldStep(cfg, w, For(id, Sign(sign))) ==
            if w.negs[id].GaveUp? then w
            else w.(urls := if sign.NoFault? then w.urls[id := w.now] else w.urls,
                    negs := w.negs[id := if sign.NoFault? then Issued else GaveUp])
  {
  }

  lemma RunThree(cfg: Config, w: World, a: Event, b: Event, c: Event)
    ensures WorldRun(cfg, w, [a, b, c]) == WorldStep(cfg, WorldStep(cfg, WorldStep(cfg, w, a), b), c)
  {
    var es := [a, b, c];
    assert es[..2] == [a, b] && [a, b][..1] == [a] && [a][..0] == [];
    assert WorldRun(cfg, w, []) == w;
    assert WorldRun(cfg, w, [a]) == WorldStep(cfg, w, a);
    assert WorldRun(cfg, w, [a, b]) == WorldStep(cfg, WorldStep(cfg, w, a), b);
  }

  /** The URL that Negotiate returned is good for exactly the announced time: whatever has happened
      before, and whatever happens to this and all other uploads afterwards, a PUT through it is stored
      until that many seconds have passed since Negotiate, and changes nothing from then on. */
  lemma UrlIsGoodAsAnnounced(cfg: Config, es: seq<Event>, later: seq<Event>, id: string, filename: string,
                             contentType: string, owner: string, data: Bytes)
    requires Sane(es) && Sane(later) && SlashFree(id) && NegOf(WorldRun(cfg, NewWorld(), es), id).Fresh?
    ensures var dealt := es + Negotiation(id, filename, contentType, owner, NoFault, NoFault, NoFault);
            var signed := WorldRun(cfg, NewWorld(), dealt).now;
            var w := WorldRun(cfg, NewWorld(), dealt + later);
            WorldStep(cfg, w, For(id, ClientPut(data))) ==
            if w.now < signed + PresignTTLSeconds()
            then w.(objs := w.objs[ObjectKey(id, ORIGINAL) := data]) else w
  {
    var deal := Negotiation(id, filename, contentType, owner, NoFault, NoFault, NoFault);
    var dealt := es + deal;
    WorldRunAppend(cfg, NewWorld(), es, deal);
    NegotiationRuns(cfg, WorldRun(cfg, NewWorld(), es), id, filename, contentType, owner, NoFault, NoFault, NoFault);
    assert Sane(dealt);
    UploadsAreIndependent(cfg, dealt, id);
    UploadsAreIndependent(cfg, dealt + later, id);
    MovesAppend(dealt, later, id);
    RunAppend(cfg, Begin(), MovesOf(dealt, id), MovesOf(later, id));
    UrlStays(cfg, Run(cfg, Begin(), MovesOf(dealt, id)), MovesOf(later, id));
    UrlDecides(cfg, WorldRun(cfg, NewWorld(), dealt), WorldRun(cfg, NewWorld(), dealt + later), id, data);
  }

  lemma UrlDecides(cfg: Config, w0: World, w: World, id: string, data: Bytes)
    requires id in w0.urls && View(w, id).url == View(w0, id).url
    ensures WorldStep(cfg, w, For(id, ClientPut(data))) ==
            if w.now < w0.urls[id] + PRESIGN_TTL then w.(objs := w.objs[ObjectKey(id, ORIGINAL) := data]) else w
  {
  }
}
