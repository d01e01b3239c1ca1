/** The worker's activities, step by step on the shared table and bucket. */
module Worker {
  import opened Types
  import opened Attempts
  import opened Keys
  import opened Metadata
  import opened Storage
  import opened World

  /** `faults(k)` says how the `k`-th external call of an activity goes wrong. */
  class Activities {
    const cfg: Config
    const repo: Repository
    const store: ObjectStore

    constructor (cfg: Config, repo: Repository, store: ObjectStore)
      ensures this.cfg == cfg && this.repo == repo && this.store == store
    {
      this.cfg := cfg;
      this.repo := repo;
      this.store := store;
    }

    /** The shared state the activities act on. */
    ghost function Shared(): World
      reads repo, store
    {
      World(0, repo.rows, store.objs, map[], map[], map[])
    }

    method Validate(id: string, faults: nat -> Fault) returns (r: Result)
      modifies repo, store
      ensures (Shared(), r) == SharedFinish(cfg, old(Shared()), id, ActValidate, VMark, faults, 0)
    {
      var marked := repo.UpdateStatus(id, Validating, faults(0));
      if !marked {
        return Err(CallFailed);
      }
      ghost var w := Shared();
      assert SharedFinish(cfg, old(Shared()), id, ActValidate, VMark, faults, 0)
          == SharedFinish(cfg, w, id, ActValidate, VSniff, faults, 1);
      var orig := ObjectKey(id, ORIGINAL);
      var sniff := store.GetFirstNBytes(orig, SNIFF_BYTES, faults(1));
      if sniff.Failure? {
        return Err(CallFailed);
      }
      assert sniff.value == Prefix(store.objs[orig], SNIFF_BYTES);
      if !cfg.sniffs(sniff.value) {
        assert SharedFinish(cfg, w, id, ActValidate, VSniff, faults, 1)
            == SharedFinish(cfg, w, id, ActValidate, VDrop(BadType), faults, 2);
        r := Reject(id, orig, BadType, faults, 2);
        return;
      }
      assert SharedFinish(cfg, w, id, ActValidate, VSniff, faults, 1)
          == SharedFinish(cfg, w, id, ActValidate, VHead, faults, 2);
      var size := store.Head(orig, faults(2));
      if size.Failure? {
        return Err(CallFailed);
      }
      if size.value.0 > MAX_IMAGE_BYTES {
        assert SharedFinish(cfg, w, id, ActValidate, VHead, faults, 2)
            == SharedFinish(cfg, w, id, ActValidate, VDrop(TooLarge), faults, 3);
        r := Reject(id, orig, TooLarge, faults, 3);
        return;
      }
      r := Ok;
    }

    /** Deletes the object and marks the upload, ignoring both errors; `k` calls were made before. */
    method Reject(id: string, key: string, why: Why, faults: nat -> Fault, k: nat) returns (r: Result)
      requires key == ObjectKey(id, ORIGINAL)
      modifies repo, store
      ensures (Shared(), r) == SharedFinish(cfg, old(Shared()), id, ActValidate, VDrop(why), faults, k)
      ensures store.objs == if faults(k).Before? then old(store.objs) else old(store.objs) - {key}
      ensures repo.rows == if faults(k + 1).Before? then old(repo.rows)
                           else WithStatus(old(repo.rows), id, Status.Rejected)
      ensures r == Err(why)
    {
      var deleted := store.Delete(key, faults(k));
      assert SharedFinish(cfg, old(Shared()), id, ActValidate, VDrop(why), faults, k)
          == SharedFinish(cfg, Shared(), id, ActValidate, VReject(why), faults, k + 1);
      var marked := repo.UpdateStatus(id, Rejected, faults(k + 1));
      r := Err(why);
    }

    /** Stores the variant under the content type the upload was announced with. */
    method Resize(id: string, contentType: string, i: nat, faults: nat -> Fault) returns (r: Result)
      requires i < |cfg.specs|
      modifies repo, store
      ensures (Shared(), r) == SharedFinish(cfg, old(Shared()), id, ActResize(i), RFetch, faults, 0)
      ensures r.Ok? ==> store.types == old(store.types)[ObjectKey(id, cfg.specs[i].name) := contentType]
    {
      var sp := cfg.specs[i];
      var data := store.Get(ObjectKey(id, ORIGINAL), faults(0));
      if data.Failure? {
        return Err(CallFailed);
      }
      assert SharedFinish(cfg, old(Shared()), id, ActResize(i), RFetch, faults, 0)
          == SharedFinish(cfg, Shared(), id, ActResize(i), RScale(data.value), faults, 1);
      var resized := if faults(1).NoFault? then cfg.resize(data.value, sp.w, sp.h) else None;
      if resized.None? {
        return Err(CallFailed);
      }
      assert SharedFinish(cfg, Shared(), id, ActResize(i), RScale(data.value), faults, 1)
          == SharedFinish(cfg, Shared(), id, ActResize(i), RStore(resized.value), faults, 2);
      ghost var before := Shared();
      var stored := store.Put(ObjectKey(id, sp.name), resized.value, contentType, faults(2));
      r := if stored then Ok else Err(CallFailed);
      FinishUnfolds(cfg, before, id, ActResize(i), RStore(resized.value), faults, 2);
    }

    method MarkStatus(id: string, a: Act, faults: nat -> Fault) returns (r: Result)
      requires a.ActProcessing? || a.ActComplete? || a.ActFail?
      modifies repo
      ensures (Shared(), r) == SharedFinish(cfg, old(Shared()), id, a, Mark, faults, 0)
    {
      var marked := repo.UpdateStatus(id, Target(a), faults(0));
      r := if marked then Ok else Err(CallFailed);
    }

    method Processing(id: string, faults: nat -> Fault) returns (r: Result)
      modifies repo
      ensures (Shared(), r) == SharedFinish(cfg, old(Shared()), id, ActProcessing, Mark, faults, 0)
      ensures repo.rows == if faults(0).Before? then old(repo.rows)
                           else WithStatus(old(repo.rows), id, Status.Processing)
      ensures r == if faults(0).NoFault? then Ok else Err(CallFailed)
    {
      r := MarkStatus(id, ActProcessing, faults);
    }

    method Complete(id: string, faults: nat -> Fault) returns (r: Result)
      modifies repo
      ensures (Shared(), r) == SharedFinish(cfg, old(Shared()), id, ActComplete, Mark, faults, 0)
      ensures repo.rows == if faults(0).Before? then old(repo.rows)
                           else WithStatus(old(repo.rows), id, Status.Complete)
      ensures r == if faults(0).NoFault? then Ok else Err(CallFailed)
    {
      r := MarkStatus(id, ActComplete, faults);
    }

    method Fail(id: string, faults: nat -> Fault) returns (r: Result)
      modifies repo
      ensures (Shared(), r) == SharedFinish(cfg, old(Shared()), id, ActFail, Mark, faults, 0)
      ensures repo.rows == if faults(0).Before? then old(repo.rows)
                           else WithStatus(old(repo.rows), id, Status.Failed)
      ensures r == if faults(0).NoFault? then Ok else Err(CallFailed)
    {
      r := MarkStatus(id, ActFail, faults);
    }

    method Abandon(id: string, faults: nat -> Fault) returns (r: Result)
      modifies repo, store
      ensures (Shared(), r) == SharedFinish(cfg, old(Shared()), id, ActAbandon, ADrop, faults, 0)
      ensures store.objs == if faults(0).Before? then old(store.objs)
                            else old(store.objs) - {ObjectKey(id, ORIGINAL)}
      ensures repo.rows == if faults(1).Before? then old(repo.rows)
                           else WithStatus(old(repo.rows), id, Status.Abandoned)
      ensures r == if faults(1).NoFault? then Ok else Err(CallFailed)
    {
      var deleted := store.Delete(ObjectKey(id, ORIGINAL), faults(0));
      assert SharedFinish(cfg, old(Shared()), id, ActAbandon, ADrop, faults, 0)
          == SharedFinish(cfg, Shared(), id, ActAbandon, AMark, faults, 1);
      var marked := repo.UpdateStatus(id, Abandoned, faults(1));
      r := if marked then Ok else Err(CallFailed);
    }
  }
}
