/** What an owner can observe, over whole runs of the world. */
module OwnerView {
  import opened Types
  import opened Machine
  import opened Keys
  import opened Safety
  import opened SafetyTheorems
  import opened StatusOrder
  import opened Provenance
  import Metadata
  import Storage
  import opened Transport
  import opened World

  predicate Owns(rows: map<string, Row>, caller: string, id: string) {
    id in rows && rows[id].owner == caller
  }

  // ---- Who is answered what ----

  /** The response is the refusal with this code and message. */
  predicate Refuses(r: Response, code: nat, message: string) {
    r == Response(code, Some(TEXT), Text(message))
  }

  /** An id that is not 32 characters long is refused with 400, a failed lookup with 500, and every id that
      the caller does not own, whether it exists or not, with 404; by all three handlers alike. */
  lemma OnlyOwnersGetIn(rows: map<string, Row>, objs: map<string, Bytes>, caller: string, id: string, size: string,
                        lookup: Fault, other: Fault, r: Response)
    requires r in {StatusAnswer(rows, caller, id, lookup), ImageAnswer(rows, objs, caller, id, size, lookup, other),
                   CompleteAnswer(rows, caller, id, lookup, other)}
    ensures |id| != 32 ==> Refuses(r, 400, "Invalid ID")
    ensures |id| == 32 && !lookup.NoFault? ==> Refuses(r, 500, "Server error")
    ensures |id| == 32 && lookup.NoFault? && !Owns(rows, caller, id) ==> Refuses(r, 404, "Not found")
  {
  }

  /** The owner is told the row's own status, and that the upload was completed unless signalling failed. */
  lemma OwnerIsTold(rows: map<string, Row>, caller: string, id: string, signal: Fault)
    requires |id| == 32 && Owns(rows, caller, id)
    ensures StatusAnswer(rows, caller, id, NoFault) == Response(200, Some(JSON), StatusJson(id, rows[id].status))
    ensures var r := CompleteAnswer(rows, caller, id, NoFault, signal);
            if signal.NoFault? then r.code == 200 && r.body.Empty? else Refuses(r, 500, "could not complete upload")
  {
  }

  /** The size is the original's name or that of a variant. */
  predicate Offered(size: string) {
    size == ORIGINAL || exists i :: 0 <= i < |SIZES| && SIZES[i].name == size
  }

  lemma OfferedNames(size: string)
    ensures Offered(size) <==> size == "original" || size == "12x12" || size == "25x25"
  {
    assert SIZES[0].name == "12x12" && SIZES[1].name == "25x25";
  }

  /** The owner is served an offered size, with the row's content type, if the object can be read, and told
      404 if not; any other size is refused with 400. */
  lemma OwnerIsServed(rows: map<string, Row>, objs: map<string, Bytes>, caller: string, id: string, size: string,
                      get: Fault)
    requires |id| == 32 && Owns(rows, caller, id)
    ensures var r := ImageAnswer(rows, objs, caller, id, size, NoFault, get);
            var key := id + "/" + size;
            if !Offered(size) then Refuses(r, 400, "Invalid or missing size")
            else if get.NoFault? && key in objs
            then r == Response(200, Some(rows[id].contentType), Image(objs[key]))
            else Refuses(r, 404, "Image not found")
  {
    OfferedNames(size);
  }

  /** Entry `e` of a listing says of a row what its fields are called. */
  predicate Describes(e: ImageSummary, id: string, row: Row) {
    && e.id == id && e.filename == row.filename && e.contentType == row.contentType && e.status == row.status
    && e.created == row.created
  }

  /** The owner's listing describes each of the owner's rows once, and no other, newest first. */
  lemma ListingShowsRows(rows: map<string, Row>, caller: string, r: Response)
    requires IsListAnswer(rows, caller, r)
    ensures r.code == 200
    ensures forall i :: 0 <= i < |r.body.images| ==>
              var e := r.body.images[i]; Owns(rows, caller, e.id) && Describes(e, e.id, rows[e.id])
    ensures forall id :: Owns(rows, caller, id) ==> exists i :: 0 <= i < |r.body.images| && r.body.images[i].id == id
    ensures forall i, j :: 0 <= i < j < |r.body.images| ==>
              r.body.images[i].id != r.body.images[j].id && r.body.images[i].created >= r.body.images[j].created
  {
    var l: seq<Metadata.Upload> :| Metadata.IsListing(rows, caller, l) && Renders(r.body.images, l);
    forall i | 0 <= i < |l|
      ensures Owns(rows, caller, l[i].id)
    {
      assert l[i].id in Metadata.Ids(l);
    }
    forall id | Owns(rows, caller, id)
      ensures exists i :: 0 <= i < |r.body.images| && r.body.images[i].id == id
    {
      assert id in Metadata.Ids(l);
      var i :| 0 <= i < |l| && l[i].id == id;
      assert r.body.images[i].id == id;
    }
  }

  // ---- Two states that agree on the caller's uploads ----

  /** Two stored states agree on the rows the caller owns and on the objects under them. */
  ghost predicate SameForOwner(rows: map<string, Row>, rows': map<string, Row>, objs: map<string, Bytes>,
                               objs': map<string, Bytes>, caller: string) {
    forall id :: Owns(rows, caller, id) || Owns(rows', caller, id) ==>
      && Find(rows, id) == Find(rows', id)
      && ObjsOf(objs, id) == ObjsOf(objs', id)
  }

  lemma SameObject(objs: map<string, Bytes>, objs': map<string, Bytes>, id: string, name: string, get: Fault)
    requires ObjsOf(objs, id) == ObjsOf(objs', id)
    ensures Storage.Lookup(objs, ObjectKey(id, name), get) == Storage.Lookup(objs', ObjectKey(id, name), get)
  {
    ObjsMeaning(objs, id);
    ObjsMeaning(objs', id);
    assert name in ObjsOf(objs, id) <==> ObjectKey(id, name) in objs;
    assert name in ObjsOf(objs', id) <==> ObjectKey(id, name) in objs';
  }

  lemma SameCheck(rows: map<string, Row>, rows': map<string, Row>, caller: string, id: string, lookup: Fault)
    requires Owns(rows, caller, id) || Owns(rows', caller, id) ==> Find(rows, id) == Find(rows', id)
    ensures CheckOwner(rows, caller, id, lookup) == CheckOwner(rows', caller, id, lookup)
  {
  }

  predicate AnswersAlike(rows: map<string, Row>, rows': map<string, Row>, objs: map<string, Bytes>,
                         objs': map<string, Bytes>, caller: string, id: string, size: string, f: Fault, g: Fault) {
    && StatusAnswer(rows, caller, id, f) == StatusAnswer(rows', caller, id, f)
    && ImageAnswer(rows, objs, caller, id, size, f, g) == ImageAnswer(rows', objs', caller, id, size, f, g)
    && CompleteAnswer(rows, caller, id, f, g) == CompleteAnswer(rows', caller, id, f, g)
  }

  lemma SameAnswersFor(rows: map<string, Row>, rows': map<string, Row>, objs: map<string, Bytes>,
                       objs': map<string, Bytes>, caller: string, id: string, size: string, f: Fault, g: Fault)
    requires SameForOwner(rows, rows', objs, objs', caller)
    ensures AnswersAlike(rows, rows', objs, objs', caller, id, size, f, g)
  {
    SameCheck(rows, rows', caller, id, f);
    if Owns(rows, caller, id) {
      SameObject(objs, objs', id, size, g);
    }
  }

  lemma SameListing(rows: map<string, Row>, rows': map<string, Row>, objs: map<string, Bytes>,
                    objs': map<string, Bytes>, caller: string, l: seq<Metadata.Upload>)
    requires SameForOwner(rows, rows', objs, objs', caller) && Metadata.IsListing(rows, caller, l)
    ensures Metadata.IsListing(rows', caller, l)
  {
    forall id
      ensures id in Metadata.Owned(rows, caller) <==> id in Metadata.Owned(rows', caller)
    {
      assert id in Metadata.Owned(rows, caller) <==> Owns(rows, caller, id);
      assert id in Metadata.Owned(rows', caller) <==> Owns(rows', caller, id);
    }
    forall i | 0 <= i < |l|
      ensures l[i].id in rows' && l[i] == Metadata.Summary(rows', l[i].id)
    {
      assert l[i].id in Metadata.Ids(l);
      assert Owns(rows, caller, l[i].id);
    }
  }

  lemma SameListAnswer(rows: map<string, Row>, rows': map<string, Row>, objs: map<string, Bytes>,
                       objs': map<string, Bytes>, caller: string, r: Response)
    requires SameForOwner(rows, rows', objs, objs', caller) && IsListAnswer(rows, caller, r)
    ensures IsListAnswer(rows', caller, r)
  {
    var l :| Metadata.IsListing(rows, caller, l) && Renders(r.body.images, l);
    SameListing(rows, rows', objs, objs', caller, l);
  }

  ghost predicate ListsAlike(rows: map<string, Row>, rows': map<string, Row>, caller: string) {
    forall r :: IsListAnswer(rows, caller, r) <==> IsListAnswer(rows', caller, r)
  }

  /** Status, image, complete and listing answer the caller identically in two states, whatever id
      is asked for: the caller's own, another's, or none. */
  ghost predicate SeesTheSame(rows: map<string, Row>, rows': map<string, Row>, objs: map<string, Bytes>,
                              objs': map<string, Bytes>, caller: string) {
    && (forall id, size, f, g :: AnswersAlike(rows, rows', objs, objs', caller, id, size, f, g))
    && ListsAlike(rows, rows', caller)
  }

  lemma SameLists(rows: map<string, Row>, rows': map<string, Row>, objs: map<string, Bytes>,
                  objs': map<string, Bytes>, caller: string)
    requires SameForOwner(rows, rows', objs, objs', caller)
    ensures ListsAlike(rows, rows', caller)
  {
    forall r
      ensures IsListAnswer(rows, caller, r) <==> IsListAnswer(rows', caller, r)
    {
      if IsListAnswer(rows, caller, r) { SameListAnswer(rows, rows', objs, objs', caller, r); }
      if IsListAnswer(rows', caller, r) { SameListAnswer(rows', rows, objs', objs, caller, r); }
    }
  }

  lemma OwnerSeesTheSame(rows: map<string, Row>, rows': map<string, Row>, objs: map<string, Bytes>,
                         objs': map<string, Bytes>, caller: string)
    requires SameForOwner(rows, rows', objs, objs', caller)
    ensures SeesTheSame(rows, rows', objs, objs', caller)
  {
    forall id, size, f, g
      ensures AnswersAlike(rows, rows', objs, objs', caller, id, size, f, g)
    {
      SameAnswersFor(rows, rows', objs, objs', caller, id, size, f, g);
    }
    SameLists(rows, rows', objs, objs', caller);
  }

  /** To everyone but its owner an upload might as well not exist: every answer, the listing included,
      is the one given without its row. */
  lemma ForeignLooksAbsent(rows: map<string, Row>, objs: map<string, Bytes>, caller: string, id: string)
    requires id in rows && rows[id].owner != caller
    ensures SeesTheSame(rows, rows - {id}, objs, objs, caller)
  {
    OwnerSeesTheSame(rows, rows - {id}, objs, objs, caller);
  }

  // ---- Two runs that agree on the caller's uploads ----

  /** The runs make the same moves for every id that the caller owns at the end of either. */
  ghost predicate AgreeOnOwn(cfg: Config, es: seq<Event>, es': seq<Event>, caller: string) {
    var w, w' := WorldRun(cfg, NewWorld(), es), WorldRun(cfg, NewWorld(), es');
    forall id :: Owns(w.rows, caller, id) || Owns(w'.rows, caller, id) ==>
      MovesOf(es, id) == MovesOf(es', id)
  }

  lemma {:induction false} RowIdsAreSlashFree(cfg: Config, es: seq<Event>, id: string)
    requires Sane(es) && id in WorldRun(cfg, NewWorld(), es).rows
    ensures SlashFree(id)
    decreases |es|
  {
    if es != [] {
      var rest, e := es[..|es| - 1], es[|es| - 1];
      if id in WorldRun(cfg, NewWorld(), rest).rows {
        RowIdsAreSlashFree(cfg, rest, id);
      } else {
        NewRow(cfg, WorldRun(cfg, NewWorld(), rest), e, id);
      }
    }
  }

  lemma CallMakesNoRow(cfg: Config, w: World, id: string, m: Move)
    ensures SharedCall(cfg, w, id, m).rows.Keys == w.rows.Keys
  {
  }

  lemma NewRow(cfg: Config, w: World, e: Event, id: string)
    requires id !in w.rows && id in WorldStep(cfg, w, e).rows
    ensures e.For? && e.id == id
  {
    if e.For? && (e.m.Call? || e.m.LateCall?) {
      CallMakesNoRow(cfg, w, e.id, e.m);
    }
  }

  /** Whatever other owners' uploads do, and whether a foreign id exists or not: in two runs that
      make the same moves for the caller's own uploads, the caller sees the same. */
  lemma OwnerViewIsOwn(cfg: Config, es: seq<Event>, es': seq<Event>, caller: string)
    requires Sane(es) && Sane(es') && AgreeOnOwn(cfg, es, es', caller)
    ensures var w, w' := WorldRun(cfg, NewWorld(), es), WorldRun(cfg, NewWorld(), es');
            SeesTheSame(w.rows, w'.rows, w.objs, w'.objs, caller)
  {
    var w, w' := WorldRun(cfg, NewWorld(), es), WorldRun(cfg, NewWorld(), es');
    forall id | Owns(w.rows, caller, id) || Owns(w'.rows, caller, id)
      ensures Find(w.rows, id) == Find(w'.rows, id) && ObjsOf(w.objs, id) == ObjsOf(w'.objs, id)
    {
      if Owns(w.rows, caller, id) {
        RowIdsAreSlashFree(cfg, es, id);
      } else {
        RowIdsAreSlashFree(cfg, es', id);
      }
      OthersDoNotMatter(cfg, es, es', id);
      ViewFields(w, w', id);
    }
    OwnerSeesTheSame(w.rows, w'.rows, w.objs, w'.objs, caller);
  }

  lemma ViewFields(w: World, w': World, id: string)
    requires View(w, id) == View(w', id)
    ensures Find(w.rows, id) == Find(w'.rows, id) && ObjsOf(w.objs, id) == ObjsOf(w'.objs, id)
  {
  }

  // ---- What a poll that says `complete` promises the owner ----

  /** Once a status read has answered `complete`, every later GET of the original or of a variant is served,
      with the object and the content type of the row; a GET of any other size is refused with 400. */
  lemma CompleteIsServed(cfg: Config, es: seq<Event>, later: seq<Event>, caller: string, id: string, size: string)
    requires cfg.specs == SIZES && Sane(es) && Sane(later)
    requires StatusAnswer(WorldRun(cfg, NewWorld(), es).rows, caller, id, NoFault)
             == Response(200, Some(JSON), StatusJson(id, Complete))
    ensures var w := WorldRun(cfg, NewWorld(), es + later);
            var r := ImageAnswer(w.rows, w.objs, caller, id, size, NoFault, NoFault);
            && id in w.rows
            && if size == ORIGINAL || exists i :: 0 <= i < |SIZES| && SIZES[i].name == size
               then ObjectKey(id, size) in w.objs
                    && r == Response(200, Some(w.rows[id].contentType), Image(w.objs[ObjectKey(id, size)]))
               else Refuses(r, 400, "Invalid or missing size")
  {
    var w0, w := WorldRun(cfg, NewWorld(), es), WorldRun(cfg, NewWorld(), es + later);
    OnlyOwnersGetIn(w0.rows, w0.objs, caller, id, size, NoFault, NoFault, StatusAnswer(w0.rows, caller, id, NoFault));
    OwnerIsTold(w0.rows, caller, id, NoFault);
    RowIdsAreSlashFree(cfg, es, id);
    SizesAreGood(cfg);
    if Offered(size) { CompleteLastsInTheWorld(cfg, es, later, id, size); }
    RowStaysInTheWorld(cfg, es, later, id);
    OwnerIsServed(w.rows, w.objs, caller, id, size, NoFault);
  }

  /** What the owner is served under the name of a variant is an original of the upload, one that was stored
      after the completion signal was consumed, resized to the dimensions in the name. */
  lemma ServedAsNamed(cfg: Config, es: seq<Event>, caller: string, id: string, size: string, side: nat)
    requires cfg.specs == SIZES && Sane(es) && ((size == "12x12" && side == 12) || (size == "25x25" && side == 25))
    requires var w := WorldRun(cfg, NewWorld(), es);
             Owns(w.rows, caller, id) && ImageAnswer(w.rows, w.objs, caller, id, size, NoFault, NoFault).code == 200
    ensures var w := WorldRun(cfg, NewWorld(), es);
            var ms := MovesOf(es, id);
            exists j :: 0 <= j <= |ms|
              && var s := Run(cfg, Begin(), ms[..j]);
                 && Consumed(s) && ORIGINAL in s.env.objs
                 && var d := cfg.resize(s.env.objs[ORIGINAL], side, side);
                    d.Some? && ImageAnswer(w.rows, w.objs, caller, id, size, NoFault, NoFault).body == Image(d.value)
  {
    var w, ms := WorldRun(cfg, NewWorld(), es), MovesOf(es, id);
    SizesAreGood(cfg);
    RowIdsAreSlashFree(cfg, es, id);
    UploadsAreIndependent(cfg, es, id);
    ObjsMeaning(w.objs, id);
    OwnerIsServed(w.rows, w.objs, caller, id, size, NoFault);
    var i := if side == 12 then 0 else 1;
    assert cfg.specs[i] == Spec(size, side, side);
    VariantsHaveOriginals(cfg, ms, i);
  }

  lemma SizesAreGood(cfg: Config)
    requires cfg.specs == SIZES
    ensures Good(cfg)
  {
    assert "12x12"[0] != "25x25"[0] && "12x12"[0] != "original"[0] && "25x25"[0] != "original"[0];
  }

  /** A row once made stays, with its owner and content type, whatever the rest of the world does. */
  lemma RowStaysInTheWorld(cfg: Config, es: seq<Event>, later: seq<Event>, id: string)
    requires Good(cfg) && Sane(es) && Sane(later) && SlashFree(id) && id in WorldRun(cfg, NewWorld(), es).rows
    ensures var w0, w := WorldRun(cfg, NewWorld(), es), WorldRun(cfg, NewWorld(), es + later);
            id in w.rows && w.rows[id].(status := Pending) == w0.rows[id].(status := Pending)
  {
    UploadsAreIndependent(cfg, es, id);
    UploadsAreIndependent(cfg, es + later, id);
    MovesAppend(es, later, id);
    RunSafe(cfg, Begin(), MovesOf(es, id));
    RunAppend(cfg, Begin(), MovesOf(es, id), MovesOf(later, id));
    RowStays(cfg, Run(cfg, Begin(), MovesOf(es, id)), MovesOf(later, id));
  }

  /** Two polls of the same upload, the second later, are answered with what the row says then, and these
      are in status order. */
  lemma PollsAreOrdered(cfg: Config, es: seq<Event>, later: seq<Event>, caller: string, id: string)
    requires Good(cfg) && Sane(es) && Sane(later) && Steady(MovesOf(es, id)) && Steady(MovesOf(later, id))
    requires |id| == 32 && Owns(WorldRun(cfg, NewWorld(), es).rows, caller, id)
    ensures var w0, w := WorldRun(cfg, NewWorld(), es), WorldRun(cfg, NewWorld(), es + later);
            && id in w.rows
            && var x, y := w0.rows[id].status, w.rows[id].status;
               && StatusAnswer(w0.rows, caller, id, NoFault) == Response(200, Some(JSON), StatusJson(id, x))
               && StatusAnswer(w.rows, caller, id, NoFault) == Response(200, Some(JSON), StatusJson(id, y))
               && Precedes(x, y) && (Terminal(x) ==> y == x)
  {
    var w0, w := WorldRun(cfg, NewWorld(), es), WorldRun(cfg, NewWorld(), es + later);
    RowIdsAreSlashFree(cfg, es, id);
    RowStaysInTheWorld(cfg, es, later, id);
    UploadsAreIndependent(cfg, es, id);
    UploadsAreIndependent(cfg, es + later, id);
    MovesAppend(es, later, id);
    StatusIsMonotone(cfg, MovesOf(es, id), MovesOf(later, id));
    OwnerIsTold(w0.rows, caller, id, NoFault);
    OwnerIsTold(w.rows, caller, id, NoFault);
  }
}
