/** The HTTP handlers that observe the protocol, and what an owner can see through them. */
module Transport {
  import opened Types
  import opened Keys
  import Metadata
  import Storage
  import Pipeline
  import Uploads
  import World

  datatype ImageSummary =
    ImageSummary(id: string, filename: string, contentType: string, status: Status, created: nat)

  datatype Body =
    | Empty
    | Text(message: string)
    | StatusJson(id: string, status: Status)
    | ListJson(images: seq<ImageSummary>)
    | Image(data: Bytes)

  datatype Response = Response(code: nat, contentType: Option<string>, body: Body)

  const TEXT: string := "text/plain; charset=utf-8"
  const JSON: string := "application/json"
  const ID_LENGTH: nat := 32

  /** A response as it is written: the first status code written is the one sent. */
  class ResponseWriter {
    var code: Option<nat>
    var contentType: Option<string>
    var body: Body

    constructor ()
      ensures Blank()
    {
      code, contentType, body := None, None, Empty;
    }

    predicate Blank()
      reads this
    {
      code.None? && contentType.None? && body.Empty?
    }

    predicate Sent(r: Response)
      reads this
    {
      code == Some(r.code) && contentType == r.contentType && body == r.body
    }

    method SetContentType(ct: string)
      modifies this
      ensures contentType == Some(ct) && code == old(code) && body == old(body)
    {
      contentType := Some(ct);
    }

    method WriteHeader(n: nat)
      modifies this
      ensures code == (if old(code).None? then Some(n) else old(code))
      ensures contentType == old(contentType) && body == old(body)
    {
      if code.None? {
        code := Some(n);
      }
    }

    /** The first write sends 200 if no status code was written. */
    method Write(b: Body)
      modifies this
      ensures code == (if old(code).None? then Some(200) else old(code))
      ensures contentType == old(contentType) && body == b
    {
      WriteHeader(200);
      body := b;
    }

    method Error(message: string, n: nat)
      modifies this
      ensures old(code).None? ==> Sent(Refusal(n, message))
    {
      SetContentType(TEXT);
      WriteHeader(n);
      Write(Text(message));
    }

    method WriteJson(n: nat, b: Body)
      modifies this
      ensures old(code).None? ==> Sent(Response(n, Some(JSON), b))
    {
      SetContentType(JSON);
      WriteHeader(n);
      Write(b);
    }
  }

  function Refusal(n: nat, message: string): Response {
    Response(n, Some(TEXT), Text(message))
  }

  // ---- The answers, as functions of what is stored ----

  datatype Check = Granted(status: Status, contentType: string) | Denied(r: Response)

  /** A foreign id and a missing one are refused alike. */
  function CheckOwner(rows: map<string, Row>, caller: string, id: string, lookup: Fault): Check {
    match Metadata.Lookup(rows, id, lookup)
    case Failure(NotFound) => Denied(Refusal(404, "Not found"))
    case Failure(_) => Denied(Refusal(500, "Server error"))
    case Success(f) =>
      if f.owner != caller then Denied(Refusal(404, "Not found")) else Granted(f.status, f.contentType)
  }

  function StatusAnswer(rows: map<string, Row>, caller: string, id: string, lookup: Fault): Response {
    if |id| != ID_LENGTH then Refusal(400, "Invalid ID")
    else
      match CheckOwner(rows, caller, id, lookup)
      case Denied(r) => r
      case Granted(st, _) => Response(200, Some(JSON), StatusJson(id, st))
  }

  predicate AcceptedSize(size: string) {
    size == "original" || size == "12x12" || size == "25x25"
  }

  function ImageAnswer(rows: map<string, Row>, objs: map<string, Bytes>, caller: string, id: string, size: string,
                       lookup: Fault, get: Fault): Response {
    if |id| != ID_LENGTH then Refusal(400, "Invalid ID")
    else
      match CheckOwner(rows, caller, id, lookup)
      case Denied(r) => r
      case Granted(_, ct) =>
        if !AcceptedSize(size) then Refusal(400, "Invalid or missing size")
        else
          match Storage.Lookup(objs, ObjectKey(id, size), get)
          case Failure(_) => Refusal(404, "Image not found")
          case Success(data) => Response(200, Some(ct), Image(data))
  }

  function CompleteAnswer(rows: map<string, Row>, caller: string, id: string, lookup: Fault, signal: Fault): Response {
    if |id| != ID_LENGTH then Refusal(400, "Invalid ID")
    else
      match CheckOwner(rows, caller, id, lookup)
      case Denied(r) => r
      case Granted(_, _) =>
        if signal.NoFault? then Response(200, None, Empty) else Refusal(500, "could not complete upload")
  }

  function Summarize(u: Metadata.Upload): ImageSummary {
    ImageSummary(u.id, u.filename, u.contentType, u.status, u.created)
  }

  /** The answers List can be given: a listing of the caller's uploads, newest first. */
  ghost predicate IsListAnswer(rows: map<string, Row>, caller: string, r: Response) {
    && r.code == 200 && r.contentType == Some(JSON) && r.body.ListJson?
    && exists l :: Metadata.IsListing(rows, caller, l) && Renders(r.body.images, l)
  }

  predicate Renders(images: seq<ImageSummary>, l: seq<Metadata.Upload>) {
    |images| == |l| && forall i :: 0 <= i < |l| ==> images[i] == Summarize(l[i])
  }

  // ---- The handlers ----

  class Server {
    const repo: Metadata.Repository
    const store: Storage.ObjectStore
    const uploads: Uploads.Service

    constructor (repo: Metadata.Repository, store: Storage.ObjectStore, uploads: Uploads.Service)
      ensures this.repo == repo && this.store == store && this.uploads == uploads
    {
      this.repo := repo;
      this.store := store;
      this.uploads := uploads;
    }

    /** Either grants with nothing written, or has already written the refusal. */
    method RequireOwner(w: ResponseWriter, caller: string, id: string, lookup: Fault)
      returns (st: Status, ct: string, ok: bool)
      requires w.Blank()
      modifies w
      ensures match CheckOwner(repo.rows, caller, id, lookup)
              case Granted(s, c) => ok && st == s && ct == c && w.Blank()
              case Denied(r) => !ok && w.Sent(r)
    {
      st, ct, ok := Pending, "", false;
      var found := repo.Get(id, lookup);
      if found.Failure? {
        if found.problem.NotFound? {
          w.Error("Not found", 404);
        } else {
          w.Error("Server error", 500);
        }
        return;
      }
      if found.value.owner != caller {
        w.Error("Not found", 404);
        return;
      }
      return found.value.status, found.value.contentType, true;
    }

    method ImageStatus(w: ResponseWriter, caller: string, id: string, lookup: Fault)
      requires w.Blank()
      modifies w
      ensures w.Sent(StatusAnswer(repo.rows, caller, id, lookup))
    {
      if |id| != ID_LENGTH {
        w.Error("Invalid ID", 400);
        return;
      }
      var st, ct, ok := RequireOwner(w, caller, id, lookup);
      if !ok {
        return;
      }
      w.WriteJson(200, StatusJson(id, st));
    }

    method Images(w: ResponseWriter, caller: string, id: string, size: string, lookup: Fault, get: Fault)
      requires w.Blank()
      modifies w
      ensures w.Sent(ImageAnswer(repo.rows, store.objs, caller, id, size, lookup, get))
    {
      if |id| != ID_LENGTH {
        w.Error("Invalid ID", 400);
        return;
      }
      var st, ct, ok := RequireOwner(w, caller, id, lookup);
      if !ok {
        return;
      }
      if size != "original" && size != "12x12" && size != "25x25" {
        w.Error("Invalid or missing size", 400);
        return;
      }
      var data := store.Get(ObjectKey(id, size), get);
      if data.Failure? {
        w.Error("Image not found", 404);
        return;
      }
      w.SetContentType(ct);
      w.Write(Image(data.value));
    }

    /** The signal is sent only once the caller has been found to own the upload. */
    method CompleteUpload(w: ResponseWriter, caller: string, id: string, lookup: Fault, signal: Fault)
      requires w.Blank()
      modifies w, uploads.pipe
      ensures w.Sent(CompleteAnswer(repo.rows, caller, id, lookup, signal))
      ensures uploads.pipe.wfs ==
              if |id| == 32 && lookup.NoFault? && id in repo.rows && repo.rows[id].owner == caller
              then Pipeline.Signalled(old(uploads.pipe.wfs), id, signal) else old(uploads.pipe.wfs)
    {
      if |id| != ID_LENGTH {
        w.Error("Invalid ID", 400);
        return;
      }
      var st, ct, ok := RequireOwner(w, caller, id, lookup);
      if !ok {
        return;
      }
      var sent := uploads.Complete(id, 0, signal);
      if !sent {
        w.Error("could not complete upload", 500);
        return;
      }
      w.WriteHeader(200);
    }

    method ListImages(w: ResponseWriter, caller: string, query: Fault, scan: Option<nat>, end: Fault)
      requires w.Blank()
      modifies w
      ensures if query.NoFault? && end.NoFault? && (scan.Some? ==> scan.value >= |Metadata.Owned(repo.rows, caller)|)
              then exists r :: w.Sent(r) && IsListAnswer(repo.rows, caller, r)
              else w.Sent(Refusal(500, "could not list images"))
    {
      var l, ok := repo.List(caller, query, scan, end);
      if !ok {
        w.Error("could not list images", 500);
        return;
      }
      var images: seq<ImageSummary> := [];
      for i := 0 to |l|
        invariant |images| == i
        invariant forall j :: 0 <= j < i ==> images[j] == Summarize(l[j])
      {
        var u := l[i];
        images := images + [ImageSummary(u.id, u.filename, u.contentType, u.status, u.created)];
      }
      assert Renders(images, l);
      w.WriteJson(200, ListJson(images));
      assert w.Sent(Response(200, Some(JSON), ListJson(images)));
    }
  }
}
