/** The object store, as the map from keys to bytes that its interface promises. Every call is told
    how it goes wrong, so the worst the network can do is part of each contract. */
module Storage {
  import opened Types

  /** A presigned URL: what it allows, and until when. */
  datatype Url = Url(key: string, verb: string, expires: nat)

  function Lookup(objs: map<string, Bytes>, key: string, fault: Fault): Try<Bytes> {
    if !fault.NoFault? then Failure(Unavailable)
    else if key in objs then Success(objs[key])
    else Failure(NotFound)
  }

  class ObjectStore {
    var objs: map<string, Bytes>
    /** The content type each object was stored with. Nothing in the protocol reads it. */
    var types: map<string, string>

    constructor ()
      ensures objs == map[] && types == map[]
    {
      objs, types := map[], map[];
    }

    function TypeOf(key: string): string
      reads this
    {
      if key in types then types[key] else ""
    }

    method Get(key: string, fault: Fault) returns (r: Try<Bytes>)
      ensures r == Lookup(objs, key, fault)
      ensures r.Success? <==> fault.NoFault? && key in objs
      ensures r.Failure? ==> r.problem == if fault.NoFault? then NotFound else Unavailable
    {
      if !fault.NoFault? {
        return Failure(Unavailable);
      }
      if key !in objs {
        return Failure(NotFound);
      }
      r := Success(objs[key]);
    }

    /** At most the first `n` bytes: all of a shorter object. */
    method GetFirstNBytes(key: string, n: nat, fault: Fault) returns (r: Try<Bytes>)
      requires n > 0
      ensures r.Success? <==> fault.NoFault? && key in objs
      ensures r.Success? ==> r.value <= objs[key] && |r.value| == if n <= |objs[key]| then n else |objs[key]|
      ensures r.Failure? ==> r.problem == if fault.NoFault? then NotFound else Unavailable
    {
      var all := Get(key, fault);
      if all.Failure? {
        return all;
      }
      r := Success(if n <= |all.value| then all.value[..n] else all.value);
    }

    /** The size and the content type it was stored with. */
    method Head(key: string, fault: Fault) returns (r: Try<(nat, string)>)
      ensures r.Success? <==> fault.NoFault? && key in objs
      ensures r.Success? ==> r.value == (|objs[key]|, TypeOf(key))
      ensures r.Failure? ==> r.problem == if fault.NoFault? then NotFound else Unavailable
    {
      var all := Get(key, fault);
      if all.Failure? {
        return Failure(all.problem);
      }
      r := Success((|all.value|, TypeOf(key)));
    }

    /** Overwrites; a lost acknowledgement leaves the object written and reports an error. */
    method Put(key: string, data: Bytes, contentType: string, fault: Fault) returns (ok: bool)
      modifies this
      ensures ok == fault.NoFault?
      ensures objs == if fault.Before? then old(objs) else old(objs)[key := data]
      ensures types == if fault.Before? then old(types) else old(types)[key := contentType]
    {
      if !fault.Before? {
        objs, types := objs[key := data], types[key := contentType];
      }
      ok := fault.NoFault?;
    }

    /** Deleting a key that is not there is no error. */
    method Delete(key: string, fault: Fault) returns (ok: bool)
      modifies this
      ensures ok == fault.NoFault?
      ensures objs == if fault.Before? then old(objs) else old(objs) - {key}
      ensures types == if fault.Before? then old(types) else old(types) - {key}
    {
      if !fault.Before? {
        objs, types := objs - {key}, types - {key};
      }
      ok := fault.NoFault?;
    }

    method Presign(key: string, verb: string, ttl: nat, now: nat, fault: Fault) returns (r: Try<Url>)
      ensures r.Success? <==> (verb == "PUT" || verb == "GET") && fault.NoFault?
      ensures r.Success? ==> r.value == Url(key, verb, now + ttl)
      ensures r.Failure? ==> r.problem == if verb == "PUT" || verb == "GET" then Unavailable else Unsupported
    {
      if verb != "PUT" && verb != "GET" {
        return Failure(Unsupported);
      }
      if !fault.NoFault? {
        return Failure(Unavailable);
      }
      r := Success(Url(key, verb, now + ttl));
    }

    /** The store's side of a presigned URL: a PUT of its key is accepted until it expires, with
        whatever content type the client says. */
    method Accept(url: Url, data: Bytes, contentType: string, now: nat) returns (ok: bool)
      modifies this
      ensures ok == (url.verb == "PUT" && now < url.expires)
      ensures objs == if ok then old(objs)[url.key := data] else old(objs)
      ensures types == if ok then old(types)[url.key := contentType] else old(types)
    {
      ok := url.verb == "PUT" && now < url.expires;
      if ok {
        objs, types := objs[url.key := data], types[url.key := contentType];
      }
    }
  }
}
