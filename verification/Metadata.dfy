/** The uploads table and its four statements. */
module Metadata {
  import opened Types

  /** One row as List returns it. */
  datatype Upload = Upload(id: string, filename: string, contentType: string, status: Status, created: nat)

  datatype Found = Found(status: Status, owner: string, contentType: string)

  function WithStatus(rows: map<string, Row>, id: string, st: Status): map<string, Row> {
    if id in rows then rows[id := rows[id].(status := st)] else rows
  }

  function Summary(rows: map<string, Row>, id: string): Upload
    requires id in rows
  {
    Upload(id, rows[id].filename, rows[id].contentType, rows[id].status, rows[id].created)
  }

  /** What Get returns. */
  function Lookup(rows: map<string, Row>, id: string, fault: Fault): Try<Found> {
    if !fault.NoFault? then Failure(Unavailable)
    else if id in rows then Success(Found(rows[id].status, rows[id].owner, rows[id].contentType))
    else Failure(NotFound)
  }

  /** The ids of an owner's uploads. */
  function Owned(rows: map<string, Row>, owner: string): set<string> {
    set id | id in rows && rows[id].owner == owner
  }

  function Ids(l: seq<Upload>): set<string> {
    set i | 0 <= i < |l| :: l[i].id
  }

  /** Distinct uploads as the table shows them, newest first. */
  ghost predicate NewestFirst(rows: map<string, Row>, l: seq<Upload>) {
    && (forall i :: 0 <= i < |l| ==> l[i].id in rows && l[i] == Summary(rows, l[i].id))
    && (forall i, j :: 0 <= i < j < |l| ==> l[i].id != l[j].id && l[i].created >= l[j].created)
  }

  /** What List promises: every upload of the owner and no other, once, newest first. */
  ghost predicate IsListing(rows: map<string, Row>, owner: string, l: seq<Upload>) {
    NewestFirst(rows, l) && Ids(l) == Owned(rows, owner)
  }

  /** A listing of all the owner's uploads but those in `left`, none of which is newer. */
  ghost predicate ListsAllBut(rows: map<string, Row>, owner: string, l: seq<Upload>, left: set<string>) {
    && left <= Owned(rows, owner)
    && NewestFirst(rows, l) && Ids(l) == Owned(rows, owner) - left
    && (forall i, id :: 0 <= i < |l| && id in left ==> l[i].created >= rows[id].created)
  }

  lemma ListNext(rows: map<string, Row>, owner: string, l: seq<Upload>, left: set<string>, id: string)
    requires ListsAllBut(rows, owner, l, left) && id in left
    requires forall other :: other in left ==> rows[other].created <= rows[id].created
    ensures ListsAllBut(rows, owner, l + [Summary(rows, id)], left - {id})
  {
    IdsSnoc(l, Summary(rows, id));
    assert forall i :: 0 <= i < |l| ==> l[i].id in Ids(l);
  }

  lemma IdsSnoc(l: seq<Upload>, u: Upload)
    ensures Ids(l + [u]) == Ids(l) + {u.id}
  {
    forall i | 0 <= i < |l|
      ensures l[i].id in Ids(l + [u])
    {
      assert (l + [u])[i] == l[i];
    }
    assert (l + [u])[|l|] == u;
  }

  class Repository {
    var rows: map<string, Row>

    constructor ()
      ensures rows == map[]
    {
      rows := map[];
    }

    /** The id is the primary key: inserting one that exists is an error. */
    method Create(id: string, filename: string, contentType: string, status: Status, owner: string, now: nat,
                  fault: Fault) returns (ok: bool)
      modifies this
      ensures ok == (fault.NoFault? && id !in old(rows))
      ensures rows == if fault.Before? || id in old(rows) then old(rows)
                      else old(rows)[id := Row(filename, contentType, status, owner, now)]
    {
      if fault.Before? || id in rows {
        return false;
      }
      rows := rows[id := Row(filename, contentType, status, owner, now)];
      ok := fault.NoFault?;
    }

    /** Updating a row that does not exist changes nothing and is no error. */
    method UpdateStatus(id: string, st: Status, fault: Fault) returns (ok: bool)
      modifies this
      ensures ok == fault.NoFault?
      ensures rows == if fault.Before? then old(rows) else WithStatus(old(rows), id, st)
    {
      if !fault.Before? && id in rows {
        rows := rows[id := rows[id].(status := st)];
      }
      ok := fault.NoFault?;
    }

    method Get(id: string, fault: Fault) returns (r: Try<Found>)
      ensures r == Lookup(rows, id, fault)
    {
      if !fault.NoFault? {
        return Failure(Unavailable);
      }
      if id !in rows {
        return Failure(NotFound);
      }
      r := Success(Found(rows[id].status, rows[id].owner, rows[id].contentType));
    }

    /** The database's part of List: ORDER BY created_at DESC, ties in any order. */
    method Query(owner: string) returns (l: seq<Upload>)
      ensures IsListing(rows, owner, l)
    {
      var left := set id | id in rows && rows[id].owner == owner;
      l := [];
      while left != {}
        invariant ListsAllBut(rows, owner, l, left)
        decreases |left|
      {
        NewestExists(rows, left);
        var id :| id in left && forall other :: other in left ==> rows[other].created <= rows[id].created;
        ListNext(rows, owner, l, left, id);
        l := l + [Summary(rows, id)];
        left := left - {id};
      }
    }

    /** List, with the query failing, the scan of row number `scan` failing, or the connection lost
        at the end: any of these is an error, and without one the slice is a full listing. */
    method List(owner: string, query: Fault, scan: Option<nat>, end: Fault) returns (l: seq<Upload>, ok: bool)
      ensures ok ==> IsListing(rows, owner, l)
      ensures ok <==>
                query.NoFault? && end.NoFault? && (scan.Some? ==> scan.value >= |Owned(rows, owner)|)
    {
      if !query.NoFault? {
        return [], false;
      }
      var found := Query(owner);
      ListingLength(rows, owner, found);
      l := [];
      for i := 0 to |found|
        invariant l == found[..i]
        invariant scan.Some? ==> scan.value >= i
      {
        if scan == Some(i) {
          return [], false;
        }
        l := l + [found[i]];
      }
      ok := end.NoFault?;
    }
  }

  lemma {:induction false} NewestExists(rows: map<string, Row>, ids: set<string>)
    requires ids != {} && forall id :: id in ids ==> id in rows
    ensures exists id :: id in ids && forall other :: other in ids ==> rows[other].created <= rows[id].created
    decreases |ids|
  {
    var id :| id in ids;
    var rest := ids - {id};
    if rest == {} {
      assert ids == {id};
    } else {
      NewestExists(rows, rest);
      var best :| best in rest && forall other :: other in rest ==> rows[other].created <= rows[best].created;
      var top := if rows[best].created <= rows[id].created then id else best;
      assert top in ids && forall other :: other in ids ==> other == id || other in rest;
    }
  }

  /** An id is in an owner's listing exactly when Get reports that owner, and with the same status
      and content type. */
  lemma ListedMeansOwned(rows: map<string, Row>, owner: string, l: seq<Upload>, id: string)
    requires IsListing(rows, owner, l)
    ensures id in Ids(l)
            <==> Lookup(rows, id, NoFault).Success? && Lookup(rows, id, NoFault).value.owner == owner
    ensures forall i :: 0 <= i < |l| && l[i].id == id ==>
              Lookup(rows, id, NoFault) == Success(Found(l[i].status, owner, l[i].contentType))
  {
  }

  /** When no two of the owner's uploads were created at the same time, the listing is unique. */
  lemma {:induction false} ListingIsUnique(rows: map<string, Row>, owner: string, k: seq<Upload>, l: seq<Upload>)
    requires IsListing(rows, owner, k) && IsListing(rows, owner, l)
    requires forall a, b :: a in rows && b in rows && rows[a].owner == owner == rows[b].owner && a != b ==>
               rows[a].created != rows[b].created
    ensures k == l
  {
    ListingLength(rows, owner, k);
    ListingLength(rows, owner, l);
    var i := 0;
    while i < |k|
      invariant 0 <= i <= |k| == |l|
      invariant k[..i] == l[..i]
    {
      NextIsSame(rows, owner, k, l, i);
      assert k[..i + 1] == k[..i] + [k[i]] && l[..i + 1] == l[..i] + [l[i]];
      i := i + 1;
    }
    assert k[..i] == k && l[..i] == l;
  }

  lemma {:induction false} CountIds(l: seq<Upload>)
    requires forall i, j :: 0 <= i < j < |l| ==> l[i].id != l[j].id
    ensures |Ids(l)| == |l|
    decreases |l|
  {
    if l != [] {
      var k := |l| - 1;
      CountIds(l[..k]);
      IdsSnoc(l[..k], l[k]);
      assert l == l[..k] + [l[k]];
    } else {
      assert Ids(l) == {};
    }
  }

  lemma ListingLength(rows: map<string, Row>, owner: string, l: seq<Upload>)
    requires IsListing(rows, owner, l)
    ensures |l| == |Owned(rows, owner)|
  {
    CountIds(l);
  }

  /** Where two listings agree so far, the next entries agree: each is the newest one left. */
  lemma NextIsSame(rows: map<string, Row>, owner: string, k: seq<Upload>, l: seq<Upload>, i: nat)
    requires IsListing(rows, owner, k) && IsListing(rows, owner, l)
    requires forall a, b :: a in rows && b in rows && rows[a].owner == owner == rows[b].owner && a != b ==>
               rows[a].created != rows[b].created
    requires i < |k| == |l| && k[..i] == l[..i]
    ensures k[i] == l[i]
  {
    LaterIn(rows, owner, k, l, i);
    LaterIn(rows, owner, l, k, i);
    assert k[i].id in Ids(k) && l[i].id in Ids(l);
  }

  /** `k[i]` occurs in `l` at or after position `i`, so it is no newer than `l[i]`. */
  lemma LaterIn(rows: map<string, Row>, owner: string, k: seq<Upload>, l: seq<Upload>, i: nat)
    requires IsListing(rows, owner, k) && IsListing(rows, owner, l)
    requires i < |k| == |l| && k[..i] == l[..i]
    ensures l[i].created >= k[i].created
  {
    forall j | 0 <= j < i
      ensures k[j] == l[j]
    {
      assert k[j] == k[..i][j];
    }
    assert k[i].id in Ids(l) by {
      assert k[i].id in Ids(k);
    }
  }
}
