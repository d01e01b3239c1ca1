/** The keys of the shared bucket and of the workflow engine, and what lies under one id. */
module Keys {
  import opened Types

  function ObjectKey(id: string, name: string): string {
    id + "/" + name
  }

  function WorkflowId(id: string): string {
    "upload-" + id
  }

  /** Ids are made of hexadecimal digits; all that matters is that none is a slash. */
  predicate SlashFree(id: string) {
    '/' !in id
  }

  lemma SlashMarksTheEnd(id: string, name: string)
    requires SlashFree(id)
    ensures ObjectKey(id, name)[|id|] == '/'
    ensures forall i :: 0 <= i < |id| ==> ObjectKey(id, name)[i] != '/'
    ensures ObjectKey(id, name)[..|id|] == id && ObjectKey(id, name)[|id| + 1..] == name
  {
  }

  /** The key of a slash-free id determines the id and the name, whatever the names. */
  lemma ObjectKeyInjective(id: string, name: string, id': string, name': string)
    requires SlashFree(id) && SlashFree(id') && ObjectKey(id, name) == ObjectKey(id', name')
    ensures id == id' && name == name'
  {
    SlashMarksTheEnd(id, name);
    SlashMarksTheEnd(id', name');
  }

  lemma WorkflowIdInjective(id: string, id': string)
    ensures WorkflowId(id) == WorkflowId(id') ==> id == id'
  {
    assert WorkflowId(id)[7..] == id && WorkflowId(id')[7..] == id';
  }

  // ---- What lies under an id ----

  function Find<T>(m: map<string, T>, k: string): Option<T> {
    if k in m then Some(m[k]) else None
  }

  predicate Under(id: string, key: string) {
    |id| < |key| && key[..|id| + 1] == id + "/"
  }

  /** The names stored under an id. */
  function NamesOf(objs: map<string, Bytes>, id: string): set<string> {
    set key | key in objs && Under(id, key) :: key[|id| + 1..]
  }

  function ObjsOf(objs: map<string, Bytes>, id: string): map<string, Bytes> {
    NamesMeaning(objs, id);
    map name | name in NamesOf(objs, id) :: objs[ObjectKey(id, name)]
  }

  lemma ObjsMeaning(objs: map<string, Bytes>, id: string)
    ensures forall name :: name in ObjsOf(objs, id) <==> ObjectKey(id, name) in objs
    ensures forall name :: name in ObjsOf(objs, id) ==> ObjsOf(objs, id)[name] == objs[ObjectKey(id, name)]
  {
    NamesMeaning(objs, id);
  }

  lemma NamesMeaning(objs: map<string, Bytes>, id: string)
    ensures forall name :: name in NamesOf(objs, id) <==> ObjectKey(id, name) in objs
  {
    forall name
      ensures name in NamesOf(objs, id) <==> ObjectKey(id, name) in objs
    {
      var key := ObjectKey(id, name);
      assert key[..|id| + 1] == id + "/" && key[|id| + 1..] == name;
      forall other | other in objs && Under(id, other) && other[|id| + 1..] == name
        ensures other == key
      {
        assert other == other[..|id| + 1] + other[|id| + 1..];
      }
    }
  }

  lemma FindUnder(objs: map<string, Bytes>, id: string, name: string)
    ensures Find(ObjsOf(objs, id), name) == Find(objs, ObjectKey(id, name))
  {
    ObjsMeaning(objs, id);
  }

  lemma KeysMeet(id: string, name: string, other: string, n: string)
    requires other == id || (SlashFree(id) && SlashFree(other))
    requires ObjectKey(other, n) == ObjectKey(id, name)
    ensures other == id && n == name
  {
    if other == id {
      assert ObjectKey(id, n)[|id| + 1..] == n && ObjectKey(id, name)[|id| + 1..] == name;
    } else {
      ObjectKeyInjective(id, name, other, n);
    }
  }

  lemma StoreUnder(objs: map<string, Bytes>, id: string, name: string, d: Bytes, other: string)
    requires other == id || (SlashFree(id) && SlashFree(other))
    ensures ObjsOf(objs[ObjectKey(id, name) := d], other)
            == if other == id then ObjsOf(objs, id)[name := d] else ObjsOf(objs, other)
  {
    ObjsMeaning(objs, other);
    ObjsMeaning(objs[ObjectKey(id, name) := d], other);
    forall n | ObjectKey(other, n) == ObjectKey(id, name)
      ensures other == id && n == name
    {
      KeysMeet(id, name, other, n);
    }
  }

  lemma RemoveUnder(objs: map<string, Bytes>, id: string, name: string, other: string)
    requires other == id || (SlashFree(id) && SlashFree(other))
    ensures ObjsOf(objs - {ObjectKey(id, name)}, other)
            == if other == id then ObjsOf(objs, id) - {name} else ObjsOf(objs, other)
  {
    ObjsMeaning(objs, other);
    ObjsMeaning(objs - {ObjectKey(id, name)}, other);
    forall n | ObjectKey(other, n) == ObjectKey(id, name)
      ensures other == id && n == name
    {
      KeysMeet(id, name, other, n);
    }
  }
}
