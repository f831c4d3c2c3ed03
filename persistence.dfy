/** Session persistence: the behaviour the session manager relies on from a
    storage backend, the composite that writes to several backends, and the
    factory that picks the backends by name. The file and database formats
    themselves are not part of the model: a backend is the map of session
    records it holds, and whether its writes currently succeed. */
module Persistence {
  import opened Common
  import opened Session

  /** A JSON-directory or SQLite backend. */
  class Backend {
    var stored: map<string, SessionRecord>
    var writable: bool

    /** A backend opened on its storage: `stored` is what the directory or
        database already holds. */
    constructor (stored: map<string, SessionRecord>, writable: bool)
      ensures this.stored == stored && this.writable == writable
    {
      this.stored := stored;
      this.writable := writable;
    }

    /** `save`: the session's record replaces any earlier one under its id;
        a failed write reports false and changes nothing. */
    method Save(s: SessionState) returns (ok: bool)
      modifies this
      ensures ok == writable == old(writable)
      ensures stored == if ok then old(stored)[s.sessionId := s.ToDict()] else old(stored)
    {
      ok := writable;
      if ok {
        stored := stored[s.sessionId := s.ToDict()];
      }
    }

    /** `load`: a new session rebuilt from the stored record, if any. */
    method Load(id: string) returns (s: SessionState?)
      ensures s != null <==> id in stored
      ensures s != null ==> fresh(s) && s.ToDict() == stored[id]
    {
      if id in stored {
        s := new SessionState.FromDict(stored[id]);
      } else {
        s := null;
      }
    }

    /** `delete`: removing an absent session succeeds too. */
    method Delete(id: string) returns (ok: bool)
      modifies this
      ensures ok == writable == old(writable)
      ensures stored == if ok then old(stored) - {id} else old(stored)
    {
      ok := writable;
      if ok {
        stored := stored - {id};
      }
    }

    /** `list_sessions`: every stored id once, in an order the storage
        decides. */
    method ListSessions() returns (ids: seq<string>)
      ensures NoDup(ids) && forall x :: x in ids <==> x in stored
    {
      ids := SeqOfSet(stored.Keys);
    }
  }

  /** Some listing of a set's members, each once. */
  method SeqOfSet(xs: set<string>) returns (ids: seq<string>)
    ensures NoDup(ids) && forall x :: x in ids <==> x in xs
  {
    ids := [];
    var remaining := xs;
    while remaining != {}
      invariant remaining <= xs
      invariant NoDup(ids)
      invariant forall x :: x in ids <==> x in xs && x !in remaining
      decreases |remaining|
    {
      var x :| x in remaining;
      ids := ids + [x];
      remaining := remaining - {x};
    }
  }

  /** The index of the first backend holding `id`. */
  function FirstHolding(bs: seq<Backend>, id: string): (r: Option<nat>)
    reads set b | b in bs
    ensures r.Some? ==> r.value < |bs| && id in bs[r.value].stored
    ensures forall i :: 0 <= i < (if r.Some? then r.value else |bs|) ==> id !in bs[i].stored
  {
    if bs == [] then None
    else if id in bs[0].stored then Some(0)
    else
      var r := FirstHolding(bs[1..], id);
      if r.Some? then Some(r.value + 1) else None
  }

  /** The ids any backend holds. */
  function AllIds(bs: seq<Backend>): (ids: set<string>)
    reads set b | b in bs
    ensures forall x :: x in ids <==> exists i :: 0 <= i < |bs| && x in bs[i].stored
  {
    if bs == [] then {}
    else
      var rest := AllIds(bs[1..]);
      assert forall i :: 1 <= i < |bs| ==> bs[i] == bs[1..][i - 1];
      bs[0].stored.Keys + rest
  }

  /** A persistence object: one backend, or a `CompositePersistence` over
      several. A single backend answers exactly as the one-element
      composite does, so both are a sequence of backends here. */
  class Store {
    const backends: seq<Backend>

    ghost function Repr(): set<object>
    {
      set b | b in backends
    }

    constructor (backends: seq<Backend>)
      ensures this.backends == backends
    {
      this.backends := backends;
    }

    /** `CompositePersistence.save`: every backend is asked (no
        short-circuit) and the save succeeds iff every backend's does. */
    method Save(s: SessionState) returns (ok: bool)
      modifies Repr()
      ensures ok <==> forall i :: 0 <= i < |backends| ==> old(backends[i].writable)
      ensures forall b :: b in backends ==> b.writable == old(b.writable)
      ensures forall b :: b in backends ==>
                b.stored == if old(b.writable) then old(b.stored)[s.sessionId := s.ToDict()] else old(b.stored)
    {
      ok := true;
      var i := 0;
      while i < |backends|
        invariant 0 <= i <= |backends|
        invariant forall b :: b in backends ==> b.writable == old(b.writable)
        invariant ok <==> forall j :: 0 <= j < i ==> old(backends[j].writable)
        invariant forall b :: b in backends[..i] ==>
                    b.stored == if old(b.writable) then old(b.stored)[s.sessionId := s.ToDict()] else old(b.stored)
        invariant forall b :: b in backends && b !in backends[..i] ==> b.stored == old(b.stored)
        invariant s.ToDict() == old(s.ToDict())
      {
        var r := backends[i].Save(s);
        ok := ok && r;
        assert backends[..i + 1] == backends[..i] + [backends[i]];
        i := i + 1;
      }
      assert backends[..i] == backends;
    }

    /** `CompositePersistence.load`: the first backend, in order, that
        holds the session supplies it. */
    method Load(id: string) returns (s: SessionState?)
      ensures s != null <==> FirstHolding(backends, id).Some?
      ensures s != null ==> fresh(s) && s.ToDict() == backends[FirstHolding(backends, id).value].stored[id]
    {
      var i := 0;
      while i < |backends|
        invariant 0 <= i <= |backends|
        invariant forall j :: 0 <= j < i ==> id !in backends[j].stored
      {
        s := backends[i].Load(id);
        if s != null {
          return s;
        }
        i := i + 1;
      }
      s := null;
    }

    /** `CompositePersistence.delete`: every backend is asked and the
        delete succeeds iff every backend's does. */
    method Delete(id: string) returns (ok: bool)
      modifies Repr()
      ensures ok <==> forall i :: 0 <= i < |backends| ==> old(backends[i].writable)
      ensures forall b :: b in backends ==> b.writable == old(b.writable)
      ensures forall b :: b in backends ==> b.stored == if old(b.writable) then old(b.stored) - {id} else old(b.stored)
    {
      ok := true;
      var i := 0;
      while i < |backends|
        invariant 0 <= i <= |backends|
        invariant forall b :: b in backends ==> b.writable == old(b.writable)
        invariant ok <==> forall j :: 0 <= j < i ==> old(backends[j].writable)
        invariant forall b :: b in backends[..i] ==>
                    b.stored == if old(b.writable) then old(b.stored) - {id} else old(b.stored)
        invariant forall b :: b in backends && b !in backends[..i] ==> b.stored == old(b.stored)
      {
        var r := backends[i].Delete(id);
        ok := ok && r;
        assert backends[..i + 1] == backends[..i] + [backends[i]];
        i := i + 1;
      }
      assert backends[..i] == backends;
    }

    /** `CompositePersistence.list_sessions`: the union of every backend's
        ids, each once. */
    method ListSessions() returns (ids: seq<string>)
      ensures NoDup(ids) && forall x :: x in ids <==> x in AllIds(backends)
    {
      var all: set<string> := {};
      var i := 0;
      while i < |backends|
        invariant 0 <= i <= |backends|
        invariant forall x :: x in all <==> exists j :: 0 <= j < i && x in backends[j].stored
      {
        var listed := backends[i].ListSessions();
        all := all + (set x | x in listed);
        i := i + 1;
      }
      ids := SeqOfSet(all);
    }
  }

  /** The persistence kinds `get_persistence` knows. */
  datatype Kind = JsonFiles | Sqlite | Both

  /** `get_persistence`'s dispatch on its type name. */
  function ParseKind(t: string): (r: Result<Kind>)
    ensures r == Ok(JsonFiles) <==> t == "json"
    ensures r == Ok(Sqlite) <==> t == "sqlite"
    ensures r == Ok(Both) <==> t == "both"
    ensures r.Err? <==> t != "json" && t != "sqlite" && t != "both"
    ensures r.Err? ==> r.msg == "Unknown persistence type: " + t
  {
    if t == "json" then Ok(JsonFiles)
    else if t == "sqlite" then Ok(Sqlite)
    else if t == "both" then Ok(Both)
    else Err("Unknown persistence type: " + t)
  }

  /** `get_persistence`: a JSON backend, a SQLite backend, or a composite
      of a new JSON and a new SQLite backend; any other name raises
      `ValueError`. The JSON directory and the SQLite database are given by
      what they already hold and whether writes to them succeed. */
  method GetPersistence(t: string, jsonStored: map<string, SessionRecord>, jsonWritable: bool,
                        sqliteStored: map<string, SessionRecord>, sqliteWritable: bool)
    returns (r: Result<Store>)
    ensures r.Err? <==> ParseKind(t).Err?
    ensures r.Err? ==> r.msg == ParseKind(t).msg
    ensures r.Ok? ==> fresh(r.value) && |r.value.backends| == (if t == "both" then 2 else 1)
    ensures r.Ok? ==> forall b :: b in r.value.backends ==> fresh(b)
    ensures r.Ok? && t != "sqlite" ==>
              r.value.backends[0].stored == jsonStored && r.value.backends[0].writable == jsonWritable
    ensures r.Ok? && t == "sqlite" ==>
              r.value.backends[0].stored == sqliteStored && r.value.backends[0].writable == sqliteWritable
    ensures r.Ok? && t == "both" ==>
              && r.value.backends[0] != r.value.backends[1]
              && r.value.backends[1].stored == sqliteStored && r.value.backends[1].writable == sqliteWritable
  {
    var kind := ParseKind(t);
    if kind.Err? {
      return Err(kind.msg);
    }
    if kind.value == Sqlite {
      var only := new Backend(sqliteStored, sqliteWritable);
      var store := new Store([only]);
      r := Ok(store);
    } else {
      var json := new Backend(jsonStored, jsonWritable);
      if kind.value == Both {
        var sqlite := new Backend(sqliteStored, sqliteWritable);
        var store := new Store([json, sqlite]);
        r := Ok(store);
      } else {
        var store := new Store([json]);
        r := Ok(store);
      }
    }
  }
}
