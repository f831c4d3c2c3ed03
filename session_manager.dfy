/** The `SessionManager` of state/session.py: an in-memory cache of sessions
    by id (in insertion order), the current session, and optional
    persistence behind the cache. */
module SessionManagement {
  import opened Common
  import opened Session
  import opened Persistence

  /** A key order after deleting `id` from the dict. */
  function Without(order: seq<string>, id: string): (r: seq<string>)
    ensures forall x :: x in r <==> x in order && x != id
  {
    if order == [] then []
    else Without(order[..|order| - 1], id) + (if order[|order| - 1] == id then [] else [order[|order| - 1]])
  }

  lemma {:induction false} WithoutNoDup(order: seq<string>, id: string)
    requires NoDup(order)
    ensures NoDup(Without(order, id))
  {
    if order != [] {
      var init := order[..|order| - 1];
      var last := order[|order| - 1];
      assert NoDup(init) by {
        forall i, j | 0 <= i < j < |init| ensures init[i] != init[j]
        {
          assert init[i] == order[i] && init[j] == order[j];
        }
      }
      WithoutNoDup(init, id);
      var w := Without(init, id);
      if last != id {
        forall k | 0 <= k < |init| ensures init[k] != last
        {
          assert init[k] == order[k];
        }
        assert last !in init;
        var r := w + [last];
        forall i, j | 0 <= i < j < |r| ensures r[i] != r[j]
        {
          assert r[i] == w[i] && w[i] in init;
          if j < |w| {
            assert r[j] == w[j];
          }
        }
      }
    }
  }

  /** The summaries of the cached sessions in cache order; the first
      summary that raises ends the listing. */
  function SummariesOf(order: seq<string>, sessions: map<string, SessionState>): (r: Result<seq<Summary>>)
    requires forall k :: k in order ==> k in sessions
    reads set k | k in sessions :: sessions[k]
    ensures r.Ok? ==> |r.value| == |order|
    ensures r.Ok? ==> forall i :: 0 <= i < |order| ==> Ok(r.value[i]) == SummaryOf(sessions[order[i]].ToDict())
  {
    if order == [] then Ok([])
    else
      var init := SummariesOf(order[..|order| - 1], sessions);
      var s := sessions[order[|order| - 1]].GetSummary();
      if init.Err? then init
      else if s.Err? then Err(s.msg)
      else Ok(init.value + [s.value])
  }

  class SessionManager {
    const persistence: Store?
    var current: SessionState?
    var sessions: map<string, SessionState>
    var order: seq<string>

    /** The cache's key order lists each cached id once. */
    ghost predicate Valid()
      reads this
    {
      NoDup(order) && forall k :: k in order <==> k in sessions
    }

    ghost function Backends(): set<object>
    {
      if persistence == null then {} else persistence.Repr()
    }

    predicate AllWritable()
      reads this, Backends()
      requires persistence != null
    {
      forall i :: 0 <= i < |persistence.backends| ==> persistence.backends[i].writable
    }

    constructor (persistence: Store?)
      ensures Valid() && this.persistence == persistence
      ensures current == null && sessions == map[] && order == []
    {
      this.persistence := persistence;
      current := null;
      sessions := map[];
      order := [];
    }

    /** `create_session`: the new session is cached under its id, becomes
        current, and is saved when persistence is configured. */
    method CreateSession(id: string, created: string, updated: string, projectKey: Option<string>, workflowType: string)
      returns (s: SessionState)
      requires Valid()
      modifies this, Backends()
      ensures Valid()
      ensures fresh(s) && s.ToDict() == NewRecord(id, created, updated, projectKey, workflowType)
      ensures sessions == old(sessions)[id := s] && order == AppendNew(old(order), id) && current == s
      ensures persistence != null ==> forall b :: b in persistence.backends ==>
                b.stored == if old(b.writable) then old(b.stored)[id := s.ToDict()] else old(b.stored)
    {
      s := new SessionState.Create(id, created, updated, projectKey, workflowType);
      AppendNewSpec(order, id);
      sessions := sessions[id := s];
      order := AppendNew(order, id);
      current := s;
      if persistence != null {
        var _ := persistence.Save(s);
      }
    }

    /** `get_session`: the cache first, then persistence; a session loaded
        from persistence is cached. */
    method GetSession(id: string) returns (s: SessionState?)
      requires Valid()
      modifies this
      ensures Valid() && current == old(current)
      ensures id in old(sessions) ==> s == old(sessions)[id] && sessions == old(sessions) && order == old(order)
      ensures id !in old(sessions) && (persistence == null || FirstHolding(persistence.backends, id).None?) ==>
                s == null && sessions == old(sessions) && order == old(order)
      ensures id !in old(sessions) && persistence != null && FirstHolding(persistence.backends, id).Some? ==>
                s != null && fresh(s)
                && s.ToDict() == persistence.backends[FirstHolding(persistence.backends, id).value].stored[id]
                && sessions == old(sessions)[id := s] && order == old(order) + [id]
    {
      if id in sessions {
        return sessions[id];
      }
      if persistence != null {
        s := persistence.Load(id);
        if s != null {
          AppendNewSpec(order, id);
          sessions := sessions[id := s];
          order := order + [id];
          return s;
        }
      }
      s := null;
    }

    /** `save_session`: the given session, or else the current one, is
        stamped, cached and saved; with neither there is nothing to save. */
    method SaveSession(given: SessionState?, now: string) returns (ok: bool)
      requires Valid()
      modifies this, Backends(), given, current
      ensures Valid()
      ensures given == null && old(current) == null ==> !ok && unchanged(this) && unchanged(Backends())
      ensures var t := if given != null then given else old(current);
              t != null ==>
                t.ToDict() == old(t.ToDict()).(updatedAt := now)
                && sessions == old(sessions)[old(t.sessionId) := t]
                && order == AppendNew(old(order), old(t.sessionId))
                && current == old(current)
                && (persistence == null ==> ok)
                && (persistence != null ==> (ok <==> forall i :: 0 <= i < |persistence.backends| ==> old(persistence.backends[i].writable)))
                && (persistence != null ==> forall b :: b in persistence.backends ==>
                      b.stored == if old(b.writable) then old(b.stored)[t.sessionId := t.ToDict()] else old(b.stored))
    {
      var target := if given != null then given else current;
      if target == null {
        return false;
      }
      target.UpdateTimestamp(now);
      Cache(target);
      if persistence != null {
        ok := persistence.Save(target);
      } else {
        ok := true;
      }
    }

    /** `self._sessions[session.session_id] = session` */
    method Cache(target: SessionState)
      requires Valid()
      modifies this
      ensures Valid() && current == old(current)
      ensures sessions == old(sessions)[target.sessionId := target]
      ensures order == AppendNew(old(order), target.sessionId)
    {
      AppendNewSpec(order, target.sessionId);
      sessions := sessions[target.sessionId := target];
      order := AppendNew(order, target.sessionId);
    }

    /** `list_sessions`: with persistence, the summary of every id some
        backend holds (each found, so none is dropped), in listing order;
        without it, the summaries of the cached sessions in cache order. */
    method ListSessions() returns (r: Result<seq<Summary>>, ghost listed: seq<string>)
      requires Valid()
      modifies this
      ensures Valid() && current == old(current)
      ensures persistence == null ==> sessions == old(sessions) && r == SummariesOf(order, sessions)
      ensures persistence != null ==> NoDup(listed) && forall x :: x in listed <==> x in AllIds(persistence.backends)
      ensures persistence != null && r.Ok? ==> |r.value| == |listed|
    {
      if persistence == null {
        listed := order;
        r := SummariesOf(order, sessions);
        return;
      }
      var ids := persistence.ListSessions();
      listed := ids;
      r := SummariesOfStored(ids);
    }

    /** The listing loop: each id, which some backend holds, is looked up
        and summarised in turn. */
    method SummariesOfStored(ids: seq<string>) returns (r: Result<seq<Summary>>)
      requires Valid() && persistence != null
      requires forall x :: x in ids ==> x in AllIds(persistence.backends)
      modifies this
      ensures Valid() && current == old(current)
      ensures r.Ok? ==> |r.value| == |ids|
    {
      var out: seq<Summary> := [];
      var i := 0;
      while i < |ids|
        invariant 0 <= i <= |ids|
        invariant Valid() && current == old(current)
        invariant |out| == i
      {
        assert ids[i] in AllIds(persistence.backends);
        var s := GetSession(ids[i]);
        if s == null {
          assert false;
        }
        var summary := s.GetSummary();
        if summary.Err? {
          return Err(summary.msg);
        }
        out := out + [summary.value];
        i := i + 1;
      }
      r := Ok(out);
    }

    /** `delete_session`: the cache entry goes; the result is persistence's
        answer, or true without persistence. The current session is left
        as it is. */
    method DeleteSession(id: string) returns (ok: bool)
      requires Valid()
      modifies this, Backends()
      ensures Valid()
      ensures sessions == old(sessions) - {id} && order == Without(old(order), id) && current == old(current)
      ensures persistence == null ==> ok
      ensures persistence != null ==> (ok <==> forall i :: 0 <= i < |persistence.backends| ==> old(persistence.backends[i].writable))
      ensures persistence != null ==> forall b :: b in persistence.backends ==>
                b.stored == if old(b.writable) then old(b.stored) - {id} else old(b.stored)
    {
      WithoutNoDup(order, id);
      sessions := sessions - {id};
      order := Without(order, id);
      if persistence != null {
        ok := persistence.Delete(id);
      } else {
        ok := true;
      }
    }

    /** `resume_session`: a found session becomes current; otherwise the
        current session stays. */
    method ResumeSession(id: string) returns (s: SessionState?)
      requires Valid()
      modifies this
      ensures Valid()
      ensures s != null <==> id in old(sessions) || (persistence != null && FirstHolding(persistence.backends, id).Some?)
      ensures id in old(sessions) ==> s == old(sessions)[id]
      ensures current == if s != null then s else old(current)
    {
      s := GetSession(id);
      if s != null {
        current := s;
      }
    }
  }
}
