/** The stream connections and the subscription manager as the program runs them: dictionaries of sets
    that their methods replace and pop, with the unions built up session by session. */
module FeedHub {
  import opened Trading
  import opened FeedWire
  import opened FeedSessions

  datatype Reply = Ignored | Refused | Accepted

  class Hub {
    var sessions: map<Id, Session>
    var byInstance: map<Id, Id>
    var wants: map<Id, Wishes>
    var positions: set<Key>
    var engine: set<Key>
    var tracked: set<Key>
    var desired: Wishes

    ghost function Now(): FeedSessions.State
      reads this
    {
      FeedSessions.State.State(sessions, byInstance, wants, positions, engine, tracked, desired)
    }

    constructor ()
      ensures Now() == FeedSessions.INITIAL
    {
      sessions, byInstance, wants, positions, engine, tracked, desired := map[], map[], map[], {}, {}, {}, NO_WISHES;
    }

    // ---- the subscription manager -----------------------------------------------------------------

    /** The unions of the requests of every session but one (or of all). */
    method UnionsExcept(except: Option<Id>) returns (d30: set<Key>, full: set<Key>, ltpc: set<Key>)
      ensures except.None? ==> d30 == D30Union(wants) && full == FullUnion(wants) && ltpc == LtpcUnion(wants)
      ensures except.Some? ==> d30 == D30Union(wants - {except.value})
    {
      var rest := if except.Some? then wants - {except.value} else wants;
      d30, full, ltpc := {}, {}, {};
      var left := rest.Keys;
      ghost var done := {};
      while left != {}
        invariant left <= rest.Keys && done == rest.Keys - left
        invariant forall k :: k in d30 <==> exists id :: id in done && k in rest[id].d30
        invariant forall k :: k in full <==> exists id :: id in done && k in rest[id].full
        invariant forall k :: k in ltpc <==> exists id :: id in done && k in rest[id].ltpc
        decreases left
      {
        var id :| id in left;
        left, done := left - {id}, done + {id};
        d30, full, ltpc := d30 + rest[id].d30, full + rest[id].full, ltpc + rest[id].ltpc;
      }
      assert done == rest.Keys;
    }

    /** `_apply`: what the feed client is asked for. */
    method ApplyUnions()
      modifies `desired
      ensures Now() == FeedSessions.Apply(old(Now()))
    {
      var d30, clientFull, clientLtpc := UnionsExcept(None);
      var full := tracked + clientFull;
      full := full - d30;
      var ltpc := positions + engine;
      ltpc := ltpc + clientLtpc;
      ltpc := ltpc - (full + d30);
      desired := Wishes(d30, full, ltpc);
    }

    /** False when the request would take the D30 union over the cap. */
    method SetClientSubscription(id: Id, d30: set<Key>, full: set<Key>, ltpc: set<Key>) returns (ok: bool)
      modifies `wants, `desired
      ensures ok == Fits(old(Now()), id, d30)
      ensures Now() == if ok then SetClient(old(Now()), id, d30, full, ltpc) else old(Now())
    {
      var others, _, _ := UnionsExcept(Some(id));
      var projected := d30 + others;
      if |projected| > D30_CAP {
        return false;
      }
      wants := wants[id := Wishes(d30, full - d30, ltpc)];
      ApplyUnions();
      return true;
    }

    method SetOpenPositions(keys: set<Key>)
      modifies `positions, `desired
      ensures Now() == FeedSessions.Next(old(Now()), SetPositions(keys))
    {
      positions := keys;
      ApplyUnions();
    }

    method SetOrderEngine(keys: set<Key>)
      modifies `engine, `desired
      ensures Now() == FeedSessions.Next(old(Now()), SetEngine(keys))
    {
      engine := keys;
      ApplyUnions();
    }

    method RefreshTracked(keys: set<Key>)
      modifies `tracked, `desired
      ensures Now() == FeedSessions.Next(old(Now()), Refresh(keys))
    {
      tracked := keys;
      ApplyUnions();
    }

    // ---- the connections ---------------------------------------------------------------------------

    method Leave(id: Id)
      modifies `sessions, `byInstance, `wants, `desired
      ensures Now() == FeedSessions.Next(old(Now()), Disconnect(id))
    {
      if id !in sessions {
        return;
      }
      var session := sessions[id];
      sessions := sessions - {id};
      if session.instance in byInstance && byInstance[session.instance] == id {
        byInstance := byInstance - {session.instance};
      }
      wants := wants - {id};
      ApplyUnions();
    }

    /** True if the connection was taken; a live session of the same instance is replaced only by a
        newer generation. */
    method Enter(id: Id, instance: Id, generation: int) returns (ok: bool)
      requires FeedSessions.Inv(Now()) && id !in sessions
      modifies `sessions, `byInstance, `wants, `desired
      ensures Now() == FeedSessions.Next(old(Now()), Join(id, instance, generation)) && FeedSessions.Inv(Now())
      ensures ok <==> id in sessions
      ensures !ok ==> instance in byInstance && generation <= Generation(Now(), instance)
    {
      FeedSessions.StepKeepsInv(Now(), Join(id, instance, generation));
      if instance in byInstance {
        var existing := byInstance[instance];
        if generation <= sessions[existing].generation {
          return false;
        }
        Leave(existing);
      }
      sessions := sessions[id := Session(instance, generation, -1, {}, {}, {})];
      byInstance := byInstance[instance := id];
      return true;
    }

    /** `_handle_subscribe`: a stale revision is ignored, a request over the cap refused, and either way
        nothing changes. The object of a session that was removed keeps its last revision, `kept`, and
        its messages still reach the manager. */
    method HandleSubscribe(id: Id, kept: int, revision: Option<int>, d30: set<Key>, full: set<Key>, ltpc: set<Key>) returns (reply: Reply)
      modifies `sessions, `wants, `desired
      ensures reply.Ignored? <==> revision.Some? && revision.value <= (if id in old(sessions) then old(sessions)[id].revision else kept)
      ensures Now() == if reply.Ignored? then old(Now()) else FeedSessions.Next(old(Now()), Subscribe(id, revision, d30, full, ltpc))
      ensures !reply.Ignored? ==> (reply.Accepted? <==> Accepts(old(Now()), id, revision, d30))
      ensures !reply.Accepted? ==> Now() == old(Now())
    {
      var last := if id in sessions then sessions[id].revision else kept;
      var number := if revision.Some? then revision.value else last + 1;
      if number <= last {
        return Ignored;
      }
      var ok := SetClientSubscription(id, d30, full, ltpc);
      if !ok {
        return Refused;
      }
      if id in sessions {
        sessions := sessions[id := sessions[id].(revision := number, d30 := d30, full := full, ltpc := ltpc)];
      }
      return Accepted;
    }
  }
}
