/**
 The worker pool's registry of running executions: which context cancels which run, which runs have a
 cancel waiting for them, and when each run last answered a heartbeat. Every operation is one critical section.
 */
module CancelRegistry {
  type Id = nat

  /** A run context, named by the number of its registration. */
  type Context = nat

  datatype Cause = UserCancel | ShutdownCancel | StaleCancel

  datatype Registry = Registry(cancels: map<Id, Context>, pending: map<Id, Cause>, beats: map<Id, int>)

  /** A run never has both a live context and a waiting cancel, and only runs with a context have a heartbeat. */
  ghost predicate RegistryOK(g: Registry) {
    g.cancels.Keys !! g.pending.Keys && g.beats.Keys <= g.cancels.Keys
  }

  function Ask(g: Registry, id: Id): (g': Registry)
    ensures RegistryOK(g) ==> RegistryOK(g')
    ensures id in g'.cancels || id in g'.pending
  {
    if id in g.cancels then g else g.(pending := g.pending[id := UserCancel])
  }

  function Forget(g: Registry, id: Id): (g': Registry)
    ensures RegistryOK(g) ==> RegistryOK(g') && id !in g'.pending
  {
    if id in g.cancels then g else g.(pending := g.pending - {id})
  }

  function Register(g: Registry, id: Id, context: Context, beating: bool, now: int): (g': Registry)
    ensures RegistryOK(g) ==> RegistryOK(g')
  {
    Registry(g.cancels[id := context], g.pending - {id}, if beating then g.beats[id := now] else g.beats)
  }

  function Deregister(g: Registry, id: Id): (g': Registry)
    ensures RegistryOK(g) ==> RegistryOK(g')
  {
    Registry(g.cancels - {id}, g.pending - {id}, g.beats - {id})
  }

  function Beat(g: Registry, id: Id, now: int): (g': Registry)
    ensures RegistryOK(g) ==> RegistryOK(g')
  {
    if id in g.cancels then g.(beats := g.beats[id := now]) else g
  }

  function DropPending(g: Registry): (g': Registry)
    ensures RegistryOK(g) ==> RegistryOK(g')
  {
    g.(pending := map[])
  }

  /** Contexts of the runs whose last heartbeat is at least `staleAfter` old. */
  function StaleContexts(g: Registry, now: int, staleAfter: int): set<Context> {
    set id | id in g.beats && id in g.cancels && now - g.beats[id] >= staleAfter :: g.cancels[id]
  }

  /** Cancelling a context a second time keeps its first cause. */
  function Fire(causes: map<Context, Cause>, contexts: set<Context>, cause: Cause): (causes': map<Context, Cause>)
    ensures causes'.Keys == causes.Keys + contexts
    ensures forall c :: c in causes ==> causes'[c] == causes[c]
    ensures forall c :: c in contexts && c !in causes ==> causes'[c] == cause
  {
    map c | c in causes.Keys + contexts :: if c in causes then causes[c] else cause
  }

  /** The pool's registry as the workers and handlers share it. */
  class Pool {
    var cancels: map<Id, Context>
    var pendingCancels: map<Id, Cause>
    var heartbeatOKAt: map<Id, int>
    var causes: map<Context, Cause>
    const heartbeat: int
    const staleAfter: int

    ghost function View(): Registry
      reads this
    {
      Registry(cancels, pendingCancels, heartbeatOKAt)
    }

    constructor (heartbeat: int, staleAfter: int)
      ensures View() == Registry(map[], map[], map[]) && RegistryOK(View()) && causes == map[]
    {
      cancels, pendingCancels, heartbeatOKAt, causes := map[], map[], map[], map[];
      this.heartbeat, this.staleAfter := heartbeat, staleAfter;
    }

    method CancelContext(context: Context, cause: Cause)
      modifies this`causes
      ensures causes == Fire(old(causes), {context}, cause)
    {
      if context !in causes {
        causes := causes[context := cause];
      }
    }

    /** True means a live context was cancelled; false means the cancel now waits for the next registration. */
    method CancelRun(id: Id) returns (ok: bool)
      modifies this
      ensures ok == (id in old(cancels))
      ensures View() == Ask(old(View()), id)
      ensures cancels == old(cancels) && heartbeatOKAt == old(heartbeatOKAt)
      ensures pendingCancels == if ok then old(pendingCancels) else old(pendingCancels)[id := UserCancel]
      ensures causes == if ok then Fire(old(causes), {old(cancels)[id]}, UserCancel) else old(causes)
    {
      ok := id in cancels;
      if ok {
        CancelContext(cancels[id], UserCancel);
      } else {
        pendingCancels := pendingCancels[id := UserCancel];
      }
    }

    method ForgetPendingCancel(id: Id) returns (forgotten: bool)
      modifies this`pendingCancels
      ensures forgotten == (id !in old(cancels) && id in old(pendingCancels))
      ensures View() == Forget(old(View()), id)
      ensures pendingCancels == if forgotten then old(pendingCancels) - {id} else old(pendingCancels)
    {
      if id in cancels {
        return false;
      }
      if id !in pendingCancels {
        return false;
      }
      pendingCancels := pendingCancels - {id};
      return true;
    }

    /** The registration half of a claim; a waiting cancel is taken over by the new context. */
    method RegisterRun(id: Id, context: Context, now: int) returns (cancelPending: bool)
      modifies this
      ensures cancelPending == (id in old(pendingCancels))
      ensures View() == Register(old(View()), id, context, heartbeat > 0, now)
      ensures cancels == old(cancels)[id := context] && pendingCancels == old(pendingCancels) - {id}
      ensures heartbeatOKAt == if heartbeat > 0 then old(heartbeatOKAt)[id := now] else old(heartbeatOKAt)
      ensures causes == if cancelPending then Fire(old(causes), {context}, old(pendingCancels)[id]) else old(causes)
    {
      cancelPending := id in pendingCancels;
      var reason := if cancelPending then pendingCancels[id] else UserCancel;
      pendingCancels := pendingCancels - {id};
      cancels := cancels[id := context];
      if heartbeat > 0 {
        heartbeatOKAt := heartbeatOKAt[id := now];
      }
      if cancelPending {
        CancelContext(context, reason);
      }
    }

    method DeregisterRun(id: Id)
      modifies this`cancels, this`pendingCancels, this`heartbeatOKAt
      ensures View() == Deregister(old(View()), id)
      ensures cancels == old(cancels) - {id} && pendingCancels == old(pendingCancels) - {id} && heartbeatOKAt == old(heartbeatOKAt) - {id}
    {
      cancels := cancels - {id};
      pendingCancels := pendingCancels - {id};
      heartbeatOKAt := heartbeatOKAt - {id};
    }

    method MarkHeartbeatOK(id: Id, now: int)
      modifies this`heartbeatOKAt
      ensures View() == Beat(old(View()), id, now)
      ensures heartbeatOKAt == if id in cancels then old(heartbeatOKAt)[id := now] else old(heartbeatOKAt)
    {
      if id !in cancels {
        return;
      }
      heartbeatOKAt := heartbeatOKAt[id := now];
    }

    /** Every registered run once, in no particular order. */
    method ActiveRunIDs() returns (ids: seq<Id>)
      ensures forall id :: id in ids <==> id in cancels
      ensures |ids| == |cancels|
    {
      ids := [];
      var todo := cancels.Keys;
      while todo != {}
        invariant todo <= cancels.Keys
        invariant forall id :: id in ids <==> id in cancels && id !in todo
        invariant |ids| + |todo| == |cancels.Keys|
        decreases todo
      {
        var id :| id in todo;
        ids := ids + [id];
        todo := todo - {id};
      }
    }

    method FireAll(contexts: seq<Context>, cause: Cause)
      modifies this`causes
      ensures causes == Fire(old(causes), (set c | c in contexts), cause)
    {
      var i := 0;
      while i < |contexts|
        invariant 0 <= i <= |contexts|
        invariant causes == Fire(old(causes), (set c | c in contexts[..i]), cause)
      {
        CancelContext(contexts[i], cause);
        assert contexts[..i + 1] == contexts[..i] + [contexts[i]];
        i := i + 1;
      }
      assert contexts[..|contexts|] == contexts;
    }

    /** The run is registered and has not answered a heartbeat for at least `staleAfter`. */
    ghost predicate Silent(id: Id, now: int)
      reads this`cancels, this`heartbeatOKAt
    {
      heartbeat > 0 && staleAfter > 0 && id in cancels && id in heartbeatOKAt && now - heartbeatOKAt[id] >= staleAfter
    }

    /** Cancels exactly the runs that have been silent for too long, and leaves the registry alone. */
    method CancelStaleActiveRuns(now: int)
      modifies this`causes
      ensures forall id :: Silent(id, now) ==> cancels[id] in causes
      ensures forall c :: c in causes && c !in old(causes) ==> causes[c] == StaleCancel && exists id :: Silent(id, now) && cancels[id] == c
      ensures forall c :: c in old(causes) ==> c in causes && causes[c] == old(causes)[c]
      ensures causes == if heartbeat <= 0 || staleAfter <= 0 then old(causes)
                        else Fire(old(causes), StaleContexts(View(), now, staleAfter), StaleCancel)
    {
      if heartbeat <= 0 || staleAfter <= 0 {
        return;
      }
      var stale: seq<Context> := [];
      var todo := heartbeatOKAt.Keys;
      while todo != {}
        invariant todo <= heartbeatOKAt.Keys
        invariant forall c :: c in stale <==>
                              exists id :: id !in todo && Silent(id, now) && cancels[id] == c
        decreases todo
      {
        var id :| id in todo;
        if now - heartbeatOKAt[id] >= staleAfter && id in cancels {
          stale := stale + [cancels[id]];
        }
        todo := todo - {id};
      }
      assert forall c :: c in StaleContexts(View(), now, staleAfter) <==> exists id :: Silent(id, now) && cancels[id] == c;
      assert (set c | c in stale) == StaleContexts(View(), now, staleAfter);
      FireAll(stale, StaleCancel);
    }

    /** Cancels every live context and drops every waiting cancel. */
    method Shutdown()
      modifies this
      ensures View() == DropPending(old(View()))
      ensures cancels == old(cancels) && heartbeatOKAt == old(heartbeatOKAt) && pendingCancels == map[]
      ensures forall id :: id in cancels ==> cancels[id] in causes
      ensures causes == Fire(old(causes), old(cancels).Values, ShutdownCancel)
    {
      var active: seq<Context> := [];
      var todo := cancels.Keys;
      while todo != {}
        invariant todo <= cancels.Keys
        invariant forall c :: c in active <==> exists id :: id in cancels && id !in todo && cancels[id] == c
        decreases todo
      {
        var id :| id in todo;
        active := active + [cancels[id]];
        todo := todo - {id};
      }
      pendingCancels := map[];
      assert (set c | c in active) == cancels.Values;
      FireAll(active, ShutdownCancel);
    }
  }
}
