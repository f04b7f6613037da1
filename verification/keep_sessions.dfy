/** Steps on sessions: the lifecycle invariant, and that no step stops a session with a call alive. */
module KeepSessions {
  import opened Types
  import opened Protocol
  import opened Invariants

  lemma SessionKept(s: Db, a: RegistryAction, sid: SessionId)
    requires SessionsOk(s.sessions, s.registry) && RegistryGuard(s, a) && sid in RegistryApply(s, a).sessions
    ensures SessionOk(RegistryApply(s, a).sessions[sid])
  {
    assert sid in s.sessions ==> SessionOk(s.sessions[sid]);
  }

  lemma NamedKept(s: Db, a: RegistryAction, sid: SessionId)
    requires SessionsOk(s.sessions, s.registry) && RegistryGuard(s, a) && sid in RegistryApply(s, a).sessions
    ensures var s' := RegistryApply(s, a); Named(sid, s'.sessions, s'.registry)
  {
    assert sid in s.sessions ==> Named(sid, s.sessions, s.registry);
  }

  lemma ListedKept(s: Db, a: RegistryAction, w: WorkerId)
    requires SessionsOk(s.sessions, s.registry) && RegistryGuard(s, a) && w in RegistryApply(s, a).registry
    ensures var s' := RegistryApply(s, a); Listed(w, s'.sessions, s'.registry)
  {
    assert w in s.registry ==> Listed(w, s.sessions, s.registry);
  }

  lemma SessionsKept(s: Db, a: RegistryAction)
    requires SessionsOk(s.sessions, s.registry) && RegistryGuard(s, a)
    ensures var s' := RegistryApply(s, a); SessionsOk(s'.sessions, s'.registry)
  {
    var s' := RegistryApply(s, a);
    forall sid | sid in s'.sessions ensures SessionOk(s'.sessions[sid]) && Named(sid, s'.sessions, s'.registry) {
      SessionKept(s, a, sid);
      NamedKept(s, a, sid);
    }
    forall w | w in s'.registry ensures Listed(w, s'.sessions, s'.registry) { ListedKept(s, a, w); }
  }

  /** A graceful stop finds no running row, hence no live call; a confirmed stop is truthful. */
  lemma NoCallStopped(s: Db, a: RegistryAction, i: Invocation)
    requires CallsOk(s.live, s.claims, s.attested, s.tasks, s.sessions) && RegistryGuard(s, a) && i in s.live
    ensures CallOk(i, s.tasks, RegistryApply(s, a).sessions)
  {
    assert CallOk(i, s.tasks, s.sessions);
  }

  lemma CallsKept(s: Db, a: RegistryAction)
    requires CallsOk(s.live, s.claims, s.attested, s.tasks, s.sessions) && RegistryGuard(s, a)
    ensures CallsOk(s.live, s.claims, s.attested, s.tasks, RegistryApply(s, a).sessions)
  {
    var sessions' := RegistryApply(s, a).sessions;
    forall i | i in s.live ensures CallOk(i, s.tasks, sessions') { NoCallStopped(s, a, i); }
    assert s.sessions.Keys <= sessions'.Keys;
    forall t | t in s.tasks ensures ClaimOk(s.tasks[t], t, s.claims, sessions') {
      assert ClaimOk(s.tasks[t], t, s.claims, s.sessions);
    }
  }

  lemma RegistryFrame(s: Db, a: RegistryAction)
    requires RegistryGuard(s, a)
    ensures RegistryApply(s, a) == s.(sessions := RegistryApply(s, a).sessions, registry := RegistryApply(s, a).registry)
  {
  }

  lemma InvKept(s: Db, a: RegistryAction)
    requires Inv(s) && RegistryGuard(s, a)
    ensures Inv(RegistryApply(s, a))
  {
    SessionsKept(s, a);
    CallsKept(s, a);
    RegistryFrame(s, a);
  }
}
