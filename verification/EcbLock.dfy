/** The session lock and the revocable authority it grants to one executor. */
module EcbLock {
  import opened Prelude

  /** Sessions of the database server that hold, or try to hold, the advisory lock of the dataset. */
  class LockServer {
    var holder: Option<nat>
    var sessions: nat

    ghost predicate Valid()
      reads this
    {
      holder.Some? ==> holder.value < sessions
    }

    constructor ()
      ensures Valid() && holder == None && sessions == 0
    {
      holder, sessions := None, 0;
    }

    method Connect() returns (session: nat)
      modifies this`sessions
      ensures session == old(sessions) && sessions == session + 1
    {
      session := sessions;
      sessions := sessions + 1;
    }

    method TryLock(session: nat) returns (acquired: bool)
      modifies this`holder
      ensures acquired <==> old(holder) == None
      ensures holder == if acquired then Some(session) else old(holder)
    {
      acquired := holder == None;
      if acquired { holder := Some(session); }
    }

    /** Unlocking and ending a session both free the lock if that session holds it, and only then. */
    method EndSession(session: nat)
      modifies this`holder
      ensures holder == if old(holder) == Some(session) then None else old(holder)
    {
      if holder == Some(session) { holder := None; }
    }
  }

  /** Authority starts granted, is lost once, and never comes back; only a revocation aborts work. */
  class IngestionExecutionAuthority {
    var authorized: bool
    var revoked: bool
    var aborted: bool

    ghost predicate Valid()
      reads this
    {
      (revoked ==> !authorized) && (aborted <==> revoked)
    }

    /** No intentional release has happened: without authority, the session was lost. */
    ghost predicate Unreleased()
      reads this
    {
      Valid() && (authorized || aborted)
    }

    constructor ()
      ensures Unreleased() && authorized && !aborted
    {
      authorized, revoked, aborted := true, false, false;
    }

    /** The check that guards every state change; the session may be lost at any moment before it. */
    method CheckAuthorized() returns (yes: bool)
      requires Valid()
      modifies this
      ensures Valid()
      ensures yes == authorized
      ensures authorized ==> old(authorized)
      ensures authorized == old(authorized) ==> aborted == old(aborted)
      ensures old(Unreleased()) ==> Unreleased()
    {
      var sessionEnds: bool := *;
      if sessionEnds && authorized {
        Revoke();
      }
      return authorized;
    }

    method Revoke()
      requires Valid()
      modifies this
      ensures Valid() && !authorized && aborted
    {
      if revoked { return; }
      revoked := true;
      authorized := false;
      aborted := true;
    }

    /** Intentional release: authority ends and no work is aborted. */
    method Deactivate()
      requires Valid()
      modifies this`authorized
      ensures Valid() && !authorized && aborted == old(aborted)
    {
      authorized := false;
    }
  }

  class IngestionLockLease {
    const server: LockServer
    const session: nat
    const authority: IngestionExecutionAuthority
    var active: bool
    var cleanupStarted: bool
    ghost var unlocks: nat

    /** While authority stands, this session holds the lock. */
    ghost predicate Valid()
      reads this, server, authority
    {
      && authority.Valid()
      && session < server.sessions
      && (authority.authorized ==> active && !cleanupStarted && server.holder == Some(session))
      && unlocks == (if cleanupStarted then 1 else 0)
    }

    constructor (server: LockServer, session: nat)
      requires session < server.sessions && server.holder == Some(session)
      ensures Valid() && this.server == server && this.session == session && fresh(authority)
      ensures authority.authorized && !authority.aborted && active && !cleanupStarted
    {
      this.server := server;
      this.session := session;
      authority := new IngestionExecutionAuthority();
      active, cleanupStarted, unlocks := true, false, 0;
    }

    /** Releases once, however often it is called, never aborts work, and takes no lock from another lease. */
    method Release(ghost leases: set<IngestionLockLease>)
      requires Valid() && this in leases && Exclusive(server, leases)
      modifies this, server`holder, authority`authorized
      ensures Valid() && !authority.authorized && authority.aborted == old(authority.aborted)
      ensures server.holder == (if old(active && !cleanupStarted) && old(server.holder) == Some(session) then None
                                else old(server.holder))
      ensures old(active) ==> unlocks == 1
      ensures Exclusive(server, leases)
    {
      if cleanupStarted || !active {
        return;
      }
      cleanupStarted := true;
      authority.Deactivate();
      server.EndSession(session);
      unlocks := unlocks + 1;
      active := false;
    }

    /** The session died: the server frees the lock, and authority is revoked unless cleanup had begun. */
    method HandleUnexpectedSessionLoss(ghost leases: set<IngestionLockLease>)
      requires Valid() && this in leases && Exclusive(server, leases)
      modifies this, server`holder, authority
      ensures Valid() && !authority.authorized
      ensures active == old(active) && cleanupStarted == old(cleanupStarted)
      ensures server.holder == if old(server.holder) == Some(session) then None else old(server.holder)
      ensures old(active && !cleanupStarted) ==> authority.aborted
      ensures !old(active && !cleanupStarted) ==> authority.aborted == old(authority.aborted)
      ensures Exclusive(server, leases)
    {
      server.EndSession(session);
      if !active || cleanupStarted {
        return;
      }
      authority.Revoke();
    }
  }

  /** Leases of one server, each under a session and with an authority of its own. */
  ghost predicate Exclusive(server: LockServer, leases: set<IngestionLockLease>)
    reads server, leases, set l | l in leases :: l.authority
  {
    && (forall l :: l in leases ==> l.server == server && l.Valid())
    && (forall a, b :: a in leases && b in leases && a != b ==> a.session != b.session && a.authority != b.authority)
  }

  datatype Acquisition = Acquired(lease: IngestionLockLease) | ActiveExecutor

  /** Acquires only a free lock, under a session of its own, and leaves every other lease as it is. */
  method Acquire(server: LockServer, ghost leases: set<IngestionLockLease>) returns (result: Acquisition)
    requires server.Valid() && Exclusive(server, leases)
    modifies server
    ensures server.Valid()
    ensures result.Acquired? <==> old(server.holder) == None
    ensures result.ActiveExecutor? ==> server.holder == old(server.holder) && Exclusive(server, leases)
    ensures result.Acquired? ==>
              && fresh(result.lease) && fresh(result.lease.authority)
              && result.lease.authority.authorized
              && result.lease.session == old(server.sessions)
              && Exclusive(server, leases + {result.lease})
  {
    var session := server.Connect();
    var acquired := server.TryLock(session);
    if !acquired {
      server.EndSession(session);
      return ActiveExecutor;
    }
    var lease := new IngestionLockLease(server, session);
    return Acquired(lease);
  }

  /** However leases were acquired, released and lost, at most one authority stands, and its session holds the lock. */
  lemma OneAuthority(server: LockServer, leases: set<IngestionLockLease>, a: IngestionLockLease, b: IngestionLockLease)
    requires Exclusive(server, leases) && a in leases && b in leases
    ensures a.authority.authorized && b.authority.authorized ==> a == b
    ensures a.authority.authorized ==> server.holder == Some(a.session)
  {
  }
}
