/**
 * The temporary root session on Linux: a client that obtains an authorization, starts one privileged
 * process with it, lets both expire together, and a server that acts only for its own, unrevoked session.
 */
module PrivilegedSession {
  import opened Common
  import HostsFile

  const PROTOCOL_VERSION := 1
  const SESSION_TTL := 300
  const MAX_CERT_BYTES := 16 * 1024

  /** `localCA` says whether the certificate passes for a local CA; certificates are known by a number. */
  datatype Operation =
    | ApplyHosts(entries: seq<HostEntry>, transaction: string, expectedDigest: string)
    | RemoveHosts
    | Trust(cert: nat, size: nat, localCA: bool)
    | Untrust(fingerprint: string)
    | Revoke
    | Other

  datatype Request = Request(version: int, session: Option<nat>, operation: Operation)

  // ---------- The server ----------

  predicate LowerHex(s: string) { forall i :: 0 <= i < |s| ==> '0' <= s[i] <= '9' || 'a' <= s[i] <= 'f' }

  /** What is checked before a root effect runs. */
  predicate Acceptable(operation: Operation) {
    match operation
    case ApplyHosts(entries, transaction, expected) =>
      && HostsFile.ValidEntries(entries)
      && (transaction == "" || (|transaction| == 32 && LowerHex(transaction)))
      && (expected == "" || (|expected| == 64 && LowerHex(expected)))
    case RemoveHosts => true
    case Trust(_, size, localCA) => 0 < size <= MAX_CERT_BYTES && localCA
    case Untrust(fingerprint) => |fingerprint| == 64 && LowerHex(fingerprint)
    case Revoke => false
    case Other => false
  }

  datatype ServerState = ServerState(session: nat, revoked: bool, effects: seq<Operation>)

  /** The request reaches the server's own live session. */
  predicate Admits(s: ServerState, r: Request) {
    !s.revoked && r.version == PROTOCOL_VERSION && r.session == Some(s.session)
  }

  /** `tried` are the effects attempted, successful or not. */
  function Handled(s: ServerState, r: Request): ServerState {
    if !Admits(s, r) then s
    else if r.operation.Revoke? then s.(revoked := true)
    else if Acceptable(r.operation) then s.(effects := s.effects + [r.operation])
    else s
  }

  function HandledAll(s: ServerState, rs: seq<Request>): ServerState {
    if rs == [] then s else Handled(HandledAll(s, rs[..|rs| - 1]), rs[|rs| - 1])
  }

  /** Whatever is sent afterwards, a revoked server does nothing more. */
  lemma {:induction false} RevokedForever(s: ServerState, rs: seq<Request>)
    requires s.revoked
    ensures HandledAll(s, rs) == s
  {
    if rs == [] {
    } else {
      RevokedForever(s, rs[..|rs| - 1]);
    }
  }

  /** The `i`-th request asked acceptably for this effect, in this session and before any revocation. */
  predicate AskedAt(session: nat, rs: seq<Request>, e: Operation, i: int) {
    && 0 <= i < |rs| && rs[i].operation == e && Acceptable(e)
    && rs[i].session == Some(session) && rs[i].version == PROTOCOL_VERSION
    && !HandledAll(ServerState(session, false, []), rs[..i]).revoked
  }

  /**
   * Every root effect goes back to an acceptable request for this very session that arrived before any
   * revocation of it.
   */
  lemma {:induction false} EffectsAreAuthorized(session: nat, rs: seq<Request>)
    ensures var s := HandledAll(ServerState(session, false, []), rs);
      && s.session == session
      && (s.revoked <==> exists r :: r in rs && Admits(ServerState(session, false, []), r) && r.operation.Revoke?)
      && forall e :: e in s.effects ==> exists i :: AskedAt(session, rs, e, i)
  {
    hide Acceptable;
    var start := ServerState(session, false, []);
    if rs == [] {
    } else {
      var n := |rs| - 1;
      EffectsAreAuthorized(session, rs[..n]);
      assert rs == rs[..n] + [rs[n]];
      forall e | e in HandledAll(start, rs).effects ensures exists i :: AskedAt(session, rs, e, i) {
        if e in HandledAll(start, rs[..n]).effects {
          var i :| AskedAt(session, rs[..n], e, i);
          assert rs[..n][..i] == rs[..i] && AskedAt(session, rs, e, i);
        } else {
          assert AskedAt(session, rs, e, n);
        }
      }
    }
  }

  class Server {
    const session: nat
    var revoked: bool
    /** The effects tried, and which of them succeeded. */
    ghost var effects: seq<Operation>
    ghost var results: seq<bool>

    ghost function State(): ServerState
      reads this
    {
      ServerState(session, revoked, effects)
    }

    /** The last effect tried was carried out. */
    ghost predicate Succeeded()
      reads `results
    {
      results != [] && results[|results| - 1]
    }

    constructor (session: nat)
      ensures State() == ServerState(session, false, []) && results == []
    {
      this.session, revoked, effects, results := session, false, [], [];
    }

    /** The effect itself may fail. */
    method Perform(operation: Operation) returns (ok: bool)
      requires Acceptable(operation)
      modifies `effects, `results
      ensures effects == old(effects) + [operation] && results == old(results) + [ok]
    {
      effects := effects + [operation];
      ok := *;
      results := results + [ok];
    }

    method Handle(r: Request) returns (ok: bool)
      modifies this
      ensures State() == Handled(old(State()), r)
      ensures ok ==> Admits(old(State()), r) && (r.operation.Revoke? || Acceptable(r.operation))
      // At most the very operation asked for is tried, and only for an admitted, acceptable request.
      ensures effects == if Admits(old(State()), r) && !r.operation.Revoke? && Acceptable(r.operation)
                         then old(effects) + [r.operation] else old(effects)
      ensures revoked <==> old(revoked) || (Admits(old(State()), r) && r.operation.Revoke?)
      ensures effects != old(effects) ==> (ok <==> Succeeded())
      ensures effects == old(effects) ==> (ok <==> Admits(old(State()), r) && r.operation.Revoke?)
    {
      if revoked || r.version != PROTOCOL_VERSION || r.session != Some(session) { return false; }
      match r.operation
      case Revoke =>
        revoked := true;
        ok := true;
      case Other =>
        ok := false;
      case ApplyHosts(_, _, _) =>
        if !Acceptable(r.operation) { return false; }
        ok := Perform(r.operation);
      case RemoveHosts =>
        ok := Perform(r.operation);
      case Trust(_, _, _) =>
        if !Acceptable(r.operation) { return false; }
        ok := Perform(r.operation);
      case Untrust(_) =>
        if !Acceptable(r.operation) { return false; }
        ok := Perform(r.operation);
    }
  }

  // ---------- The client ----------

  datatype Outcome = Done | Refused | Failed | SessionClosed

  /** A request as it left: when, and until when the session was good. */
  datatype Sent = Sent(at: int, expires: int)

  /** What the client itself refuses to send. */
  predicate Invalid(operation: Operation) { (operation.ApplyHosts? || operation.RemoveHosts?) && !Acceptable(operation) }

  class Session {
    var connection: Server?
    var sessionId: Option<nat>
    var authorization: Option<nat>
    var expires: int
    var closed: bool
    /** What has been seen of the clock, and the last session and authorization ids given out. */
    var clock: int
    var ids: nat
    /** The authorizations obtained and revoked so far, and the requests sent. */
    ghost var obtained: multiset<nat>
    ghost var revoked: multiset<nat>
    ghost var sent: seq<Sent>

    /** Every authorization obtained is the one in hand or has been revoked, and just once. */
    ghost predicate Accounted(inHand: Option<nat>)
      reads `obtained, `revoked, `ids
    {
      && obtained == revoked + (if inHand.Some? then multiset{inHand.value} else multiset{})
      && forall id :: obtained[id] <= 1 && (obtained[id] == 1 ==> id <= ids)
    }

    ghost predicate SentInTime()
      reads `sent
    {
      forall i :: 0 <= i < |sent| ==> sent[i].at < sent[i].expires
    }

    /** There is a connection exactly while an authorization is held; its server answers to the session. */
    ghost predicate Connected()
      reads `connection, `sessionId, `authorization, `closed, connection
    {
      && (connection == null <==> authorization.None?)
      && (connection != null ==> !connection.revoked)
      && sessionId == (if connection == null then None else Some(connection.session))
      && (closed ==> connection == null)
    }

    ghost predicate Valid()
      reads this, connection
    {
      Connected() && Accounted(authorization) && SentInTime()
    }

    /** Nothing is forgotten, no revocation is taken back, and after closing nothing more is obtained or sent. */
    twostate predicate Later()
      reads this
    {
      && old(revoked) <= revoked && old(sent) <= sent && old(clock) <= clock
      && (old(closed) ==> closed && obtained == old(obtained) && sent == old(sent))
    }

    constructor ()
      ensures Valid() && connection == null && !closed && obtained == multiset{} && sent == []
    {
      connection, sessionId, authorization, expires, closed := null, None, None, 0, false;
      clock, ids := 0, 0;
      obtained, revoked, sent := multiset{}, multiset{}, [];
    }

    method Now() returns (t: int)
      modifies `clock
      ensures t == clock && clock >= old(clock)
    {
      t := *;
      if t < clock { t := clock; }
      clock := t;
    }

    /** Asks the user; identities of temporary authorizations are not used twice. */
    method Authorize() returns (id: Option<nat>)
      requires Accounted(None)
      modifies `obtained, `ids
      ensures Accounted(id) && (id.None? ==> obtained == old(obtained))
    {
      var granted: bool := *;
      if !granted { return None; }
      ids := ids + 1;
      assert old(obtained)[ids] != 1;
      obtained := obtained + multiset{ids};
      id := Some(ids);
    }

    /** Starts the privileged process of a fresh session id, or fails. */
    method Start(ghost inHand: nat) returns (server: Server?)
      requires Accounted(Some(inHand))
      modifies `ids
      ensures Accounted(Some(inHand)) && (server != null ==> fresh(server) && !server.revoked && server.effects == [])
    {
      var ok: bool := *;
      if !ok { return null; }
      ids := ids + 1;
      server := new Server(ids);
    }

    /** The connection delivers or not, and the answer arrives or not. */
    method Deliver(server: Server, r: Request) returns (answered: bool, ok: bool)
      modifies server
      ensures server.State() == old(server.State()) || server.State() == Handled(old(server.State()), r)
      ensures answered ==> server.State() == Handled(old(server.State()), r)
      ensures answered && ok ==> Admits(old(server.State()), r) && (r.operation.Revoke? || Acceptable(r.operation))
      ensures server.effects == old(server.effects)
              || (server.effects == old(server.effects) + [r.operation] && Acceptable(r.operation) && !r.operation.Revoke?)
      ensures answered && !r.operation.Revoke? ==>
                (ok <==> server.effects == old(server.effects) + [r.operation] && server.Succeeded())
    {
      var delivered: bool := *;
      answered, ok := false, false;
      if delivered {
        ok := server.Handle(r);
        answered := *;
      }
    }

    /** The fields after a connection is given up; its authorization must be revoked next. */
    method Forget()
      modifies `connection, `sessionId, `authorization, `expires
      ensures connection == null && sessionId.None? && authorization.None?
    {
      connection, sessionId, authorization, expires := null, None, None, 0;
    }

    method RevokeAuthorization(id: nat)
      requires Accounted(Some(id))
      modifies `revoked
      ensures Accounted(None) && old(revoked) <= revoked
    {
      revoked := revoked + multiset{id};
    }

    /** Revokes the session at the server, if that can be reached, and always its authorization. */
    method RevokeAndClose() returns (ok: bool)
      requires Valid()
      modifies this, connection
      ensures Valid() && Later() && connection == null
      ensures closed == old(closed) && obtained == old(obtained) && sent == old(sent)
      ensures ok && old(connection) != null ==> old(connection).revoked
      ensures old(connection) != null ==> old(connection).effects == old(connection.effects)
    {
      if connection == null { return true; }
      var server, id := connection, authorization.value;
      var r := Request(PROTOCOL_VERSION, sessionId, Revoke);
      Forget();
      var answered, done := Deliver(server, r);
      RevokeAuthorization(id);
      ok := answered && done;
    }

    method Adopt(server: Server, id: nat)
      requires connection == null && !closed && !server.revoked
      modifies `connection, `sessionId, `authorization, `expires, `clock
      ensures Connected() && connection == server && authorization == Some(id)
      ensures old(clock) <= clock < expires
    {
      connection, sessionId, authorization := server, Some(server.session), Some(id);
      var now := Now();
      expires := now + SESSION_TTL;
    }

    /** Obtains a new authorization and starts a process with it; if that fails it is revoked at once. */
    method Renew() returns (ok: bool)
      requires Valid() && connection == null && !closed
      modifies this
      ensures Valid() && Later() && !closed && sent == old(sent)
      ensures ok ==> connection != null && fresh(connection) && connection.effects == [] && clock < expires
      ensures !ok ==> connection == null
    {
      hide SentInTime;
      hide Accounted;
      var id := Authorize();
      if id.None? { return false; }
      var server := Start(id.value);
      if server == null {
        RevokeAuthorization(id.value);
        return false;
      }
      Adopt(server, id.value);
      ok := true;
    }

    /** Afterwards there is a connection that has not expired, or an error. */
    method Ensure() returns (ok: bool, ghost read: int)
      requires Valid() && !closed
      modifies this, connection
      ensures Valid() && Later() && !closed && sent == old(sent)
      ensures connection == old(connection) || connection == null || fresh(connection)
      ensures ok ==> connection != null && clock < expires
      ensures connection == old(connection) && connection != null ==> connection.State() == old(connection.State())
      ensures old(connection) != null ==> old(connection).effects == old(connection.effects)
      ensures connection != null && connection != old(connection) ==> connection.effects == []
      ensures !ok ==> connection == null
      // By the clock as it is read, a session still good is used as it is; another is revoked first.
      ensures old(clock) <= read <= clock
      ensures old(connection) != null && read < old(expires) ==>
                ok && connection == old(connection) && expires == old(expires) && obtained == old(obtained)
      ensures old(connection) != null && !(read < old(expires)) ==>
                connection != old(connection) && (ok ==> old(connection).revoked)
    {
      read := clock;
      if connection != null {
        var now := Now();
        read := now;
        if now < expires { ok := true; return; }
        var revoked := RevokeAndClose();
        if !revoked { ok := false; return; }
      }
      ok := Renew();
    }

    /** Sends one request; a connection that fails is given up together with its authorization. */
    method CallLocked(operation: Operation) returns (outcome: Outcome)
      requires Valid() && !closed && connection != null && clock < expires && !operation.Revoke?
      modifies this, connection
      ensures Valid() && Later() && !closed && obtained == old(obtained)
      ensures sent == old(sent) + [Sent(old(clock), old(expires))]
      ensures !outcome.SessionClosed?
      ensures outcome.Failed? <==> connection == null
      ensures connection == null || connection == old(connection)
      ensures outcome.Done? ==>
                old(connection).State()
                == Handled(old(connection.State()), Request(PROTOCOL_VERSION, old(sessionId), operation))
      ensures old(connection).effects == old(connection.effects)
              || (old(connection).effects == old(connection.effects) + [operation] && Acceptable(operation))
      ensures outcome.Done? <==>
                connection != null && connection.effects == old(connection.effects) + [operation] && connection.Succeeded()
    {
      hide Accounted;
      var server, id := connection, authorization.value;
      sent := sent + [Sent(clock, expires)];
      var answered, ok := Deliver(server, Request(PROTOCOL_VERSION, sessionId, operation));
      if !answered {
        Forget();
        RevokeAuthorization(id);
        return Failed;
      }
      outcome := if ok then Done else Refused;
    }

    /** A privileged operation: nothing happens on a closed session, and an unacceptable request is not sent. */
    method Call(operation: Operation) returns (outcome: Outcome, ghost server: Server?, ghost read: int)
      requires Valid() && !operation.Revoke?
      modifies this, connection
      ensures Valid() && Later() && closed == old(closed)
      ensures outcome.SessionClosed? <==> closed && !Invalid(operation)
      ensures closed ==> sent == old(sent) && obtained == old(obtained)
      ensures Invalid(operation) ==> outcome.Refused? && sent == old(sent) && connection == old(connection)
      ensures outcome.Failed? <==> !closed && !Invalid(operation) && connection == null
      // The request goes to the server there was or to a new one, and nowhere else.
      ensures server != null ==> server == old(connection) || fresh(server)
      ensures old(clock) <= read <= clock
      ensures old(connection) != null && !closed && !Invalid(operation) ==>
                (server == old(connection) <==> read < old(expires))
      ensures if server == null then sent == old(sent) else |sent| == |old(sent)| + 1
      ensures connection != null && !Invalid(operation) ==> server == connection
      ensures old(connection) != null && server != old(connection) ==>
                old(connection).effects == old(connection.effects)
      // It tries at most this very operation, and has tried it last of all when it is done.
      ensures server != null ==>
                var before := old(if connection == null then [] else connection.effects);
                var earlier := if server == old(connection) then before else [];
                && (server.effects == earlier || (server.effects == earlier + [operation] && Acceptable(operation)))
                && (outcome.Done? <==> connection != null && server.effects == earlier + [operation] && server.Succeeded())
      ensures outcome.Done? ==> server != null
    {
      server, read := null, clock;
      if Invalid(operation) { return Refused, server, read; }
      if closed { return SessionClosed, server, read; }
      var ready;
      ready, read := Ensure();
      if !ready { return Failed, server, read; }
      server := connection;
      outcome := CallLocked(operation);
    }

    /** Afterwards every authorization ever obtained has been revoked exactly once. */
    method Close() returns (ok: bool)
      requires Valid()
      modifies this, connection
      ensures Valid() && Later() && closed && obtained == old(obtained) && sent == old(sent)
      ensures obtained == revoked && forall id :: revoked[id] <= 1
    {
      if closed { return true; }
      ok := RevokeAndClose();
      closed := true;
    }
  }
}
