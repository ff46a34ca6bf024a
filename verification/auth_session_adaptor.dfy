/**
 * The D-Bus adaptor of an authentication session
 * (SignonDaemonNS::SignonAuthSessionAdaptor).  It keeps no state: each
 * call runs guard checks over the caller's pid, the session's owner pid,
 * the identity id and the methods and mechanisms the stored identity
 * allows, and then either replies an error, ignores the call, or forwards
 * it to the session.
 *
 * The peer-pid lookup, the identity lookup and the method/mechanism check
 * of the stored identity are foreign calls; their answers are parameters.
 */
module AuthSessionAdaptor {
  import opened Common

  /** SIGNOND_NEW_IDENTITY: the id of an identity not stored yet. */
  const NewIdentity: nat := 0

  /** The session the adaptor belongs to. */
  datatype Session = Session(id: nat, ownerPid: int, authMethod: string)

  /**
   * The answer of SignonIdentityInfo::checkMethodAndMechanism for the
   * stored identity: whether the mechanism may be used, and the mechanism
   * actually to use (it may be rewritten).
   */
  datatype MechanismCheck = MechanismCheck(allowed: bool, allowedMechanism: string)

  /** The D-Bus errors the adaptor replies. */
  datatype AdaptorError =
    | PermissionDenied
    | MethodOrMechanismNotAllowed(authMethod: string, mechanism: string, allowed: string)

  /**
   * The fate of a call: forwarded to the session with the given argument,
   * rejected with an error reply (and an empty return value), or silently
   * dropped.
   */
  datatype Outcome<T> = Forwarded(arg: T) | Rejected(error: AdaptorError) | Ignored

  predicate IsOwner(session: Session, peerPid: int)
  {
    peerPid == session.ownerPid
  }

  /** queryAvailableMechanisms: only the owner's call is forwarded. */
  function QueryAvailableMechanisms(session: Session, peerPid: int, wanted: seq<string>): (r: Outcome<seq<string>>)
    ensures r.Forwarded? <==> IsOwner(session, peerPid)
    ensures r.Forwarded? ==> r.arg == wanted
    ensures !r.Forwarded? ==> r == Rejected(PermissionDenied)
  {
    if !IsOwner(session, peerPid) then Rejected(PermissionDenied) else Forwarded(wanted)
  }

  /**
   * process.  For a stored identity whose DB record could be read
   * (`check` is Some), a refused method or mechanism is reported first;
   * then the owner check applies; the session receives the mechanism as
   * the check rewrote it.  `check` is None when the credentials DB handle
   * is null, and is not consulted for a new identity.
   */
  function Process(session: Session, peerPid: int, mechanism: string, check: Option<MechanismCheck>): (r: Outcome<string>)
    ensures r.Forwarded? ==> IsOwner(session, peerPid)
    ensures r.Forwarded? ==>
              r.arg == (if session.id != NewIdentity && check.Some? then check.value.allowedMechanism else mechanism)
    ensures r.Forwarded? || r.Rejected?
    ensures r.Forwarded? <==>
              IsOwner(session, peerPid) && !(session.id != NewIdentity && check.Some? && !check.value.allowed)
    ensures r == Rejected(PermissionDenied) <==>
              !IsOwner(session, peerPid) && !(session.id != NewIdentity && check.Some? && !check.value.allowed)
    ensures r.Rejected? && r.error.MethodOrMechanismNotAllowed? <==>
              session.id != NewIdentity && check.Some? && !check.value.allowed
  {
    var allowedMechanism :=
      if session.id != NewIdentity && check.Some? then check.value.allowedMechanism else mechanism;
    if session.id != NewIdentity && check.Some? && !check.value.allowed then
      Rejected(MethodOrMechanismNotAllowed(session.authMethod, mechanism, allowedMechanism))
    else if !IsOwner(session, peerPid) then
      Rejected(PermissionDenied)
    else
      Forwarded(allowedMechanism)
  }

  /** cancel: a call from anyone but the owner is dropped without a reply. */
  function Cancel(session: Session, peerPid: int): (r: Outcome<()>)
    ensures r.Forwarded? <==> IsOwner(session, peerPid)
    ensures !r.Forwarded? ==> r.Ignored?
  {
    if !IsOwner(session, peerPid) then Ignored else Forwarded(())
  }

  /**
   * setId: forwarded only for the owner, and only with an identity the
   * peer may use (`mayUseIdentity`, the access-control answer);
   * otherwise dropped without a reply.
   */
  function SetId(session: Session, peerPid: int, id: nat, mayUseIdentity: bool): (r: Outcome<nat>)
    ensures r.Forwarded? <==> IsOwner(session, peerPid) && mayUseIdentity
    ensures r.Forwarded? ==> r.arg == id
    ensures !r.Forwarded? ==> r.Ignored?
  {
    if !IsOwner(session, peerPid) then Ignored
    else if !mayUseIdentity then Ignored
    else Forwarded(id)
  }

  /**
   * For a new identity, or when the DB handle is null, process applies
   * the owner check alone: the mechanism is forwarded unchanged to the
   * owner and refused with PermissionDenied to anyone else, whatever the
   * stored identity would have allowed.
   */
  lemma ProcessWithoutMechanismCheck(session: Session, peerPid: int, mechanism: string, check: Option<MechanismCheck>)
    requires session.id == NewIdentity || check.None?
    ensures Process(session, peerPid, mechanism, check) ==
              (if IsOwner(session, peerPid) then Forwarded(mechanism) else Rejected(PermissionDenied))
    ensures session.id == NewIdentity ==>
              forall other: Option<MechanismCheck> :: Process(session, peerPid, mechanism, other) == Process(session, peerPid, mechanism, check)
  {
  }

  /**
   * The mechanism check comes before the owner check: a refused mechanism
   * on a stored identity is reported as such even to a peer that does not
   * own the session, and the reply does not depend on who asks.
   */
  lemma MechanismCheckPrecedesOwnerCheck(session: Session, peerPid: int, otherPid: int, mechanism: string, check: MechanismCheck)
    requires session.id != NewIdentity && !check.allowed
    ensures Process(session, peerPid, mechanism, Some(check)) ==
              Rejected(MethodOrMechanismNotAllowed(session.authMethod, mechanism, check.allowedMechanism))
    ensures Process(session, peerPid, mechanism, Some(check)) == Process(session, otherPid, mechanism, Some(check))
  {
  }

  /** No call from a peer other than the owner ever reaches the session. */
  lemma OnlyOwnerIsForwarded(session: Session, peerPid: int, wanted: seq<string>, mechanism: string,
                             check: Option<MechanismCheck>, id: nat, mayUseIdentity: bool)
    requires !IsOwner(session, peerPid)
    ensures !QueryAvailableMechanisms(session, peerPid, wanted).Forwarded?
    ensures !Process(session, peerPid, mechanism, check).Forwarded?
    ensures !Cancel(session, peerPid).Forwarded?
    ensures !SetId(session, peerPid, id, mayUseIdentity).Forwarded?
  {
  }
}
