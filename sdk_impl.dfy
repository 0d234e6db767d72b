/**
 * The facade a hosted application uses: it logs in through its gateway once and
 * keeps the session, finds the relation to a peer among the contacts, and opens calls.
 *
 * The gateway's own code is not part of this model: what its `login` and `call`
 * answer, and the contact list the facade reads, are parameters.
 */
module SdkImpl {

  import opened Wrappers
  import opened Protocol
  import opened Profiles

  const NoRelation := Todo("get_relation_proof: no appropriate relation found")
  const CallRefused := Todo("call was refused be the callee")

  /** What the gateway's `call` answers for a relation, an app, a first message and a reply sink. */
  type GatewayCall = (Relation, ApplicationId, AppMessageFrame, Option<AppMsgSink>) -> Result<Option<AppMsgSink>, Error>

  predicate IsPeer(relation: Relation, myId: ProfileId, peer: ProfileId)
  {
    PeerId(relation.proof, myId) == Success(peer)
  }

  /** The position of the first contact, in list order, whose relation links `myId` to `peer`. */
  function FirstMatch(contacts: seq<Relation>, myId: ProfileId, peer: ProfileId): (r: Option<nat>)
    ensures r.Some? ==> r.value < |contacts| && IsPeer(contacts[r.value], myId, peer)
    ensures r.Some? ==> forall j :: 0 <= j < r.value ==> !IsPeer(contacts[j], myId, peer)
    ensures r.None? ==> forall j :: 0 <= j < |contacts| ==> !IsPeer(contacts[j], myId, peer)
    decreases |contacts|
  {
    if contacts == [] then None
    else if IsPeer(contacts[0], myId, peer) then Some(0)
    else match FirstMatch(contacts[1..], myId, peer)
      case None => None
      case Some(k) => Some(k + 1)
  }

  class DAppConnect {

    const gateway: ProfileGateway
    const app: ApplicationId
    var session: Option<HomeSessionHandle>

    constructor (gateway: ProfileGateway, app: ApplicationId)
      ensures this.gateway == gateway && this.app == app && session == None
    {
      this.gateway := gateway;
      this.app := app;
      session := None;
    }

    /**
     * The cached session if there is one, without asking the gateway; otherwise
     * the gateway's answer `gatewayLogin`, which fills the slot when it is a session.
     * `asked` tells whether the gateway was asked.
     */
    method Login(gatewayLogin: Result<HomeSessionHandle, Error>) returns (r: Result<HomeSessionHandle, Error>, asked: bool)
      modifies this`session
      ensures asked <==> old(session).None?
      ensures old(session).Some? ==> r == Success(old(session).value) && session == old(session)
      ensures old(session).None? ==> r == gatewayLogin
      ensures old(session).None? ==> session == if gatewayLogin.Success? then Some(gatewayLogin.value) else None
    {
      if session.Some? {
        return Success(session.value), false;
      }
      asked := true;
      r := gatewayLogin;
      if gatewayLogin.Success? {
        session := Some(gatewayLogin.value);
      }
    }

    /**
     * The first contact, in list order, whose relation names the selected profile
     * and `profileId`; an error when there is none, and no pairing is started.
     */
    function GetRelationProof(profileId: ProfileId, contacts: Result<seq<Relation>, Error>): (r: Result<Relation, Error>)
      ensures contacts.Failure? ==> r == Failure(contacts.error)
      ensures contacts.Success? && r.Success? ==>
                exists i :: 0 <= i < |contacts.value| && r.value == contacts.value[i] &&
                  IsPeer(contacts.value[i], gateway.signer.profileId, profileId) &&
                  forall j :: 0 <= j < i ==> !IsPeer(contacts.value[j], gateway.signer.profileId, profileId)
      ensures contacts.Success? ==>
                (r.Failure? <==> forall j :: 0 <= j < |contacts.value| ==> !IsPeer(contacts.value[j], gateway.signer.profileId, profileId))
      ensures contacts.Success? && r.Failure? ==> r.error == NoRelation
    {
      match contacts
      case Failure(e) => Failure(e)
      case Success(list) =>
        match FirstMatch(list, gateway.signer.profileId, profileId)
        case Some(i) => Success(list[i])
        case None => Failure(NoRelation)
    }

    function SelectedProfile(): (r: ProfileId)
      ensures r == gateway.signer.profileId
    {
      gateway.signer.profileId
    }

    /** Logs in (reusing the cached session) and hands back that session's incoming calls for this app. */
    method Checkin(gatewayLogin: Result<HomeSessionHandle, Error>) returns (r: Result<IncomingCallStream, Error>)
      modifies this`session
      ensures old(session).Some? ==> r == Success(IncomingCalls(old(session).value, app)) && session == old(session)
      ensures old(session).None? && gatewayLogin.Success? ==> r == Success(IncomingCalls(gatewayLogin.value, app)) && session == Some(gatewayLogin.value)
      ensures old(session).None? && gatewayLogin.Failure? ==> r == Failure(gatewayLogin.error) && session == None
    {
      var login, _ := Login(gatewayLogin);
      match login
      case Success(s) => r := Success(IncomingCalls(s, app));
      case Failure(e) => r := Failure(e);
    }

    /**
     * Opens a call to `profileId` over the relation found among the contacts. The
     * facade makes a channel (numbered `channel`), hands its sink to the gateway as
     * the callee's way back, and keeps its stream end as the call's receiver.
     */
    function Call(profileId: ProfileId, initPayload: AppMessageFrame, contacts: Result<seq<Relation>, Error>,
                  channel: nat, gatewayCall: GatewayCall): (r: Result<Protocol.Call, Error>)
      ensures GetRelationProof(profileId, contacts).Failure? ==> r == Failure(GetRelationProof(profileId, contacts).error)
      ensures r.Success? <==>
                GetRelationProof(profileId, contacts).Success? &&
                (var answer := gatewayCall(GetRelationProof(profileId, contacts).value, app, initPayload, Some(AppMsgSink(channel)));
                 answer.Success? && answer.value.Some?)
      ensures r.Success? ==>
                var answer := gatewayCall(GetRelationProof(profileId, contacts).value, app, initPayload, Some(AppMsgSink(channel)));
                r.value.sender == answer.value.value && Paired(AppMsgSink(channel), r.value.receiver)
      ensures GetRelationProof(profileId, contacts).Success? ==>
                var answer := gatewayCall(GetRelationProof(profileId, contacts).value, app, initPayload, Some(AppMsgSink(channel)));
                (answer == Success(None) ==> r == Failure(CallRefused)) &&
                (answer.Failure? ==> r == Failure(answer.error))
    {
      match GetRelationProof(profileId, contacts)
      case Failure(e) => Failure(e)
      case Success(relation) =>
        match gatewayCall(relation, app, initPayload, Some(AppMsgSink(channel)))
        case Failure(e) => Failure(e)
        case Success(None) => Failure(CallRefused)
        case Success(Some(toCallee)) => Success(Protocol.Call(toCallee, AppMsgStream(channel)))
    }
  }
}
