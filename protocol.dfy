/** The two result shapes every operation of the core hands back. */
module Wrappers {

  datatype Option<+T> = None | Some(value: T)

  datatype Result<+T, +E> = Success(value: T) | Failure(error: E)
}

/**
 * The value types of the home protocol crate that the connect code works on.
 * The crate itself is not part of this model; its records are rebuilt here from
 * the way the connect code constructs and reads them.
 */
module Protocol {

  import opened Wrappers

  newtype byte = x: int | 0 <= x < 256

  type Bytes = seq<byte>

  /** `multihash::encode` with SHA2-256, left uninterpreted: callers supply it. */
  type Hash = Bytes -> Bytes

  datatype ProfileId = ProfileId(bytes: Bytes)

  datatype PublicKey = PublicKey(bytes: Bytes)

  datatype Signature = Signature(bytes: Bytes)

  /** A parsed multiaddress; address parsing is a foreign library and stays opaque. */
  datatype Multiaddr = Multiaddr(text: string)

  datatype ApplicationId = ApplicationId(name: string)

  datatype AppMessageFrame = AppMessageFrame(bytes: Bytes)

  datatype HomeInvitation = HomeInvitation(bytes: Bytes)

  datatype RelationHalfProof = RelationHalfProof(relationType: string, signerId: ProfileId, peerId: ProfileId, signature: Signature)

  datatype RelationProof = RelationProof(relationType: string, aId: ProfileId, aSignature: Signature, bId: ProfileId, bSignature: Signature)

  datatype PersonaFacet = PersonaFacet(homes: seq<RelationProof>, data: Bytes)

  datatype HomeFacet = HomeFacet(addrs: seq<Multiaddr>, data: Bytes)

  datatype ProfileFacet = Home(home: HomeFacet) | Persona(persona: PersonaFacet)

  /** An event a home queues for a profile; its contents play no part here. */
  datatype ProfileEvent = ProfileEvent(token: nat)

  /** `ErrorToBeSpecified::TODO(message)`, the only error the core raises. */
  datatype Error = Todo(message: string)

  /** The two ends of one message channel are told apart by the channel they belong to. */
  datatype AppMsgSink = AppMsgSink(channel: nat)

  datatype AppMsgStream = AppMsgStream(channel: nat)

  predicate Paired(sink: AppMsgSink, stream: AppMsgStream)
  {
    sink.channel == stream.channel
  }

  datatype Call = Call(sender: AppMsgSink, receiver: AppMsgStream)

  /** A shared handle to a signer capability: what `profile_id()` and `pub_key()` answer. */
  datatype SignerHandle = SignerHandle(profileId: ProfileId, publicKey: PublicKey)

  /** Shared handles to capabilities whose code is not part of this model. */
  datatype RepoHandle = RepoHandle(token: nat)

  datatype ConnectorHandle = ConnectorHandle(token: nat)

  datatype HomeSessionHandle = HomeSessionHandle(token: nat)

  /** The stream of incoming calls a session delivers for one application. */
  datatype IncomingCallStream = IncomingCalls(session: HomeSessionHandle, app: ApplicationId)

  /** `ProfileGatewayImpl`: a signer, a profile repository and a home connector. */
  datatype ProfileGateway = ProfileGatewayImpl(signer: SignerHandle, profileRepo: RepoHandle, homeConnector: ConnectorHandle)

  /**
   * `RelationProof::peer_id`: the other party of the relation, seen from `myId`;
   * an error when `myId` is neither party.
   */
  function PeerId(proof: RelationProof, myId: ProfileId): (r: Result<ProfileId, Error>)
    ensures r.Success? <==> myId == proof.aId || myId == proof.bId
    ensures r.Success? && myId == proof.aId ==> r.value == proof.bId
    ensures r.Success? && myId != proof.aId ==> r.value == proof.aId
  {
    if proof.aId == myId then Success(proof.bId)
    else if proof.bId == myId then Success(proof.aId)
    else Failure(Todo("peer_id: given profile_id is not part of this relation"))
  }
}

/**
 * The profile records of the current protocol crate, as the service and the
 * application facade use them: a profile carries exactly one facet.
 */
module Profiles {

  import opened Protocol

  datatype Profile = Profile(id: ProfileId, pubKey: PublicKey, facet: ProfileFacet)

  datatype OwnProfile = OwnProfile(profile: Profile, privData: Bytes)

  datatype Relation = Relation(profile: Profile, proof: RelationProof)
}
