/**
 * The settings and service layer: signers and gateways looked up by profile id,
 * the owner's profiles read from a key-value store, and joining a home, which
 * writes the registered profile back to that store.
 *
 * The gateway's `register` and `initialize` and the user's profile choice are
 * code this model does not see: they are parameters.
 */
module Service {

  import opened Wrappers
  import opened Protocol
  import opened Profiles
  import opened StorageErrors

  const ProfileNotFound := Todo("profile not found")
  const NotPersona := Todo("not a persona profile")
  const NoClient := Todo("Failed to initialize client for profile")
  const InvalidProfile := Todo("Invalid profile specified")

  datatype SignerFactory = SignerFactory(signers: map<ProfileId, SignerHandle>) {

    /** The signer kept for `profileId`, if any. */
    function Signer(profileId: ProfileId): (r: Option<SignerHandle>)
      ensures r.Some? <==> profileId in signers
      ensures r.Some? ==> r.value == signers[profileId]
    {
      if profileId in signers then Some(signers[profileId]) else None
    }
  }

  datatype ProfileGatewayFactory = ProfileGatewayFactory(signerFactory: SignerFactory, profileRepo: RepoHandle, homeConnector: ConnectorHandle) {

    /** A gateway for `profileId` built from its signer and the shared repository and connector; none without a signer. */
    function Gateway(profileId: ProfileId): (r: Option<ProfileGateway>)
      ensures r.None? <==> signerFactory.Signer(profileId).None?
      ensures r.Some? ==> r.value == ProfileGatewayImpl(signerFactory.signers[profileId], profileRepo, homeConnector)
    {
      match signerFactory.Signer(profileId)
      case Some(signer) => Some(ProfileGatewayImpl(signer, profileRepo, homeConnector))
      case None => None
    }
  }

  /** The key-value store the owner's profiles are kept in, as an in-memory map. */
  class KeyValueStore {

    var entries: map<ProfileId, OwnProfile>

    constructor (entries: map<ProfileId, OwnProfile>)
      ensures this.entries == entries
    {
      this.entries := entries;
    }

    function Get(key: ProfileId): (r: Result<OwnProfile, StorageError>)
      reads this
      ensures r.Success? <==> key in entries
      ensures r.Success? ==> r.value == entries[key]
      ensures r.Failure? ==> r.error == InvalidKey
    {
      if key in entries then Success(entries[key]) else Failure(InvalidKey)
    }

    method Set(key: ProfileId, value: OwnProfile) returns (r: Result<(), StorageError>)
      modifies this
      ensures r == Success(())
      ensures entries == old(entries)[key := value]
    {
      entries := entries[key := value];
      r := Success(());
    }
  }

  /** `ids` lists every element of `s` exactly once: an iteration order of the set. */
  predicate Enumerates(ids: seq<ProfileId>, s: set<ProfileId>)
  {
    && (forall i, j :: 0 <= i < j < |ids| ==> ids[i] != ids[j])
    && (forall i :: 0 <= i < |ids| ==> ids[i] in s)
    && (forall id :: id in s ==> id in ids)
  }

  /** Every id looked up in the store, in order; fails if any one of them is missing. */
  function FetchAll(entries: map<ProfileId, OwnProfile>, ids: seq<ProfileId>): (r: Result<seq<OwnProfile>, Error>)
    ensures r.Success? <==> forall i :: 0 <= i < |ids| ==> ids[i] in entries
    ensures r.Success? ==> |r.value| == |ids| && forall i :: 0 <= i < |ids| ==> r.value[i] == entries[ids[i]]
    ensures r.Failure? ==> r.error == ProfileNotFound
    decreases |ids|
  {
    if ids == [] then Success([])
    else if ids[0] !in entries then Failure(ProfileNotFound)
    else match FetchAll(entries, ids[1..])
      case Failure(e) => Failure(e)
      case Success(rest) => Success([entries[ids[0]]] + rest)
  }

  /** What a gateway's `register` answers for a home id and an own profile (no invitation). */
  type Register = (ProfileGateway, ProfileId, OwnProfile) -> Result<OwnProfile, (OwnProfile, Error)>

  /** The answer of `join_home` and the store's entries after it. */
  datatype JoinStep = JoinStep(result: Result<(), Error>, entries: map<ProfileId, OwnProfile>)

  /**
   * Joining a home: read the profile from the store, find its gateway, ask the
   * gateway to register it with the home `homeId`, and write what comes back.
   */
  function JoinHomeStep(entries: map<ProfileId, OwnProfile>, gateways: ProfileGatewayFactory,
                        profile: ProfileId, homeId: ProfileId, register: Register): (s: JoinStep)
    ensures profile !in entries ==> s == JoinStep(Failure(Todo(InvalidKey.Description())), entries)
    ensures profile in entries && gateways.Gateway(profile).None? ==> s == JoinStep(Failure(NoClient), entries)
    ensures profile in entries && gateways.Gateway(profile).Some? ==>
              var answer := register(gateways.Gateway(profile).value, homeId, entries[profile]);
              (answer.Failure? ==> s == JoinStep(Failure(answer.error.1), entries)) &&
              (answer.Success? ==> s == JoinStep(Success(()), entries[profile := answer.value]))
    // the store is written only by a successful join
    ensures s.result.Failure? ==> s.entries == entries
  {
    if profile !in entries then JoinStep(Failure(Todo(InvalidKey.Description())), entries)
    else match gateways.Gateway(profile)
      case None => JoinStep(Failure(NoClient), entries)
      case Some(gateway) =>
        match register(gateway, homeId, entries[profile])
        case Failure((_, e)) => JoinStep(Failure(e), entries)
        case Success(ownProfile) => JoinStep(Success(()), entries[profile := ownProfile])
  }

  datatype SettingsImpl = SettingsImpl(myProfiles: set<ProfileId>, profileStore: KeyValueStore, gateways: ProfileGatewayFactory) {

    /**
     * One own profile per id in `myProfiles`, in the set's iteration order `order`;
     * fails if any one of them is not in the store.
     */
    function Profiles(order: seq<ProfileId>): (r: Result<seq<OwnProfile>, Error>)
      requires Enumerates(order, myProfiles)
      reads profileStore
      ensures r.Success? <==> myProfiles <= profileStore.entries.Keys
      ensures r.Success? ==> |r.value| == |order| == |myProfiles|
      ensures r.Success? ==> forall i :: 0 <= i < |order| ==> r.value[i] == profileStore.entries[order[i]]
      ensures r.Failure? ==> r.error == ProfileNotFound
    {
      DistinctLength(order, myProfiles);
      FetchAll(profileStore.entries, order)
    }

    /** The home proofs of a stored Persona profile; an error for a Home profile or a missing one. */
    function Homes(profileId: ProfileId): (r: Result<seq<RelationProof>, Error>)
      reads profileStore
      ensures profileId !in profileStore.entries ==> r == Failure(Todo("The given key holds no value"))
      ensures profileId in profileStore.entries && profileStore.entries[profileId].profile.facet.Persona? ==>
                r == Success(profileStore.entries[profileId].profile.facet.persona.homes)
      ensures profileId in profileStore.entries && profileStore.entries[profileId].profile.facet.Home? ==>
                r == Failure(NotPersona)
    {
      match profileStore.Get(profileId)
      case Failure(e) => Failure(Todo(e.Description()))
      case Success(ownProfile) =>
        match ownProfile.profile.facet
        case Persona(persona) => Success(persona.homes)
        case Home(_) => Failure(NotPersona)
    }

    /** `join_home` with the home the caller names handed on to `register`. */
    method JoinHome(profile: ProfileId, home: ProfileId, register: Register) returns (r: Result<(), Error>)
      modifies profileStore
      ensures JoinStep(r, profileStore.entries) == JoinHomeStep(old(profileStore.entries), gateways, profile, home, register)
    {
      r := JoinHomeWith(profile, home, register);
    }

    /** `join_home` as written: the profile's own id goes where `register` expects the home's. */
    method JoinHomeAsWritten(profile: ProfileId, home: ProfileId, register: Register) returns (r: Result<(), Error>)
      modifies profileStore
      ensures JoinStep(r, profileStore.entries) == JoinHomeStep(old(profileStore.entries), gateways, profile, profile, register)
    {
      r := JoinHomeWith(profile, profile, register);
    }

    /**
     * The steps of `join_home`: read the profile, find its gateway, register it
     * with `homeId`, and write what comes back to the store.
     */
    method JoinHomeWith(profile: ProfileId, homeId: ProfileId, register: Register) returns (r: Result<(), Error>)
      modifies profileStore
      ensures JoinStep(r, profileStore.entries) == JoinHomeStep(old(profileStore.entries), gateways, profile, homeId, register)
    {
      var stored := profileStore.Get(profile);
      if stored.Failure? {
        return Failure(Todo(stored.error.Description()));
      }
      var gateway := gateways.Gateway(profile);
      if gateway.None? {
        return Failure(NoClient);
      }
      var registered := register(gateway.value, homeId, stored.value);
      if registered.Failure? {
        return Failure(registered.error.1);
      }
      var written := profileStore.Set(profile, registered.value);
      match written
      case Success(_) => r := Success(());
      case Failure(e) => r := Failure(Todo(e.Description()));
    }
  }

  lemma DistinctLength(ids: seq<ProfileId>, s: set<ProfileId>)
    requires Enumerates(ids, s)
    ensures |ids| == |s|
  {
    if ids != [] {
      var rest := ids[1..];
      assert Enumerates(rest, s - {ids[0]}) by {
        forall id | id in s - {ids[0]} ensures id in rest {
            assert id in ids;
            var k :| 0 <= k < |ids| && ids[k] == id;
            assert k != 0;
            assert rest[k - 1] == id;
        }
      }
      DistinctLength(rest, s - {ids[0]});
    }
  }

  /**
   * A gateway that can register only with home `h`: joining `h` as written asks it
   * for the profile's own id `p` instead and fails, joining `h` as intended succeeds.
   */
  lemma JoinHomeAsWrittenMissesHome()
    ensures var p := ProfileId([1]);
            var h := ProfileId([2]);
            var own := OwnProfile(Profile(p, PublicKey([]), Persona(PersonaFacet([], []))), []);
            var gateways := ProfileGatewayFactory(SignerFactory(map[p := SignerHandle(p, PublicKey([]))]), RepoHandle(0), ConnectorHandle(0));
            var register: Register := (g, homeId, o) => if homeId == h then Success(o) else Failure((o, Todo("no such home")));
            JoinHomeStep(map[p := own], gateways, p, p, register).result == Failure(Todo("no such home")) &&
            JoinHomeStep(map[p := own], gateways, p, h, register).result == Success(())
  {
  }

  datatype ServiceImpl = ServiceImpl(myProfiles: set<ProfileId>, profileStore: KeyValueStore, gateways: ProfileGatewayFactory) {

    /**
     * The endpoint for `app` on the gateway of the profile the user selected;
     * "Invalid profile specified" when that profile has no gateway.
     */
    function DappEndpoint(app: ApplicationId, selected: Result<ProfileId, Error>,
                          initialize: (ProfileGateway, ApplicationId) -> Result<DAppEndpoint, Error>): (r: Result<DAppEndpoint, Error>)
      ensures selected.Failure? ==> r == Failure(selected.error)
      ensures selected.Success? && gateways.Gateway(selected.value).None? ==> r == Failure(InvalidProfile)
      ensures selected.Success? && gateways.Gateway(selected.value).Some? ==>
                r == initialize(gateways.Gateway(selected.value).value, app)
    {
      match selected
      case Failure(e) => Failure(e)
      case Success(profileId) =>
        match gateways.Gateway(profileId)
        case None => Failure(InvalidProfile)
        case Some(gateway) => initialize(gateway, app)
    }

    /** The settings endpoint shares this service's profiles, store and gateways. */
    function AdminEndpoint(authorization: Bytes): (r: Result<SettingsImpl, Error>)
      ensures r.Success? && r.value == SettingsImpl(myProfiles, profileStore, gateways)
    {
      Success(SettingsImpl(myProfiles, profileStore, gateways))
    }
  }

  /** A dApp endpoint handed out by a gateway; opaque here. */
  datatype DAppEndpoint = DAppEndpoint(token: nat)
}
