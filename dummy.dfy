/**
 * The in-memory test home of the connect crate: a profile store, a home that
 * registers personas into it, a deterministic signer, a connector that always
 * hands out the one home, and sessions whose operations are stubs.
 *
 * This file is written against the earlier shape of the profile record, whose
 * facets are a list; `Profile` and `OwnProfile` below are that shape.
 */
module Dummy {

  import opened Wrappers
  import opened Protocol
  import Utf8

  datatype Profile = Profile(id: ProfileId, pubKey: PublicKey, facets: seq<ProfileFacet>)

  datatype OwnProfile = OwnProfile(profile: Profile, privData: Bytes)

  /** `create_ownprofile`: a profile with no private data. */
  function CreateOwnProfile(p: Profile): (r: OwnProfile)
    ensures r.profile == p && r.privData == []
  {
    OwnProfile(p, [])
  }

  /**
   * `make_own_persona_profile`: id is the hash of the key, one empty Persona facet,
   * so the profile is of the kind a home accepts for registration.
   */
  function MakeOwnPersonaProfile(hash: Hash, pubKey: PublicKey): (r: Profile)
    ensures r.id.bytes == hash(pubKey.bytes) && r.pubKey == pubKey
    ensures r.facets == [Persona(PersonaFacet([], []))]
    ensures AllPersona(r.facets) && r.facets != []
  {
    Profile(ProfileId(hash(pubKey.bytes)), pubKey, [Persona(PersonaFacet([], []))])
  }

  /**
   * `make_home_profile`: id is the hash of the key, one Home facet listing the
   * address, so the profile is of the kind a home refuses to register.
   */
  function MakeHomeProfile(hash: Hash, addr: Multiaddr, pubKey: PublicKey): (r: Profile)
    ensures r.id.bytes == hash(pubKey.bytes) && r.pubKey == pubKey
    ensures r.facets == [Home(HomeFacet([addr], []))]
    ensures !AllPersona(r.facets)
  {
    var r := Profile(ProfileId(hash(pubKey.bytes)), pubKey, [Home(HomeFacet([addr], []))]);
    assert !r.facets[0].Persona?;
    r
  }

  // ---------------------------------------------------------------------------
  // Signo, the deterministic test signer

  datatype Signo = Signo(profId: ProfileId, pubkey: PublicKey, privkey: Bytes) {

    /**
     * The signature is the data followed by the private key, both read as text:
     * it panics (None) unless both are valid UTF-8.
     */
    function Sign(data: Bytes): (r: Option<Signature>)
      ensures r.Some? <==> Utf8.Valid(data) && Utf8.Valid(privkey)
      ensures r.Some? ==> |r.value.bytes| == |data| + |privkey|
      ensures r.Some? ==> r.value.bytes[..|data|] == data && r.value.bytes[|data|..] == privkey
      ensures r.Some? ==> Utf8.Valid(r.value.bytes)
    {
      if Utf8.Valid(data) && Utf8.Valid(privkey) then
        Utf8.AppendValid(data, privkey);
        Some(Signature(data + privkey))
      else
        None
    }
  }

  /** `Signo::new(whatever)`, with `whatever` given as its UTF-8 bytes. */
  function SignoNew(hash: Hash, whatever: Bytes): (s: Signo)
    ensures s.pubkey.bytes == s.privkey == hash(whatever)
    ensures s.profId.bytes == hash(s.pubkey.bytes)
  {
    Signo(ProfileId(hash(hash(whatever))), PublicKey(hash(whatever)), hash(whatever))
  }

  /** A test signer's id is the id `make_own_persona_profile` gives its public key. */
  lemma SignoOwnsPersonaProfile(hash: Hash, whatever: Bytes)
    ensures MakeOwnPersonaProfile(hash, SignoNew(hash, whatever).pubkey).id == SignoNew(hash, whatever).profId
  {
  }

  // ---------------------------------------------------------------------------
  // ProfileStore

  class ProfileStore {

    var content: map<ProfileId, Profile>

    constructor ()
      ensures content == map[]
    {
      content := map[];
    }

    /** Stores `profile` under `id` and hands back what was stored there before. */
    method Insert(id: ProfileId, profile: Profile) returns (prev: Option<Profile>)
      modifies this
      ensures prev == if id in old(content) then Some(old(content)[id]) else None
      ensures content == old(content)[id := profile]
      ensures Get(id) == Some(profile) && Load(id) == Success(profile)
    {
      prev := if id in content then Some(content[id]) else None;
      content := content[id := profile];
    }

    function Get(id: ProfileId): (r: Option<Profile>)
      reads this
      ensures r.Some? <==> id in content
      ensures r.Some? ==> r.value == content[id]
    {
      if id in content then Some(content[id]) else None
    }

    /** The sender of the listing channel is dropped at once: the stream ends empty. */
    function List(): (r: seq<Profile>)
      ensures r == []
    {
      []
    }

    /** The profile stored under `id`; never another profile, and an error when there is none. */
    function Load(id: ProfileId): (r: Result<Profile, Error>)
      reads this
      ensures r.Success? <==> id in content
      ensures r.Success? ==> r.value == content[id]
      ensures r.Failure? ==> r.error == Todo("ProfileStore/ProfileRepo.load ")
    {
      match Get(id)
      case Some(profile) => Success(profile)
      case None => Failure(Todo("ProfileStore/ProfileRepo.load "))
    }

    function Resolve(url: string): (r: Result<Profile, Error>)
      ensures r.Failure? && r.error == Todo("ProfileStore/ProfileRepo.resolve ")
    {
      Failure(Todo("ProfileStore/ProfileRepo.resolve "))
    }
  }

  // ---------------------------------------------------------------------------
  // Registration, as a function of the two maps the home owns

  /** The "home" relation `register` adds: each side "signs" with its raw public key. */
  function HomeProof(profile: Profile, homeProfile: Profile): RelationProof
  {
    RelationProof("home", profile.id, Signature(profile.pubKey.bytes), homeProfile.id, Signature(homeProfile.pubKey.bytes))
  }

  predicate AllPersona(facets: seq<ProfileFacet>)
  {
    forall i :: 0 <= i < |facets| ==> facets[i].Persona?
  }

  function AddHome(facet: ProfileFacet, proof: RelationProof): ProfileFacet
  {
    match facet
    case Persona(p) => Persona(PersonaFacet(p.homes + [proof], p.data))
    case Home(_) => facet
  }

  /** Every Persona facet of `own` with the home proof appended. */
  function Registered(own: OwnProfile, homeProfile: Profile): (r: OwnProfile)
    ensures r.profile.id == own.profile.id && r.profile.pubKey == own.profile.pubKey && r.privData == own.privData
    ensures |r.profile.facets| == |own.profile.facets|
    ensures forall i :: 0 <= i < |own.profile.facets| && own.profile.facets[i].Persona? ==>
              r.profile.facets[i].Persona? &&
              r.profile.facets[i].persona.homes == own.profile.facets[i].persona.homes + [HomeProof(own.profile, homeProfile)] &&
              r.profile.facets[i].persona.data == own.profile.facets[i].persona.data
  {
    var proof := HomeProof(own.profile, homeProfile);
    var facets := own.profile.facets;
    OwnProfile(Profile(own.profile.id, own.profile.pubKey,
                       seq(|facets|, i requires 0 <= i < |facets| => AddHome(facets[i], proof))),
               own.privData)
  }

  const RegisterNoPersona := Todo("MyDummyHome.register fails at finding Persona Facet on given profile ")
  const RegisterUnknown := Todo("MyDummyHome.register had unknown error ")
  const RegisterAlreadyStored := Todo("MyDummyHome.register already had given profile stored ")

  /** The answer of `register` and the two maps after it. */
  datatype RegisterStep = RegisterStep(result: Result<OwnProfile, (OwnProfile, Error)>,
                                       storage: map<ProfileId, Profile>,
                                       local: map<ProfileId, Bytes>)

  /**
   * `register` on a home with profile `homeProfile` whose storage layer holds
   * `storage` and whose private-data map is `local`.
   */
  function RegisterSpec(homeProfile: Profile, storage: map<ProfileId, Profile>, local: map<ProfileId, Bytes>,
                        own: OwnProfile): (s: RegisterStep)
    ensures s.result.Success? <==>
              AllPersona(own.profile.facets) && own.profile.facets != [] && own.profile.id !in storage
    ensures s.result.Success? ==> s.result.value == Registered(own, homeProfile)
    ensures s.result.Success? ==> s.local == local[own.profile.id := own.privData]
    // every failure hands back the profile exactly as it came in, and stores no private data
    ensures s.result.Failure? ==> s.result.error.0 == own && s.local == local
    ensures !AllPersona(own.profile.facets) ==> s.result.error.1 == RegisterNoPersona && s.storage == storage
    ensures AllPersona(own.profile.facets) && own.profile.facets == [] ==>
              s.result.error.1 == RegisterUnknown && s.storage == storage
    // a duplicate is reported, but its storage entry has been overwritten already
    ensures AllPersona(own.profile.facets) && own.profile.facets != [] ==>
              s.storage == storage[own.profile.id := Registered(own, homeProfile).profile]
    ensures AllPersona(own.profile.facets) && own.profile.facets != [] && own.profile.id in storage ==>
              s.result.error.1 == RegisterAlreadyStored
  {
    var id := own.profile.id;
    var registered := Registered(own, homeProfile);
    if !AllPersona(own.profile.facets) then
      RegisterStep(Failure((own, RegisterNoPersona)), storage, local)
    else if own.profile.facets == [] then
      RegisterStep(Failure((own, RegisterUnknown)), storage, local)
    else if id in storage then
      RegisterStep(Failure((own, RegisterAlreadyStored)), storage[id := registered.profile], local)
    else
      RegisterStep(Success(registered), storage[id := registered.profile], local[id := own.privData])
  }

  /** Registering the same profile a second time fails and hands the original back. */
  lemma SecondRegisterFails(homeProfile: Profile, storage: map<ProfileId, Profile>, local: map<ProfileId, Bytes>,
                            own: OwnProfile)
    ensures var first := RegisterSpec(homeProfile, storage, local, own);
            var second := RegisterSpec(homeProfile, first.storage, first.local, own);
            second.result.Failure? && second.result.error.0 == own && second.local == first.local
  {
  }

  /** A fresh persona profile registers on a home that does not know it. */
  lemma PersonaProfileRegisters(hash: Hash, pubKey: PublicKey, homeProfile: Profile,
                                storage: map<ProfileId, Profile>, local: map<ProfileId, Bytes>)
    requires ProfileId(hash(pubKey.bytes)) !in storage
    ensures var own := CreateOwnProfile(MakeOwnPersonaProfile(hash, pubKey));
            var s := RegisterSpec(homeProfile, storage, local, own);
            s.result.Success? &&
            s.result.value.profile.facets == [Persona(PersonaFacet([HomeProof(own.profile, homeProfile)], []))]
  {
    var own := CreateOwnProfile(MakeOwnPersonaProfile(hash, pubKey));
    var r := Registered(own, homeProfile);
    assert r.profile.facets[0] == Persona(PersonaFacet([HomeProof(own.profile, homeProfile)], []));
  }

  /** A home profile is never registered, and nothing is stored. */
  lemma HomeProfileRejected(hash: Hash, addr: Multiaddr, pubKey: PublicKey, privData: Bytes, homeProfile: Profile,
                            storage: map<ProfileId, Profile>, local: map<ProfileId, Bytes>)
    ensures var own := OwnProfile(MakeHomeProfile(hash, addr, pubKey), privData);
            RegisterSpec(homeProfile, storage, local, own) == RegisterStep(Failure((own, RegisterNoPersona)), storage, local)
  {
    var own := OwnProfile(MakeHomeProfile(hash, addr, pubKey), privData);
    assert !own.profile.facets[0].Persona?;
  }

  /**
   * The loop of `register` over the facet list: appends `proof` to every Persona
   * facet and stops (None) at the first facet that is not a Persona; `storing`
   * tells whether any facet was changed.
   */
  method AttachHomeProof(facets: seq<ProfileFacet>, proof: RelationProof) returns (updated: Option<seq<ProfileFacet>>, storing: bool)
    ensures updated.None? <==> !AllPersona(facets)
    ensures updated.Some? ==> |updated.value| == |facets|
    ensures updated.Some? ==> forall i :: 0 <= i < |facets| ==>
              updated.value[i] == Persona(PersonaFacet(facets[i].persona.homes + [proof], facets[i].persona.data))
    ensures updated.Some? ==> (storing <==> facets != [])
  {
    var out := facets;
    storing := false;
    var i := 0;
    while i < |out|
      invariant 0 <= i <= |out| == |facets|
      invariant forall k :: 0 <= k < i ==>
                  (facets[k].Persona? &&
                   out[k] == Persona(PersonaFacet(facets[k].persona.homes + [proof], facets[k].persona.data)))
      invariant forall k :: i <= k < |out| ==> out[k] == facets[k]
      invariant storing <==> i > 0
    {
      match out[i]
      case Persona(persona) =>
        out := out[i := Persona(PersonaFacet(persona.homes + [proof], persona.data))];
        storing := true;
        i := i + 1;
      case Home(_) =>
        updated := None;
        return;
    }
    updated := Some(out);
  }

  // ---------------------------------------------------------------------------
  // HomeSessionDummy

  /** A session of the test home: every operation but `ping` is a stub. */
  datatype HomeSessionDummy = HomeSessionDummy(prof: ProfileId, repo: ProfileStore) {

    function Update(ownProf: OwnProfile): (r: Result<(), Error>)
      ensures r.Failure? && r.error == Todo("HomeSessionDummy.update ")
    {
      Failure(Todo("HomeSessionDummy.update "))
    }

    function Unregister(newHome: Option<Profile>): (r: Result<(), Error>)
      ensures r.Failure? && r.error == Todo("HomeSessionDummy.unregister ")
    {
      Failure(Todo("HomeSessionDummy.unregister "))
    }

    /** The sender is dropped at once: the event stream ends empty. */
    function Events(): (r: seq<ProfileEvent>)
      ensures r == []
    {
      []
    }

    function CheckinApp(app: ApplicationId): (r: seq<Call>)
      ensures r == []
    {
      []
    }

    /** Echoes its input unchanged. */
    function Ping(txt: string): (r: Result<string, Error>)
      ensures r.Success? && r.value == txt
    {
      Success(txt)
    }
  }

  // ---------------------------------------------------------------------------
  // MyDummyHome

  class MyDummyHome {

    const homeProfile: Profile
    var localProfStore: map<ProfileId, Bytes>
    const storageLayer: ProfileStore
    var events: map<ProfileId, seq<ProfileEvent>>

    constructor (profile: Profile, dht: ProfileStore)
      ensures homeProfile == profile && storageLayer == dht
      ensures localProfStore == map[] && events == map[]
    {
      homeProfile := profile;
      localProfStore := map[];
      storageLayer := dht;
      events := map[];
    }

    method Insert(id: ProfileId, profile: Profile) returns (prev: Option<Profile>)
      modifies storageLayer
      ensures prev == if id in old(storageLayer.content) then Some(old(storageLayer.content)[id]) else None
      ensures storageLayer.content == old(storageLayer.content)[id := profile]
    {
      prev := storageLayer.Insert(id, profile);
    }

    function List(): (r: seq<Profile>)
      ensures r == []
    {
      []
    }

    /** The profile the storage layer holds under `id`, or an error. */
    function Load(id: ProfileId): (r: Result<Profile, Error>)
      reads storageLayer
      ensures r.Success? <==> id in storageLayer.content
      ensures r.Success? ==> r.value == storageLayer.content[id]
      ensures r.Failure? ==> r.error == Todo("MyDummyHome.load ")
    {
      match storageLayer.Get(id)
      case Some(profile) => Success(profile)
      case None => Failure(Todo("MyDummyHome.load "))
    }

    function Resolve(url: string): (r: Result<Profile, Error>)
      ensures r.Failure? && r.error == Todo("MyDummyHome.resolve ")
    {
      Failure(Todo("MyDummyHome.resolve "))
    }

    /**
     * Rebuilds an own profile from the stored public profile and the private data
     * kept for it (none kept: empty data); fails iff no public profile is stored.
     */
    function Claim(id: ProfileId): (r: Result<OwnProfile, Error>)
      reads this, storageLayer
      ensures r.Failure? <==> id !in storageLayer.content
      ensures r.Failure? ==> r.error == Todo("MyDummyHome.claim")
      ensures r.Success? ==> r.value.profile == storageLayer.content[id]
      ensures r.Success? ==> r.value.privData == if id in localProfStore then localProfStore[id] else []
    {
      match storageLayer.Get(id)
      case Some(own) =>
        if id in localProfStore then Success(OwnProfile(own, localProfStore[id]))
        else Success(OwnProfile(own, []))
      case None => Failure(Todo("MyDummyHome.claim"))
    }

    method Register(ownProf: OwnProfile, invite: Option<HomeInvitation>) returns (r: Result<OwnProfile, (OwnProfile, Error)>)
      modifies this`localProfStore, storageLayer
      ensures RegisterStep(r, storageLayer.content, localProfStore) ==
              RegisterSpec(homeProfile, old(storageLayer.content), old(localProfStore), ownProf)
      ensures r.Success? ==> Claim(ownProf.profile.id) == Success(r.value)
    {
      var id := ownProf.profile.id;
      var profile := ownProf.profile;
      var proof := HomeProof(profile, homeProfile);
      var attached, storing := AttachHomeProof(profile.facets, proof);
      if attached.None? {
        return Failure((ownProf, RegisterNoPersona));
      }
      var ownProfile := OwnProfile(Profile(id, profile.pubKey, attached.value), ownProf.privData);
      assert ownProfile == Registered(ownProf, homeProfile);
      r := Failure((ownProf, RegisterUnknown));
      if storing {
        var ins := Insert(id, ownProfile.profile);
        match ins
        case Some(updated) =>
          r := Failure((ownProf, RegisterAlreadyStored));
        case None =>
          localProfStore := localProfStore[id := ownProfile.privData];
          r := Success(ownProfile);
      }
    }

    /** Always opens a new session for `profile`; earlier sessions are not closed. */
    function Login(profile: ProfileId): (r: Result<HomeSessionDummy, Error>)
      ensures r.Success? && r.value.prof == profile && r.value.repo == storageLayer
    {
      Success(HomeSessionDummy(profile, storageLayer))
    }

    function PairRequest(halfProof: RelationHalfProof): (r: Result<(), Error>)
      ensures r.Failure? && r.error == Todo("MyDummyHome.pair_request ")
    {
      Failure(Todo("MyDummyHome.pair_request "))
    }

    function PairResponse(rel: RelationProof): (r: Result<(), Error>)
      ensures r.Failure? && r.error == Todo("MyDummyHome.pair_response ")
    {
      Failure(Todo("MyDummyHome.pair_response "))
    }

    function Call(rel: RelationProof, app: ApplicationId, initPayload: AppMessageFrame,
                  toCaller: Option<AppMsgSink>): (r: Result<Option<AppMsgSink>, Error>)
      ensures r.Failure? && r.error == Todo("MyDummyHome.call ")
    {
      Failure(Todo("MyDummyHome.call "))
    }
  }

  /** The connector of the test setup: every connection is to its one shared home. */
  datatype DummyConnector = NewWithHome(home: MyDummyHome) {

    function Connect(homeProfile: Profile, signer: SignerHandle): (r: Result<MyDummyHome, Error>)
      ensures r.Success? && r.value == home
    {
      Success(home)
    }
  }
}
