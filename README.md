# Mercury connect core, modelled in Dafny

This project models the in-memory part of the Mercury "home" protocol's connect
crate and the error descriptions of its storage crate:

- **the test home** (`connect/src/dummy.rs`): a `ProfileStore` map from profile id
  to profile; `MyDummyHome`, which registers Persona profiles into that store by
  adding a `"home"` relation proof to each Persona facet, remembers their private
  data and gives both back on `claim`; the deterministic test signer `Signo`; a
  connector that always hands out the one shared home; and sessions whose only
  working operation is `ping`.
- **the application facade** (`connect/src/sdk_impl.rs`): `DAppConnect` keeps one
  home session in a single slot, finds the relation to a peer as the first match
  among the contacts, and opens calls whose reply channel it creates itself.
- **the settings and service layer** (`connect/src/service.rs`): signers and
  gateways looked up by profile id, the owner's profiles read from a key-value
  store, `join_home` (register through the gateway, then write the result back),
  and the choice of gateway for a dApp endpoint.
- **storage error descriptions** (`storage/src/error.rs`): each error kind's
  fixed text or the text of the error it wraps; `Display` writes that text.

Files: `protocol.dfy` (modules `Wrappers`, `Protocol` and `Profiles`: the value
types of the protocol crate), `utf8.dfy` (`Utf8`: well-formed UTF-8 after section 4
of RFC 3629), `dummy.dfy` (`Dummy`), `sdk_impl.dfy` (`SdkImpl`), `service.dfy`
(`Service`), `storage_error.dfy` (`StorageErrors`).

How the source's forms were carried over:

- State the source changes in place is a class with `modifies` on its methods:
  `ProfileStore` (its map), `MyDummyHome` (its private-data map and the shared
  store it registers into), `DAppConnect` (the session slot) and `KeyValueStore`
  (the settings' profile store). The methods' postconditions give the whole new
  state; `MyDummyHome.Register` is tied to the value-level `RegisterSpec`, and
  `join_home` to `JoinHomeStep`, so that lemmas can relate several calls.
- The loop of `register` over the facet list is the method `AttachHomeProof`,
  proved against the facet-by-facet result it promises.
- Futures become `Result` values; a panic (`unwrap` on bad UTF-8) becomes `None`.
  The streams the test home hands out drop their sender at once and so end
  empty: they are modelled as the empty sequence. Other streams and channel ends
  are opaque handles (`IncomingCalls`, `AppMsgSink`, `AppMsgStream`); the two ends
  of one channel carry the same channel number.
- `multihash::encode` is a function-typed parameter `hash`. A Rust `&str` that is
  hashed (`Signo::new`) is passed as its UTF-8 bytes.
- Code the core calls but that is not part of this model is a parameter: the
  gateway's `login`, `call`, `register` and `initialize` answers, the contact
  list, the user's profile choice, and the iteration order of the `my_profiles`
  set.
- `dummy.rs` is written against an earlier protocol crate, whose profiles carry a
  list of facets (`Dummy.Profile`), and whose `register` takes no half-proof and
  whose `login` takes a profile id. `service.rs` and `sdk_impl.rs` use the
  current record with one facet (`Profiles.Profile`). Each file is modelled as
  written.

Where the code does not do what its own comments or the trait it implements
intend, the model follows the code:

- `register` on an id that is already stored reports the duplicate *after* the
  store was overwritten with the modified profile (only the private data is not
  recorded). The TODO at `connect/src/dummy.rs:293-294` leaves open how the
  error case should treat the modified profile; the code hands back the
  original but keeps the overwrite.
- `MyDummyHome::login` opens a new session every time and closes none, although
  the NOTE at `connect/src/dummy.rs:343` says login closes all earlier sessions
  of the profile.
- `DAppConnect::login` does not coalesce two logins that are in flight at once.
- `DummyConnector::connect` does not look at the home profile it is given.
- `Signo::sign` reads the private key as text. The key is a SHA2-256 multihash,
  which in general is not valid UTF-8, so as written the test signer panics for
  most seeds; `Signo.Sign` makes that case explicit.

Assumptions about code outside the files modelled: `RelationProof::peer_id`
answers the other party of the relation, or an error when the given id is
neither party (`Protocol.PeerId`); `RelationProof::new` keeps its arguments in
the order given, so the proof `register` builds has the registering profile as
its first party and the home as its second (`Dummy.HomeProof`); the profile
key-value store is an in-memory map whose `get` of a missing key fails with
`StorageError::InvalidKey` and whose `set` succeeds.

## Model

| member | source | states |
|---|---|---|
| `Dummy.ProfileStore.constructor` | connect/src/dummy.rs:179-183 | a new store is empty |
| `Dummy.ProfileStore.Insert` | connect/src/dummy.rs:187-190 | returns the profile stored under the id before (none if absent); afterwards the id maps to the new profile, and `Get` and `Load` return it |
| `Dummy.ProfileStore.Get` | connect/src/dummy.rs:192-194 | some profile iff the id is stored, and then exactly the stored one |
| `Dummy.ProfileStore.List` | connect/src/dummy.rs:198-203 | the listing stream ends without an item |
| `Dummy.ProfileStore.Load` | connect/src/dummy.rs:205-214 | succeeds iff the id is stored, with the stored profile and never another; otherwise the store's load error |
| `Dummy.ProfileStore.Resolve` | connect/src/dummy.rs:216-220 | always fails with the resolve error |
| `Dummy.MyDummyHome.constructor` | connect/src/dummy.rs:232-240 | the home keeps its profile and the shared store; private data and events start empty |
| `Dummy.MyDummyHome.Insert` | connect/src/dummy.rs:242-245 | delegates to the shared store: returns the previous entry and overwrites it |
| `Dummy.MyDummyHome.List` | connect/src/dummy.rs:249-254 | the listing stream ends without an item |
| `Dummy.MyDummyHome.Load` | connect/src/dummy.rs:256-266 | succeeds iff the shared store holds the id, with that profile; otherwise the home's load error |
| `Dummy.MyDummyHome.Resolve` | connect/src/dummy.rs:268-272 | always fails with the resolve error |
| `Dummy.MyDummyHome.Claim` | connect/src/dummy.rs:279-291 | fails iff the store has no profile for the id; otherwise that profile with the private data kept for it, or empty data if none is kept |
| `Dummy.RegisterSpec` | connect/src/dummy.rs:295-341 | success iff every facet is Persona, there is at least one, and the id is new; success stores the modified profile and records the private data; every failure hands back the original own profile and records no private data; a non-Persona facet or an empty list leaves the store alone; a duplicate overwrites the store entry |
| `Dummy.MyDummyHome.Register` | connect/src/dummy.rs:295-341 | the answer and both maps afterwards are those `RegisterSpec` gives for the maps before; after a success `Claim` returns exactly the registered own profile |
| `Dummy.AttachHomeProof` | connect/src/dummy.rs:304-321 | the facet loop stops (none) iff some facet is not Persona; otherwise each facet's homes gain the proof at the end, data unchanged, and `storing` holds iff the list is not empty |
| `Dummy.Registered` | connect/src/dummy.rs:305-315 | the registered profile keeps id, key, private data and facet count; each Persona facet's homes grow by exactly the `"home"` proof built from the profile's and the home's ids and keys |
| `Dummy.SecondRegisterFails` | connect/src/dummy.rs:325-330 | registering the same own profile again after any first attempt fails, hands back the original and records no private data |
| `Dummy.PersonaProfileRegisters` | connect/src/dummy.rs:102-111 | a profile from `make_own_persona_profile` whose id is new registers, ending with the single home proof in its one facet |
| `Dummy.HomeProfileRejected` | connect/src/dummy.rs:113-123 | a profile from `make_home_profile` is rejected with the original profile and the Persona error, and both maps are unchanged |
| `Dummy.CreateOwnProfile` | connect/src/dummy.rs:98-100 | the own profile holds the given profile and no private data |
| `Dummy.MakeOwnPersonaProfile` | connect/src/dummy.rs:102-111 | the id is the hash of the public key, the key is kept, and the one facet is an empty Persona facet, so the profile is of the kind `register` accepts |
| `Dummy.MakeHomeProfile` | connect/src/dummy.rs:113-123 | the id is the hash of the public key, the key is kept, and the one facet is a Home facet with the given address, so the profile is of the kind `register` refuses |
| `Dummy.SignoNew` | connect/src/dummy.rs:132-138 | public and private key are both the hash of the seed; the profile id is the hash of the public key |
| `Dummy.SignoOwnsPersonaProfile` | connect/src/dummy.rs:132-138 | a test signer's id is the id `make_own_persona_profile` derives from its public key |
| `Dummy.Signo.Sign` | connect/src/dummy.rs:148-153 | signs iff data and private key are both valid UTF-8 (otherwise the unwrap panics); the signature is the data followed by the key, and is itself valid UTF-8 |
| `Utf8.AppendValid` | connect/src/dummy.rs:148-153 | two valid UTF-8 strings pushed one after the other form a valid UTF-8 string |
| `Dummy.MyDummyHome.Login` | connect/src/dummy.rs:344-351 | always succeeds with a new session for the given id over the shared store |
| `Dummy.MyDummyHome.PairRequest` | connect/src/dummy.rs:356-359 | always fails |
| `Dummy.MyDummyHome.PairResponse` | connect/src/dummy.rs:361-364 | always fails |
| `Dummy.MyDummyHome.Call` | connect/src/dummy.rs:366-370 | always fails |
| `Dummy.DummyConnector.Connect` | connect/src/dummy.rs:395-399 | whatever home profile and signer, answers the one shared home handle |
| `Dummy.HomeSessionDummy.Update` | connect/src/dummy.rs:421-426 | always fails |
| `Dummy.HomeSessionDummy.Unregister` | connect/src/dummy.rs:430-436 | always fails |
| `Dummy.HomeSessionDummy.Events` | connect/src/dummy.rs:439-444 | the event stream ends without an item |
| `Dummy.HomeSessionDummy.CheckinApp` | connect/src/dummy.rs:447-453 | the incoming-call stream ends without an item |
| `Dummy.HomeSessionDummy.Ping` | connect/src/dummy.rs:456-461 | echoes its text unchanged |
| `SdkImpl.DAppConnect.constructor` | connect/src/sdk_impl.rs:24-25 | the session slot starts empty |
| `SdkImpl.DAppConnect.Login` | connect/src/sdk_impl.rs:28-42 | with a filled slot returns that session and does not ask the gateway; with an empty one asks the gateway, returns its answer, and fills the slot iff the answer is a session |
| `SdkImpl.FirstMatch` | connect/src/sdk_impl.rs:56-58 | the position of the first contact whose proof names the peer from my id; none iff no contact does |
| `SdkImpl.DAppConnect.GetRelationProof` | connect/src/sdk_impl.rs:47-69 | the first contact in list order whose relation links the selected profile to the peer; fails iff none does, with the no-relation error and no pairing; a contacts error propagates |
| `SdkImpl.DAppConnect.SelectedProfile` | connect/src/sdk_impl.rs:77-78 | the gateway's signer's profile id |
| `SdkImpl.DAppConnect.Checkin` | connect/src/sdk_impl.rs:91-99 | logs in with caching and returns the incoming calls of that session for the facade's own app id; a failed login propagates and leaves the slot empty |
| `SdkImpl.DAppConnect.Call` | connect/src/sdk_impl.rs:102-120 | succeeds iff a relation is found and the gateway answers with a sink; the call sends on that sink and receives on the channel whose sink went to the gateway; an absent answer fails as refused; errors propagate |
| `Service.SignerFactory.Signer` | connect/src/service.rs:164-165 | the stored signer iff the id is a key, none otherwise |
| `Service.ProfileGatewayFactory.Gateway` | connect/src/service.rs:180-187 | none iff there is no signer for the id; otherwise a gateway of that signer and the shared repository and connector |
| `Service.FetchAll` | connect/src/service.rs:210-215 | succeeds iff every id is stored, with one profile per id in order; otherwise "profile not found" |
| `Service.SettingsImpl.Profiles` | connect/src/service.rs:206-216 | one own profile per id of `my_profiles`, in the set's iteration order; fails iff some id is not in the store |
| `Service.SettingsImpl.Homes` | connect/src/service.rs:237-247 | a stored Persona profile's home proofs; "not a persona profile" for a Home facet; the store's error text for a missing id |
| `Service.JoinHomeStep` | connect/src/service.rs:249-269 | a missing profile or a missing gateway fails without writing; a register error propagates only its error, without writing; a registered profile is written under the profile id |
| `Service.SettingsImpl.JoinHomeWith` | connect/src/service.rs:249-269 | the answer and the store afterwards are `JoinHomeStep` for the home id it is given: the store is written only after a successful register, and then only under the profile's id |
| `Service.SettingsImpl.JoinHome` | connect/src/service.rs:249-269 | the answer and the store afterwards are `JoinHomeStep` with the named home handed to register |
| `Service.SettingsImpl.JoinHomeAsWritten` | connect/src/service.rs:258-260 | the answer and the store afterwards are `JoinHomeStep` with the profile's own id handed to register as the home |
| `Service.JoinHomeAsWrittenMissesHome` | connect/src/service.rs:258-260 | with a gateway that registers only with home `h`, joining `h` as written fails and joining it as intended succeeds |
| `Service.ServiceImpl.DappEndpoint` | connect/src/service.rs:320-331 | a failed profile choice propagates; a profile without gateway fails with "Invalid profile specified"; otherwise the endpoint its gateway initializes for the app |
| `Service.ServiceImpl.AdminEndpoint` | connect/src/service.rs:333-341 | always succeeds with settings that share the service's profiles, store and gateways |
| `StorageErrors.HashError.Description` | storage/src/error.rs:21-28 | the three fixed texts, and the boxed error's own text for `Other` |
| `StorageErrors.HashError.Display` | storage/src/error.rs:14-18 | writes exactly the description |
| `StorageErrors.SerializerError.Description` | storage/src/error.rs:47-53 | every kind says what its boxed error says |
| `StorageErrors.SerializerError.Display` | storage/src/error.rs:40-44 | writes exactly the description |
| `StorageErrors.StorageError.Description` | storage/src/error.rs:73-80 | "Run out of disk space", "The given key holds no value", and the message itself for `StringError` |
| `StorageErrors.StorageError.Display` | storage/src/error.rs:66-70 | writes exactly the description |
| `StorageErrors.StringCoderError.Description` | storage/src/error.rs:97-101 | says what its boxed error says |
| `StorageErrors.StringCoderError.Display` | storage/src/error.rs:90-94 | writes exactly the description |
| `StorageErrors.HashSpaceError.Description` | storage/src/error.rs:125-136 | a wrapped hash, storage or string-coder error gives its own description; the three message kinds give the message; `Other` gives the boxed error's text |
| `StorageErrors.HashSpaceError.Display` | storage/src/error.rs:118-122 | writes exactly the description |

## Left out

- Logging (`println!`), `TestSetup::setup`, `dummy_relation`, `dummy_relation_proof` and the empty `main`: test wiring and output with no behaviour of the core.
- `generate_hash` and `generate_hash_from_vec`: both are the `hash` parameter applied to bytes; the `unwrap` on a SHA2-256 encode cannot fail.
- `make_home_profile` parses its address text with `to_multiaddr().unwrap()`; address parsing is a foreign library, so `MakeHomeProfile` takes a parsed address and the panic on a bad address is not modelled.
- Stream and channel machinery (`mpsc::channel`, `CHANNEL_CAPACITY`, backpressure, cancellation, polling): results are values, streams and channel ends are opaque; the number of the channel `call` creates is a parameter, and its freshness is not modelled.
- `SdkImpl.DAppConnect.Login`: the session slot is filled when the login future completes; the model completes it at once and so does not model two overlapping logins.
- `DAppConnect::contacts` and `app_storage`, and `SettingsImpl::create_profile`, `update_profile`, `remove_profile`, `leave_home`, `relations`, `initiate_relation`, `accept_relation`, `revoke_relation`: they are `unimplemented!()` in the source; the contact list `get_relation_proof` reads is a parameter.
- `ProfileGatewayImpl` (login, call, register, initialize) and the reactor handle passed to `initialize`: their code is not part of this model; their answers are parameters.
- The `events` map of `MyDummyHome` is created empty and never used; it is kept as a field and nothing more.
- `FormatParserError` and `AddressResolutionError` have no description or `Display` in the source; they are not modelled.
- Cryptographic verification of relation proofs: the code modelled never verifies a signature; the test home's proofs carry raw public keys.
- The JSON-RPC front end, the protocol sample and the TheButton example: transport, CLI and threads around the core.

## Findings

| source | as written | input that shows it | evidently intended | confidence | as-written member | corrected member |
|---|---|---|---|---|---|---|
| connect/src/service.rs:258-260 | `join_home(profile, home)` hands the profile's own id to the gateway's `register` in the place of the home id, and never reads `home` | profile `p` stored and with a signer, home `h` different from `p`, a gateway that can register only with `h`: the join fails with the gateway's error | hand `home` to `register`, so that the profile is registered with the home the caller named | not executed | `Service.SettingsImpl.JoinHomeAsWritten`, `Service.JoinHomeAsWrittenMissesHome` | `Service.SettingsImpl.JoinHome` |
