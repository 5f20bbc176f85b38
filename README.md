# U2F ceremony facade, modelled in Dafny

This project models `U2F`, the facade of a FIDO U2F server library. The facade starts and
finishes registration and authentication ceremonies for a user's enrolled authenticators
("devices"). Its own logic is small:

- the `NOT_COMPROMISED` predicate, and filtering the caller's devices by it before challenges are issued;
- `startRegistration`, which asks the primitives for one authenticate request per surviving device and builds the registration bundle;
- `startAuthentication`, which builds the authentication bundle from the surviving devices;
- the `finishRegistration` overloads and the `finishAuthentication` overloads. The overloads without facets pass `null`.
- the `finishAuthentication` steps, in order:
  1. look up the pending request for the response;
  2. take the first caller device with that request's key handle;
  3. refuse it if it is compromised;
  4. have the primitives verify it, which updates its counter in place;
  5. return that same device object.

Modules:

- `Outcomes` (`outcomes.dfy`): `Option`, `Result`, `Outcome`, and `Error`, which stands for the exceptions.
- `Data` (`data.dfy`): `DeviceRegistration` is a class. Its key handle and public key are constants; its `counter` and `compromised` flag are fields. The module also has the request and response messages, the two bundles, and `RequestLookup`, which stands for the bundles' `getRegisterRequest` and `getAuthenticateRequest`.
- `Primitives` (`primitives.dfy`): `ChallengeGenerator` and `U2fPrimitives`. The cryptographic checks are arbitrary functions, fixed when the object is built. A ghost `trace` records every primitive call in order.
- `Devices` (`devices.dfy`): the compromise filter, the first-match lookup by key handle, and their lemmas.
- `Ceremony` (`ceremony.dfy`): the `U2F` class, and `DeviceToVerify`, the decision made before any verification. Two two-state predicates, `RegistrationFinished` and `AuthenticationFinished`, give the outcome of each finish call. The overload without facets carries the same predicate with `None`.
- `Scenarios` (`scenarios.dfy`): one device is authenticated while it is clean, and refused once it is flagged.

Three behaviours of `U2F.java` that the model keeps:

- When no caller device carries the request's key handle, `Iterables.find` throws `NoSuchElementException` (`Error.NoSuchElement`), not a bad-input error.
- `finishAuthentication` does not re-filter the device list. It takes the first device with the key handle and refuses it if it is compromised, even when an uncompromised device with the same key handle comes later.
- The device record is updated in place by the primitives, and the very object is returned.

## Model

| member | source | states |
|---|---|---|
| Devices.NotCompromised | u2flib-server-core/src/main/java/com/yubico/u2f/U2F.java:23-28 | holds of a device exactly when its compromised flag is false |
| Devices.Uncompromised | u2flib-server-core/src/main/java/com/yubico/u2f/U2F.java:46 | every kept device is one of the caller's and is not compromised; every uncompromised caller device is kept; never longer than the input |
| Devices.UncompromisedKeepsOrder | u2flib-server-core/src/main/java/com/yubico/u2f/U2F.java:46 | the filtered devices are a subsequence of the caller's list: order is preserved |
| Devices.UncompromisedMultiplicity | u2flib-server-core/src/main/java/com/yubico/u2f/U2F.java:46 | a compromised device occurs zero times in the filtered list; an uncompromised one as often as in the caller's list |
| Devices.UncompromisedAppend | u2flib-server-core/src/main/java/com/yubico/u2f/U2F.java:46 | the filter works element by element: filtering a concatenation concatenates the filtered parts |
| Devices.UncompromisedIdempotent | u2flib-server-core/src/main/java/com/yubico/u2f/U2F.java:46 | filtering an already filtered list returns it unchanged |
| Devices.FirstWithKeyHandle | u2flib-server-core/src/main/java/com/yubico/u2f/U2F.java:96-101 | returns the index of a device with the key handle and none before it has it; returns nothing exactly when no device has it |
| Devices.FirstMatchSurvivesFilter | u2flib-server-core/src/main/java/com/yubico/u2f/U2F.java:96-105 | if the first device with a key handle is uncompromised, it is also the first device with that key handle among the filtered devices |
| Ceremony.DeviceToVerify | u2flib-server-core/src/main/java/com/yubico/u2f/U2F.java:95-105 | bad input exactly when the request lookup failed; NoSuchElement exactly when no device has the key handle; DeviceCompromised exactly when the first such device is compromised; otherwise the first such device, which is uncompromised |
| Ceremony.VerifiedDeviceWasOffered | u2flib-server-core/src/main/java/com/yubico/u2f/U2F.java:96-105 | the device that finishAuthentication verifies is the first device with that key handle among those the start calls offer |
| Ceremony.U2F.constructor | u2flib-server-core/src/main/java/com/yubico/u2f/U2F.java:33-36 | the facade and its primitives share one fresh challenge generator; the primitives have made no call yet |
| Ceremony.U2F.StartRegistration | u2flib-server-core/src/main/java/com/yubico/u2f/U2F.java:45-52 | the bundle is built from the AppID and the uncompromised devices, in order, and from nothing else; the facade's own loop asks the primitives once per such device, in order, and draws one challenge per request |
| Data.NewAuthenticateRequestData | u2flib-server-core/src/main/java/com/yubico/u2f/U2F.java:55 | fails with NoDevicesRegistered exactly when it is handed no devices; otherwise the bundle carries the AppID and exactly the devices handed in |
| Ceremony.U2F.StartAuthentication | u2flib-server-core/src/main/java/com/yubico/u2f/U2F.java:54-56 | the bundle carries the same AppID and exactly the uncompromised devices, in order; it fails with NoDevicesRegistered exactly when every device is compromised |
| Ceremony.U2F.FinishRegistration | u2flib-server-core/src/main/java/com/yubico/u2f/U2F.java:61-63 | same outcome as the full finishRegistration with no facet set |
| Ceremony.U2F.FinishRegistrationWithFacets | u2flib-server-core/src/main/java/com/yubico/u2f/U2F.java:74-76 | a failed request lookup gives bad input and no primitive call; otherwise exactly one registration check, whose verdict is a bad-input error or a fresh, uncompromised device with the derived key |
| Ceremony.U2F.FinishAuthentication | u2flib-server-core/src/main/java/com/yubico/u2f/U2F.java:81-83 | same outcome as the full finishAuthentication with no facet set |
| Ceremony.U2F.FinishAuthenticationWithFacets | u2flib-server-core/src/main/java/com/yubico/u2f/U2F.java:94-109 | a failed request lookup, a key handle no device carries, or a compromised first match gives that error, with no primitive call and no device changed; otherwise exactly one verification of the first matching device and no other device changes; on success that same object is returned with the verifier's counter; a DeviceCompromised verdict leaves it flagged |
| Ceremony.U2F.FinishFollowsDeviceToVerify | u2flib-server-core/src/main/java/com/yubico/u2f/U2F.java:95-107 | the refusals of finishAuthentication are exactly those of DeviceToVerify on the flags before the call, with no primitive call; when DeviceToVerify accepts, its device is the one verified |
| Ceremony.U2F.AuthenticatedDeviceIsOffered | u2flib-server-core/src/main/java/com/yubico/u2f/U2F.java:96-108 | a successful finishAuthentication returns an uncompromised caller device with the request's key handle, one the filter kept before the call |
| Ceremony.U2F.CompromisedDeviceIsNeverVerified | u2flib-server-core/src/main/java/com/yubico/u2f/U2F.java:103-107 | when the first device with the key handle is compromised, the result is DeviceCompromised, the trace is unchanged and no device changes |
| Primitives.ChallengeGenerator.GenerateChallenge | u2flib-server-core/src/main/java/com/yubico/u2f/U2F.java:34 | hands out the next value of the generator's stream and advances it by one |
| Primitives.U2fPrimitives.StartAuthentication | u2flib-server-core/src/main/java/com/yubico/u2f/U2F.java:49 | returns a request with a fresh challenge, the AppID and the device's key handle; the call is recorded |
| Primitives.U2fPrimitives.FinishRegistration | u2flib-server-core/src/main/java/com/yubico/u2f/U2F.java:75 | the call is recorded; bad input, or a fresh uncompromised device built from the verified key |
| Primitives.U2fPrimitives.FinishAuthentication | u2flib-server-core/src/main/java/com/yubico/u2f/U2F.java:107 | the call is recorded; on success the device's counter becomes the verifier's value, in place, and its flag is kept; on failure the counter is kept, and a DeviceCompromised verdict flags the device |

## Left out

- Cryptography and randomness are left out. Signature and attestation checking (BouncyCastleCrypto) become arbitrary verifier functions given to the `U2F` constructor. The random challenge source becomes an arbitrary stream of challenges.
- Ceremony.U2F.StartRegistration: its trace and challenge counts cover only the calls the facade's own loop makes. The real bundle constructors are handed `primitives` and `challengeGenerator` (U2F.java:51, 55) and may call and draw more; the model's constructors are plain records that do neither.
- The constructors of `RegisterRequestData` and `AuthenticateRequestData` are not part of this model. A bundle is the record of the AppID and the devices it was built from. Which challenges the constructors draw and which requests they hold is not modelled.
- Empty device list: `startAuthentication` declares `throws NoDevicesRegisteredException` (U2F.java:54), and that exception can only come from the `AuthenticateRequestData` constructor. The model has the constructor fail with NoDevicesRegistered exactly when it gets no devices. Any U2fBadInputException the constructor might throw is not modelled.
- `getRegisterRequest` and `getAuthenticateRequest` are not part of this model. They are arbitrary functions of the bundle and the response, whose failure is a bad-input error. Challenge matching inside them is not modelled.
- `U2fPrimitives` internals are not part of this model. These include facet checks and counter-regression detection. The verifier's verdict is taken as given: a DeviceCompromised verdict flags the device, and any other failure leaves it unchanged.
- The counter strictly increasing after authentication, a registration counter starting at 0, and distinct challenges across ceremonies are not modelled. Each would be a promise of the collaborators above, so the model states none of them.
- `Iterables.filter` returns a lazy view that `startRegistration` walks twice. The model computes the filtered list once. Nothing in the facade changes a flag between the two walks.
- `null` device lists, `null` elements and `null` key handles are not modelled. `null` facets are `None`.
- `DeviceRegistration`'s attestation certificate and its other accessors are not modelled. The facade never reads them.
- JSON encoding of requests, responses and bundles is not modelled; it belongs to the message classes.
- Session storage and single use of a bundle are not modelled. The facade tracks neither, and leaves both to the caller.
