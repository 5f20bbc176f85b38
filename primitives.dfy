/** The challenge source and the verification primitives the facade delegates to. */
module Primitives {
  import opened Outcomes
  import opened Data

  /** A challenge source: the `drawn`-th challenge handed out is `randomness(drawn)`. */
  class ChallengeGenerator {
    const randomness: nat -> Challenge
    var drawn: nat

    constructor (randomness: nat -> Challenge)
      ensures this.randomness == randomness && drawn == 0
    {
      this.randomness := randomness;
      drawn := 0;
    }

    method GenerateChallenge() returns (c: Challenge)
      modifies this
      ensures c == randomness(old(drawn)) && drawn == old(drawn) + 1
    {
      c := randomness(drawn);
      drawn := drawn + 1;
    }
  }

  /** What a successful registration check derives from the response. */
  datatype RegisteredKey = RegisteredKey(keyHandle: KeyHandle, publicKey: seq<int>, counter: int)

  /** One invocation of a primitive, as recorded in `U2fPrimitives.trace`. */
  datatype Call =
    | StartAuthenticationCall(appId: AppId, device: DeviceRegistration)
    | FinishRegistrationCall(registerRequest: RegisterRequest, registerResponse: RegisterResponse, facets: Facets)
    | FinishAuthenticationCall(authenticateRequest: AuthenticateRequest, authenticateResponse: AuthenticateResponse,
                               device: DeviceRegistration, facets: Facets)

  /**
   * The verification primitives. The cryptographic checks are any functions of their inputs:
   * `registrationVerifier` yields the new key or `None` (bad input); `authenticationVerifier`
   * is given the device's public key and counter and yields the new counter or an error.
   * The ghost `trace` records every call, in order.
   */
  class U2fPrimitives {
    const generator: ChallengeGenerator
    const registrationVerifier: (RegisterRequest, RegisterResponse, Facets) -> Option<RegisteredKey>
    const authenticationVerifier: (AuthenticateRequest, AuthenticateResponse, seq<int>, int, Facets) -> Result<int>
    ghost var trace: seq<Call>

    constructor (registrationVerifier: (RegisterRequest, RegisterResponse, Facets) -> Option<RegisteredKey>,
                 authenticationVerifier: (AuthenticateRequest, AuthenticateResponse, seq<int>, int, Facets) -> Result<int>,
                 generator: ChallengeGenerator)
      ensures this.registrationVerifier == registrationVerifier
      ensures this.authenticationVerifier == authenticationVerifier
      ensures this.generator == generator && trace == []
    {
      this.registrationVerifier := registrationVerifier;
      this.authenticationVerifier := authenticationVerifier;
      this.generator := generator;
      trace := [];
    }

    /** Wraps a fresh challenge with the AppID and the device's key handle. */
    method StartAuthentication(appId: AppId, device: DeviceRegistration) returns (request: AuthenticateRequest)
      modifies this, generator
      ensures request == AuthenticateRequest(generator.randomness(old(generator.drawn)), appId, device.keyHandle)
      ensures generator.drawn == old(generator.drawn) + 1
      ensures trace == old(trace) + [StartAuthenticationCall(appId, device)]
    {
      var challenge := generator.GenerateChallenge();
      request := AuthenticateRequest(challenge, appId, device.keyHandle);
      trace := trace + [StartAuthenticationCall(appId, device)];
    }

    /** Checks a registration response and, on success, mints a new, uncompromised device record. */
    method FinishRegistration(request: RegisterRequest, response: RegisterResponse, facets: Facets)
      returns (r: Result<DeviceRegistration>)
      modifies this
      ensures trace == old(trace) + [FinishRegistrationCall(request, response, facets)]
      ensures match registrationVerifier(request, response, facets)
        case None => r == Err(BadInput)
        case Some(key) =>
          && r.Ok? && fresh(r.value) && !r.value.compromised
          && r.value.keyHandle == key.keyHandle && r.value.publicKey == key.publicKey
          && r.value.counter == key.counter
    {
      trace := trace + [FinishRegistrationCall(request, response, facets)];
      match registrationVerifier(request, response, facets)
      case None =>
        r := Err(BadInput);
      case Some(key) =>
        var device := new DeviceRegistration(key.keyHandle, key.publicKey, key.counter);
        r := Ok(device);
    }

    /**
     * Checks an authentication response against `device`. On success it stores the new counter in
     * the device; when the check reports DeviceCompromised (a counter regression) it flags the device.
     */
    method FinishAuthentication(request: AuthenticateRequest, response: AuthenticateResponse,
                                device: DeviceRegistration, facets: Facets) returns (r: Outcome)
      modifies this, device
      ensures trace == old(trace) + [FinishAuthenticationCall(request, response, device, facets)]
      ensures match authenticationVerifier(request, response, device.publicKey, old(device.counter), facets)
        case Ok(counter) => r == Pass && device.counter == counter && device.compromised == old(device.compromised)
        case Err(e) =>
          && r == Fail(e) && device.counter == old(device.counter)
          && device.compromised == (old(device.compromised) || e == DeviceCompromised)
    {
      trace := trace + [FinishAuthenticationCall(request, response, device, facets)];
      match authenticationVerifier(request, response, device.publicKey, device.counter, facets)
      case Ok(counter) =>
        device.counter := counter;
        r := Pass;
      case Err(e) =>
        if e == DeviceCompromised {
          device.compromised := true;
        }
        r := Fail(e);
    }
  }
}
