/** The U2F facade: starts and finishes registration and authentication ceremonies. */
module Ceremony {
  import opened Outcomes
  import opened Data
  import opened Primitives
  import opened Devices

  /** The primitive calls that starting a registration makes: one per offered device, in order. */
  ghost function StartAuthenticationCalls(appId: AppId, devices: seq<DeviceRegistration>): seq<Call>
  {
    seq(|devices|, i requires 0 <= i < |devices| => StartAuthenticationCall(appId, devices[i]))
  }

  /**
   * What finishAuthentication decides before any verification: the matched request (`None`
   * when the bundle's lookup failed), then the first device carrying its key handle, which
   * must not be compromised. `Ok(i)` is the index of the device handed to the verifier.
   */
  function DeviceToVerify(request: Option<AuthenticateRequest>, devices: seq<DeviceRegistration>): (r: Result<nat>)
    reads devices
    ensures r.Ok? ==> && request.Some? && r.value < |devices|
                      && devices[r.value].keyHandle == request.value.keyHandle
                      && NotCompromised(devices[r.value])
                      && forall j :: 0 <= j < r.value ==> devices[j].keyHandle != request.value.keyHandle
    ensures r == Err(BadInput) <==> request.None?
    ensures r == Err(NoSuchElement) <==>
              request.Some? && forall j :: 0 <= j < |devices| ==> devices[j].keyHandle != request.value.keyHandle
    ensures r == Err(DeviceCompromised) <==>
              && request.Some?
              && exists i :: && 0 <= i < |devices| && devices[i].keyHandle == request.value.keyHandle
                             && devices[i].compromised
                             && forall j :: 0 <= j < i ==> devices[j].keyHandle != request.value.keyHandle
    ensures r.Ok? || r == Err(BadInput) || r == Err(NoSuchElement) || r == Err(DeviceCompromised)
  {
    match request
    case None => Err(BadInput)
    case Some(req) =>
      match FirstWithKeyHandle(devices, req.keyHandle)
      case None => Err(NoSuchElement)
      case Some(i) => if devices[i].compromised then Err(DeviceCompromised) else Ok(i)
  }

  /** A device that finishAuthentication verifies is one that starting a ceremony would offer. */
  lemma VerifiedDeviceWasOffered(request: Option<AuthenticateRequest>, devices: seq<DeviceRegistration>)
    requires DeviceToVerify(request, devices).Ok?
    ensures var offered := Uncompromised(devices);
      && FirstWithKeyHandle(offered, request.value.keyHandle).Some?
      && offered[FirstWithKeyHandle(offered, request.value.keyHandle).value]
         == devices[DeviceToVerify(request, devices).value]
  {
    FirstMatchSurvivesFilter(devices, request.value.keyHandle);
  }

  class U2F {
    const challengeGenerator: ChallengeGenerator
    const primitives: U2fPrimitives
    const requestLookup: RequestLookup

    /** The facade and its primitives share one challenge source. */
    predicate Valid() {
      primitives.generator == challengeGenerator
    }

    /** The randomness and the cryptographic checks are parameters. */
    constructor (randomness: nat -> Challenge,
                 registrationVerifier: (RegisterRequest, RegisterResponse, Facets) -> Option<RegisteredKey>,
                 authenticationVerifier: (AuthenticateRequest, AuthenticateResponse, seq<int>, int, Facets) -> Result<int>,
                 requestLookup: RequestLookup)
      ensures Valid() && fresh(challengeGenerator) && fresh(primitives)
      ensures challengeGenerator.randomness == randomness && challengeGenerator.drawn == 0
      ensures primitives.registrationVerifier == registrationVerifier
      ensures primitives.authenticationVerifier == authenticationVerifier
      ensures primitives.trace == [] && this.requestLookup == requestLookup
    {
      var generator := new ChallengeGenerator(randomness);
      challengeGenerator := generator;
      primitives := new U2fPrimitives(registrationVerifier, authenticationVerifier, generator);
      this.requestLookup := requestLookup;
    }

    /**
     * Starts a registration: asks the primitives for one authenticate request per uncompromised
     * device (the list is built and then dropped) and returns the bundle built from the AppID
     * and the uncompromised devices.
     */
    method StartRegistration(appId: AppId, devices: seq<DeviceRegistration>) returns (data: RegisterRequestData)
      requires Valid()
      modifies primitives, challengeGenerator
      ensures data == RegisterRequestData(appId, Uncompromised(devices))
      ensures primitives.trace == old(primitives.trace) + StartAuthenticationCalls(appId, Uncompromised(devices))
      ensures challengeGenerator.drawn == old(challengeGenerator.drawn) + |Uncompromised(devices)|
    {
      var uncompromisedDevices := Uncompromised(devices);
      var authenticateRequests: seq<AuthenticateRequest> := [];
      for i := 0 to |uncompromisedDevices|
        invariant |authenticateRequests| == i
        invariant challengeGenerator.drawn == old(challengeGenerator.drawn) + i
        invariant primitives.trace == old(primitives.trace) + StartAuthenticationCalls(appId, uncompromisedDevices[..i])
        invariant forall k :: 0 <= k < i ==>
          authenticateRequests[k] == AuthenticateRequest(challengeGenerator.randomness(old(challengeGenerator.drawn) + k),
                                                         appId, uncompromisedDevices[k].keyHandle)
      {
        var request := primitives.StartAuthentication(appId, uncompromisedDevices[i]);
        authenticateRequests := authenticateRequests + [request];
        assert StartAuthenticationCalls(appId, uncompromisedDevices[..i + 1])
            == StartAuthenticationCalls(appId, uncompromisedDevices[..i]) + [StartAuthenticationCall(appId, uncompromisedDevices[i])];
      }
      assert uncompromisedDevices[..|uncompromisedDevices|] == uncompromisedDevices;
      data := RegisterRequestData(appId, uncompromisedDevices);
    }

    /**
     * Starts an authentication over the uncompromised devices; fails with NoDevicesRegistered
     * exactly when every device is compromised.
     */
    function StartAuthentication(appId: AppId, devices: seq<DeviceRegistration>): (r: Result<AuthenticateRequestData>)
      reads devices
      ensures r.Ok? ==> r.value.appId == appId && r.value.devices == Uncompromised(devices)
      ensures r.Err? <==> forall i :: 0 <= i < |devices| ==> devices[i].compromised
      ensures r.Err? ==> r.error == NoDevicesRegistered
    {
      var offered := Uncompromised(devices);
      assert offered != [] ==> offered[0] in devices;
      NewAuthenticateRequestData(appId, offered)
    }

    /** The outcome of finishing a registration with the given facets, as a relation of the two states. */
    twostate predicate RegistrationFinished(data: RegisterRequestData, response: RegisterResponse, facets: Facets,
                                            new r: Result<DeviceRegistration>)
      reads primitives, if r.Ok? then {r.value} else {}
    {
      match requestLookup.registerRequestFor(data, response)
      case None => r == Err(BadInput) && primitives.trace == old(primitives.trace)
      case Some(request) =>
        && primitives.trace == old(primitives.trace) + [FinishRegistrationCall(request, response, facets)]
        && match primitives.registrationVerifier(request, response, facets)
           case None => r == Err(BadInput)
           case Some(key) =>
             && r.Ok? && fresh(r.value) && !r.value.compromised
             && r.value.keyHandle == key.keyHandle && r.value.publicKey == key.publicKey
             && r.value.counter == key.counter
    }

    /** finishRegistration without facets: the same as passing no facet set. */
    method FinishRegistration(data: RegisterRequestData, response: RegisterResponse) returns (r: Result<DeviceRegistration>)
      modifies primitives
      ensures RegistrationFinished(data, response, None, r)
    {
      r := FinishRegistrationWithFacets(data, response, None);
    }

    /** Finds the bundle's register request for the response and has the primitives verify it. */
    method FinishRegistrationWithFacets(data: RegisterRequestData, response: RegisterResponse, facets: Facets)
      returns (r: Result<DeviceRegistration>)
      modifies primitives
      ensures RegistrationFinished(data, response, facets, r)
    {
      var request := requestLookup.registerRequestFor(data, response);
      if request.None? {
        return Err(BadInput);
      }
      r := primitives.FinishRegistration(request.value, response, facets);
    }

    /**
     * The outcome of finishing an authentication with the given facets, as a relation of the two
     * states, following the steps of DeviceToVerify. A failed request lookup, a key handle no
     * device carries, or a first matching device that was compromised beforehand gives that error,
     * and neither the primitives nor any device is touched. Otherwise the chosen device is verified
     * exactly once and no other device changes; on success that same object, holding the
     * verifier's counter, is returned, and a DeviceCompromised verdict leaves it flagged.
     */
    twostate predicate AuthenticationFinished(new request: Option<AuthenticateRequest>, response: AuthenticateResponse,
                                              devices: seq<DeviceRegistration>, facets: Facets,
                                              new r: Result<DeviceRegistration>)
      reads primitives, devices
    {
      match request
      case None => r == Err(BadInput) && NothingVerified(devices)
      case Some(req) =>
        match FirstWithKeyHandle(devices, req.keyHandle)
        case None => r == Err(NoSuchElement) && NothingVerified(devices)
        case Some(i) =>
          var device := devices[i];
          if old(device.compromised) then r == Err(DeviceCompromised) && NothingVerified(devices)
          else
            && primitives.trace == old(primitives.trace) + [FinishAuthenticationCall(req, response, device, facets)]
            && (forall d :: d in devices && d != device ==> unchanged(d))
            && match primitives.authenticationVerifier(req, response, device.publicKey, old(device.counter), facets)
               case Ok(counter) => r == Ok(device) && device.counter == counter && !device.compromised
               case Err(e) =>
                 && r == Err(e) && device.counter == old(device.counter)
                 && device.compromised == (e == DeviceCompromised)
    }

    /** No primitive was called and no device changed. */
    twostate predicate NothingVerified(devices: seq<DeviceRegistration>)
      reads primitives, devices
    {
      primitives.trace == old(primitives.trace) && forall d :: d in devices ==> unchanged(d)
    }

    /**
     * The refusals of finishAuthentication are exactly those of DeviceToVerify, judged on the
     * flags as they were before the call; when it accepts, its device is the one verified.
     */
    twostate lemma FinishFollowsDeviceToVerify(request: Option<AuthenticateRequest>, response: AuthenticateResponse,
                                               devices: seq<DeviceRegistration>, facets: Facets,
                                               new r: Result<DeviceRegistration>)
      requires AuthenticationFinished(request, response, devices, facets, r)
      ensures old(DeviceToVerify(request, devices)).Err? ==>
                r == Err(old(DeviceToVerify(request, devices)).error) && primitives.trace == old(primitives.trace)
      ensures old(DeviceToVerify(request, devices)).Ok? ==>
                && request.Some?
                && primitives.trace == old(primitives.trace) +
                     [FinishAuthenticationCall(request.value, response, devices[old(DeviceToVerify(request, devices)).value], facets)]
    {
    }

    /** finishAuthentication without facets: the same as passing no facet set. */
    method FinishAuthentication(data: AuthenticateRequestData, response: AuthenticateResponse,
                                devices: seq<DeviceRegistration>) returns (r: Result<DeviceRegistration>)
      modifies primitives, devices
      ensures AuthenticationFinished(requestLookup.authenticateRequestFor(data, response), response, devices, None, r)
    {
      r := FinishAuthenticationWithFacets(data, response, devices, None);
    }

    /**
     * Finds the bundle's request for the response, then the first device with its key handle,
     * refuses a compromised device, has the primitives verify the rest and returns that device.
     */
    method FinishAuthenticationWithFacets(data: AuthenticateRequestData, response: AuthenticateResponse,
                                          devices: seq<DeviceRegistration>, facets: Facets)
      returns (r: Result<DeviceRegistration>)
      modifies primitives, devices
      ensures AuthenticationFinished(requestLookup.authenticateRequestFor(data, response), response, devices, facets, r)
    {
      var lookup := requestLookup.authenticateRequestFor(data, response);
      if lookup.None? {
        return Err(BadInput);
      }
      var request := lookup.value;
      var found := FirstWithKeyHandle(devices, request.keyHandle);
      if found.None? {
        return Err(NoSuchElement);
      }
      var device := devices[found.value];
      if device.compromised {
        return Err(DeviceCompromised);
      }
      var outcome := primitives.FinishAuthentication(request, response, device, facets);
      if outcome.Fail? {
        return Err(outcome.error);
      }
      r := Ok(device);
    }

    /** A successful finishAuthentication returns an uncompromised device of the caller's carrying the request's key handle. */
    twostate lemma AuthenticatedDeviceIsOffered(new request: Option<AuthenticateRequest>, response: AuthenticateResponse,
                                                devices: seq<DeviceRegistration>, facets: Facets,
                                                new r: Result<DeviceRegistration>)
      requires AuthenticationFinished(request, response, devices, facets, r)
      requires r.Ok?
      ensures request.Some? && r.value in devices && r.value.keyHandle == request.value.keyHandle
      ensures NotCompromised(r.value) && old(r.value in Uncompromised(devices))
    {
    }

    /**
     * When the first device with the request's key handle is compromised, finishAuthentication
     * fails with DeviceCompromised and never calls the verifier.
     */
    twostate lemma CompromisedDeviceIsNeverVerified(request: AuthenticateRequest, response: AuthenticateResponse,
                                                    devices: seq<DeviceRegistration>, facets: Facets, i: nat,
                                                    new r: Result<DeviceRegistration>)
      requires AuthenticationFinished(Some(request), response, devices, facets, r)
      requires i < |devices| && devices[i].keyHandle == request.keyHandle && old(devices[i].compromised)
      requires forall j :: 0 <= j < i ==> devices[j].keyHandle != request.keyHandle
      ensures r == Err(DeviceCompromised) && primitives.trace == old(primitives.trace)
      ensures forall d :: d in devices ==> unchanged(d)
    {
    }
  }
}
