/** Device records, request and response messages, and the pending-ceremony bundles. */
module Data {
  import opened Outcomes

  type AppId = string
  type KeyHandle = seq<int>
  type Challenge = seq<int>

  /** The optional allow-list of facets; `None` stands for a `null` argument. */
  type Facets = Option<set<string>>

  /** One enrolled authenticator. The caller owns it; authentication updates its counter in place. */
  class DeviceRegistration {
    const keyHandle: KeyHandle
    const publicKey: seq<int>
    var counter: int
    var compromised: bool

    constructor (keyHandle: KeyHandle, publicKey: seq<int>, counter: int)
      ensures this.keyHandle == keyHandle && this.publicKey == publicKey
      ensures this.counter == counter && !compromised
    {
      this.keyHandle := keyHandle;
      this.publicKey := publicKey;
      this.counter := counter;
      this.compromised := false;
    }
  }

  datatype RegisterRequest = RegisterRequest(challenge: Challenge, appId: AppId)

  datatype AuthenticateRequest = AuthenticateRequest(challenge: Challenge, appId: AppId, keyHandle: KeyHandle)

  /** The client's answers; their encoded contents are only passed on to the verifiers. */
  datatype RegisterResponse = RegisterResponse(registrationData: string, clientData: string)

  datatype AuthenticateResponse = AuthenticateResponse(clientData: string, signatureData: string, keyHandle: KeyHandle)

  /**
   * The pending-ceremony bundles. How their constructors turn the devices they are handed
   * into requests is not part of this model, so a bundle is the record of the arguments
   * it was built from.
   */
  datatype RegisterRequestData = RegisterRequestData(appId: AppId, devices: seq<DeviceRegistration>)

  datatype AuthenticateRequestData = AuthenticateRequestData(appId: AppId, devices: seq<DeviceRegistration>)

  /** `new AuthenticateRequestData(appId, devices, ...)`: refuses an empty device list. */
  function NewAuthenticateRequestData(appId: AppId, devices: seq<DeviceRegistration>): (r: Result<AuthenticateRequestData>)
    ensures r.Err? <==> devices == []
    ensures r.Err? ==> r.error == NoDevicesRegistered
    ensures r.Ok? ==> r.value.appId == appId && r.value.devices == devices
  {
    if devices == [] then Err(NoDevicesRegistered) else Ok(AuthenticateRequestData(appId, devices))
  }

  /**
   * The bundles' request lookups, `RegisterRequestData.getRegisterRequest(response)` and
   * `AuthenticateRequestData.getAuthenticateRequest(response)`: any function of the bundle and
   * the response, where `None` is a U2fBadInputException.
   */
  datatype RequestLookup = RequestLookup(
    registerRequestFor: (RegisterRequestData, RegisterResponse) -> Option<RegisterRequest>,
    authenticateRequestFor: (AuthenticateRequestData, AuthenticateResponse) -> Option<AuthenticateRequest>)
}
