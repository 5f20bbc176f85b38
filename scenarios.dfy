/** A worked ceremony: one enrolled device, authenticated while clean, refused once flagged. */
module Scenarios {
  import opened Outcomes
  import opened Data
  import opened Primitives
  import opened Devices
  import opened Ceremony

  method SingleDeviceAuthentication()
  {
    var appId := "https://example.com";
    var d1 := new DeviceRegistration([1, 2, 3], [9], 5);
    // A bundle lookup that answers every response with a request for the key handle it names,
    // and a verifier that accepts every signature and advances the counter by one.
    var lookup := RequestLookup((data, response) => None,
                                (data: AuthenticateRequestData, response: AuthenticateResponse) =>
                                  Some(AuthenticateRequest([7], data.appId, response.keyHandle)));
    var u2f := new U2F(n => [n], (q, s, f) => None, (q, s, k, c: int, f) => Ok(c + 1), lookup);

    var bundle := u2f.StartAuthentication(appId, [d1]);
    assert [d1][1..] == [] && Uncompromised([d1]) == [d1];
    assert bundle == Ok(AuthenticateRequestData(appId, [d1]));

    var response := AuthenticateResponse("client data", "signature", [1, 2, 3]);
    var r := u2f.FinishAuthenticationWithFacets(bundle.value, response, [d1], None);
    assert r == Ok(d1) && d1.counter == 6 && |u2f.primitives.trace| == 1;

    d1.compromised := true;
    var none := u2f.StartAuthentication(appId, [d1]);
    assert none == Err(NoDevicesRegistered);
    r := u2f.FinishAuthentication(bundle.value, response, [d1]);
    assert r == Err(DeviceCompromised) && d1.counter == 6 && |u2f.primitives.trace| == 1;
  }
}
