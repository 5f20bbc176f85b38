/** The facade's own decisions over the caller's device list: the compromise filter and key-handle lookup. */
module Devices {
  import opened Outcomes
  import opened Data

  /** The facade's NOT_COMPROMISED predicate. */
  predicate NotCompromised(d: DeviceRegistration)
    reads d
  {
    !d.compromised
  }

  /** `Iterables.filter(devices, NOT_COMPROMISED)`: the devices that may take part in a new ceremony. */
  function Uncompromised(devices: seq<DeviceRegistration>): (r: seq<DeviceRegistration>)
    reads devices
    ensures |r| <= |devices|
    ensures forall i :: 0 <= i < |r| ==> r[i] in devices && NotCompromised(r[i])
    ensures forall i :: 0 <= i < |devices| && NotCompromised(devices[i]) ==> devices[i] in r
  {
    if devices == [] then []
    else if NotCompromised(devices[0]) then [devices[0]] + Uncompromised(devices[1..])
    else Uncompromised(devices[1..])
  }

  /** `sub` is `s` with some elements left out and the rest kept in their order. */
  ghost predicate IsSubsequence<T>(sub: seq<T>, s: seq<T>)
    decreases |s|
  {
    if sub == [] then true
    else if s == [] then false
    else (sub[0] == s[0] && IsSubsequence(sub[1..], s[1..])) || IsSubsequence(sub, s[1..])
  }

  /** The filter keeps the surviving devices in the caller's order. */
  lemma {:induction false} UncompromisedKeepsOrder(devices: seq<DeviceRegistration>)
    ensures IsSubsequence(Uncompromised(devices), devices)
    decreases |devices|
  {
    if devices != [] {
      UncompromisedKeepsOrder(devices[1..]);
      var rest := Uncompromised(devices[1..]);
      if NotCompromised(devices[0]) {
        assert Uncompromised(devices)[1..] == rest;
      } else {
        assert rest != [] ==> !(rest[0] == devices[0]);
      }
    }
  }

  /** Every uncompromised device is kept exactly as often as the caller listed it; no compromised one is kept. */
  lemma {:induction false} UncompromisedMultiplicity(devices: seq<DeviceRegistration>, d: DeviceRegistration)
    ensures multiset(Uncompromised(devices))[d] == if d.compromised then 0 else multiset(devices)[d]
  {
    if devices != [] {
      UncompromisedMultiplicity(devices[1..], d);
      assert devices == [devices[0]] + devices[1..];
    }
  }

  /** The filter works element by element: filtering a concatenation concatenates the filtered parts. */
  lemma {:induction false} UncompromisedAppend(a: seq<DeviceRegistration>, b: seq<DeviceRegistration>)
    ensures Uncompromised(a + b) == Uncompromised(a) + Uncompromised(b)
  {
    if a == [] {
      assert a + b == b;
    } else {
      assert (a + b)[0] == a[0] && (a + b)[1..] == a[1..] + b;
      UncompromisedAppend(a[1..], b);
    }
  }

  /** Filtering an already filtered list changes nothing. */
  lemma {:induction false} UncompromisedIdempotent(devices: seq<DeviceRegistration>)
    ensures Uncompromised(Uncompromised(devices)) == Uncompromised(devices)
  {
    if devices != [] {
      UncompromisedIdempotent(devices[1..]);
    }
  }

  /** The index of the first device whose key handle equals `keyHandle`, as `Iterables.find` picks it. */
  function FirstWithKeyHandle(devices: seq<DeviceRegistration>, keyHandle: KeyHandle): (r: Option<nat>)
    ensures r.Some? ==> r.value < |devices| && devices[r.value].keyHandle == keyHandle
    ensures r.Some? ==> forall j :: 0 <= j < r.value ==> devices[j].keyHandle != keyHandle
    ensures r.None? <==> forall j :: 0 <= j < |devices| ==> devices[j].keyHandle != keyHandle
  {
    if devices == [] then None
    else if devices[0].keyHandle == keyHandle then Some(0)
    else match FirstWithKeyHandle(devices[1..], keyHandle)
      case None => None
      case Some(i) => Some(i + 1)
  }

  /**
   * The device that finishAuthentication picks, if uncompromised, is the first device of that
   * key handle among those the start calls offered.
   */
  lemma {:induction false} FirstMatchSurvivesFilter(devices: seq<DeviceRegistration>, keyHandle: KeyHandle)
    requires FirstWithKeyHandle(devices, keyHandle).Some?
    requires NotCompromised(devices[FirstWithKeyHandle(devices, keyHandle).value])
    ensures var offered := Uncompromised(devices);
      && FirstWithKeyHandle(offered, keyHandle).Some?
      && offered[FirstWithKeyHandle(offered, keyHandle).value] == devices[FirstWithKeyHandle(devices, keyHandle).value]
  {
    if devices[0].keyHandle != keyHandle {
      FirstMatchSurvivesFilter(devices[1..], keyHandle);
    }
  }
}
