/** Session documents and their validation. Characters are bytes, classified as in the C locale. */
module SessionDocument {
  import opened Basics
  import Preset
  import AudioRuntime
  import ControlCommand

  const SCHEMA_VERSION: nat := 2
  const MAX_STRING: nat := 0x1_0000
  const MAX_CHANNELS: nat := 256

  datatype Session = Session(
    schemaVersion: u32,
    preset: Preset.Document,
    runtime: AudioRuntime.Configuration,
    devices: seq<ControlCommand.VirtualAsioDevice>,
    autoStart: bool)

  datatype Error =
    | UnsupportedSchemaVersion
    | OfPreset(error: Preset.Error)
    | DeviceIdTooLong | EndpointFieldTooLong
    | OfRuntime(runtimeError: AudioRuntime.Error)
    | InvalidDeviceCount | InvalidIdentity | InvalidSystemIdentity | InvalidChannels | DuplicateIdentity
    | AutoStartWithoutRuntime

  function When(condition: bool, error: Error): seq<Error> {
    if condition then [error] else []
  }

  predicate IsDigit(c: u8) {
    48 <= c <= 57
  }

  predicate IsUpper(c: u8) {
    65 <= c <= 90
  }

  predicate IsAlnum(c: u8) {
    IsDigit(c) || IsUpper(c) || 97 <= c <= 122
  }

  predicate IsHexDigit(c: u8) {
    IsDigit(c) || 65 <= c <= 70 || 97 <= c <= 102
  }

  /** A non-empty string of letters, digits, '-', '_' and '.'. */
  predicate ValidToken(t: Text) {
    t != [] && forall k :: 0 <= k < |t| ==> IsAlnum(t[k]) || t[k] == 45 || t[k] == 95 || t[k] == 46
  }

  /** Braces around hexadecimal digits, with hyphens in their places. */
  predicate ValidClsid(t: Text) {
    && |t| == 38 && t[0] == 123 && t[37] == 125
    && forall k :: 1 <= k < 37 ==> if k == 9 || k == 14 || k == 19 || k == 24 then t[k] == 45 else IsHexDigit(t[k])
  }

  predicate HasSlash(t: Text) {
    92 in t || 47 in t
  }

  /** folded_identity(): lower case. */
  function Folded(t: Text): (f: Text)
    ensures |f| == |t| && forall k :: 0 <= k < |t| ==> f[k] == if IsUpper(t[k]) then t[k] + 32 else t[k]
  {
    seq(|t|, k requires 0 <= k < |t| => if IsUpper(t[k]) then t[k] + 32 else t[k])
  }

  function LongFields(endpoints: seq<AudioRuntime.Endpoint>, n: nat): seq<Error>
    requires n <= |endpoints|
  {
    if n == 0 then [] else
      LongFields(endpoints, n - 1)
      + When(|endpoints[n - 1].id| > MAX_STRING || |endpoints[n - 1].device| > MAX_STRING, EndpointFieldTooLong)
  }

  function DeviceErrors(d: ControlCommand.VirtualAsioDevice): seq<Error> {
    When(d.deviceId == [] || d.clsid == [] || d.registryName == [] || d.brokerToken == []
         || |d.deviceId| > MAX_STRING || |d.clsid| > MAX_STRING || |d.registryName| > MAX_STRING || |d.brokerToken| > MAX_STRING,
         InvalidIdentity)
    + When(!ValidToken(d.deviceId) || !ValidClsid(d.clsid) || HasSlash(d.registryName) || !ValidToken(d.brokerToken),
           InvalidSystemIdentity)
    + When(d.inputChannels == 0 || d.outputChannels == 0 || d.inputChannels > MAX_CHANNELS || d.outputChannels > MAX_CHANNELS,
           InvalidChannels)
  }

  /** The identities seen so far. */
  datatype Seen = Seen(ids: set<Text>, clsids: set<Text>, names: set<Text>, tokens: set<Text>)

  /** Inserts the identities of a device, one field after the other, up to the first that is known. */
  function InsertAll(seen: Seen, d: ControlCommand.VirtualAsioDevice): (Seen, bool) {
    var id, clsid, name, token := Folded(d.deviceId), Folded(d.clsid), Folded(d.registryName), Folded(d.brokerToken);
    if id in seen.ids then (seen, true)
    else
      var s1 := seen.(ids := seen.ids + {id});
      if clsid in s1.clsids then (s1, true)
      else
        var s2 := s1.(clsids := s1.clsids + {clsid});
        if name in s2.names then (s2, true)
        else
          var s3 := s2.(names := s2.names + {name});
          if token in s3.tokens then (s3, true) else (s3.(tokens := s3.tokens + {token}), false)
  }

  function SeenBefore(devices: seq<ControlCommand.VirtualAsioDevice>, n: nat): Seen
    requires n <= |devices|
  {
    if n == 0 then Seen({}, {}, {}, {}) else InsertAll(SeenBefore(devices, n - 1), devices[n - 1]).0
  }

  function ListErrors(devices: seq<ControlCommand.VirtualAsioDevice>, n: nat): seq<Error>
    requires n <= |devices|
  {
    if n == 0 then [] else
      ListErrors(devices, n - 1) + DeviceErrors(devices[n - 1])
      + When(InsertAll(SeenBefore(devices, n - 1), devices[n - 1]).1, DuplicateIdentity)
  }

  function PresetErrors(errors: seq<Preset.Error>): (e: seq<Error>)
    ensures |e| == |errors|
  {
    seq(|errors|, k requires 0 <= k < |errors| => OfPreset(errors[k]))
  }

  function RuntimeErrors(errors: seq<AudioRuntime.Error>): (e: seq<Error>)
    ensures |e| == |errors|
  {
    seq(|errors|, k requires 0 <= k < |errors| => OfRuntime(errors[k]))
  }

  /** What validate_session_document() reports. */
  function Errors(s: Session): seq<Error> {
    When(s.schemaVersion != SCHEMA_VERSION, UnsupportedSchemaVersion)
    + PresetErrors(Preset.Errors(s.preset))
    + When(|s.runtime.captureDevice| > MAX_STRING || |s.runtime.renderDevice| > MAX_STRING, DeviceIdTooLong)
    + LongFields(s.runtime.endpoints, |s.runtime.endpoints|)
    + RuntimeErrors(AudioRuntime.Errors(s.runtime, true))
    + When(s.devices == [] || |s.devices| > ControlCommand.MAX_VIRTUAL_ASIO_DEVICES, InvalidDeviceCount)
    + ListErrors(s.devices, |s.devices|)
    + When(s.autoStart && s.runtime.mode == AudioRuntime.NoRuntime, AutoStartWithoutRuntime)
  }

  method CheckFields(endpoints: seq<AudioRuntime.Endpoint>) returns (errors: seq<Error>)
    ensures errors == LongFields(endpoints, |endpoints|)
  {
    errors := [];
    for k := 0 to |endpoints|
      invariant errors == LongFields(endpoints, k)
    {
      errors := errors + When(|endpoints[k].id| > MAX_STRING || |endpoints[k].device| > MAX_STRING, EndpointFieldTooLong);
    }
  }

  method CheckDevices(devices: seq<ControlCommand.VirtualAsioDevice>) returns (errors: seq<Error>)
    ensures errors == ListErrors(devices, |devices|)
  {
    errors := [];
    var seen := Seen({}, {}, {}, {});
    for k := 0 to |devices|
      invariant seen == SeenBefore(devices, k) && errors == ListErrors(devices, k)
    {
      var (next, duplicate) := InsertAll(seen, devices[k]);
      errors := errors + DeviceErrors(devices[k]) + When(duplicate, DuplicateIdentity);
      seen := next;
    }
  }

  /** validate_session_document() */
  method Validate(s: Session) returns (errors: seq<Error>)
    ensures errors == Errors(s)
  {
    var presetErrors := Preset.Validate(s.preset);
    var fieldErrors := CheckFields(s.runtime.endpoints);
    var runtimeErrors := AudioRuntime.Validate(s.runtime, true);
    var deviceErrors := CheckDevices(s.devices);
    errors := When(s.schemaVersion != SCHEMA_VERSION, UnsupportedSchemaVersion) + PresetErrors(presetErrors)
              + When(|s.runtime.captureDevice| > MAX_STRING || |s.runtime.renderDevice| > MAX_STRING, DeviceIdTooLong)
              + fieldErrors + RuntimeErrors(runtimeErrors)
              + When(s.devices == [] || |s.devices| > ControlCommand.MAX_VIRTUAL_ASIO_DEVICES, InvalidDeviceCount)
              + deviceErrors + When(s.autoStart && s.runtime.mode == AudioRuntime.NoRuntime, AutoStartWithoutRuntime);
  }

  // What a valid session is.

  predicate IdentitiesDiffer(a: ControlCommand.VirtualAsioDevice, b: ControlCommand.VirtualAsioDevice) {
    && Folded(a.deviceId) != Folded(b.deviceId) && Folded(a.clsid) != Folded(b.clsid)
    && Folded(a.registryName) != Folded(b.registryName) && Folded(a.brokerToken) != Folded(b.brokerToken)
  }

  predicate AllDiffer(devices: seq<ControlCommand.VirtualAsioDevice>, n: nat)
    requires n <= |devices|
  {
    forall j, k :: 0 <= j < k < n ==> IdentitiesDiffer(devices[j], devices[k])
  }

  predicate NoDuplicate(devices: seq<ControlCommand.VirtualAsioDevice>, n: nat)
    requires n <= |devices|
  {
    n == 0 || (NoDuplicate(devices, n - 1) && !InsertAll(SeenBefore(devices, n - 1), devices[n - 1]).1)
  }

  function Ids(devices: seq<ControlCommand.VirtualAsioDevice>): seq<Text> {
    seq(|devices|, k requires 0 <= k < |devices| => Folded(devices[k].deviceId))
  }

  function Clsids(devices: seq<ControlCommand.VirtualAsioDevice>): seq<Text> {
    seq(|devices|, k requires 0 <= k < |devices| => Folded(devices[k].clsid))
  }

  function Names(devices: seq<ControlCommand.VirtualAsioDevice>): seq<Text> {
    seq(|devices|, k requires 0 <= k < |devices| => Folded(devices[k].registryName))
  }

  function Tokens(devices: seq<ControlCommand.VirtualAsioDevice>): seq<Text> {
    seq(|devices|, k requires 0 <= k < |devices| => Folded(devices[k].brokerToken))
  }

  function Elements(keys: seq<Text>, n: nat): set<Text>
    requires n <= |keys|
  {
    if n == 0 then {} else Elements(keys, n - 1) + {keys[n - 1]}
  }

  /** Whether the first n keys hold `key`. */
  predicate Occurs(keys: seq<Text>, n: nat, key: Text)
    requires n <= |keys|
  {
    exists k :: 0 <= k < n && keys[k] == key
  }

  lemma {:induction false} ElementOccurs(keys: seq<Text>, n: nat, key: Text)
    requires n <= |keys|
    ensures key in Elements(keys, n) <==> Occurs(keys, n, key)
  {
    if n > 0 {
      ElementOccurs(keys, n - 1, key);
      assert keys[n - 1] == key ==> Occurs(keys, n, key);
      if Occurs(keys, n - 1, key) {
        var k :| 0 <= k < n - 1 && keys[k] == key;
        assert Occurs(keys, n, key);
      }
    }
  }

  /** The identities of the first n devices. */
  function Known(devices: seq<ControlCommand.VirtualAsioDevice>, n: nat): Seen
    requires n <= |devices|
  {
    Seen(Elements(Ids(devices), n), Elements(Clsids(devices), n), Elements(Names(devices), n), Elements(Tokens(devices), n))
  }

  lemma InsertGrows(seen: Seen, d: ControlCommand.VirtualAsioDevice)
    requires !InsertAll(seen, d).1
    ensures InsertAll(seen, d).0
         == Seen(seen.ids + {Folded(d.deviceId)}, seen.clsids + {Folded(d.clsid)},
                 seen.names + {Folded(d.registryName)}, seen.tokens + {Folded(d.brokerToken)})
  {
  }

  lemma KnownGrows(devices: seq<ControlCommand.VirtualAsioDevice>, n: nat)
    requires n < |devices| && !InsertAll(Known(devices, n), devices[n]).1
    ensures InsertAll(Known(devices, n), devices[n]).0 == Known(devices, n + 1)
  {
    InsertGrows(Known(devices, n), devices[n]);
  }

  /** As long as nothing repeats, the sets hold every identity. */
  lemma {:induction false} SeenAll(devices: seq<ControlCommand.VirtualAsioDevice>, n: nat)
    requires n <= |devices| && NoDuplicate(devices, n)
    ensures SeenBefore(devices, n) == Known(devices, n)
    decreases n
  {
    if n > 0 {
      SeenAll(devices, n - 1);
      KnownGrows(devices, n - 1);
    }
  }

  /** Whether a device shares one of its identities with one of the first n. */
  predicate Repeats(devices: seq<ControlCommand.VirtualAsioDevice>, n: nat, d: ControlCommand.VirtualAsioDevice)
    requires n <= |devices|
  {
    || Occurs(Ids(devices), n, Folded(d.deviceId)) || Occurs(Clsids(devices), n, Folded(d.clsid))
    || Occurs(Names(devices), n, Folded(d.registryName)) || Occurs(Tokens(devices), n, Folded(d.brokerToken))
  }

  lemma InsertFinds(devices: seq<ControlCommand.VirtualAsioDevice>, n: nat, d: ControlCommand.VirtualAsioDevice)
    requires n <= |devices|
    ensures InsertAll(Known(devices, n), d).1 <==> Repeats(devices, n, d)
  {
    ElementOccurs(Ids(devices), n, Folded(d.deviceId));
    ElementOccurs(Clsids(devices), n, Folded(d.clsid));
    ElementOccurs(Names(devices), n, Folded(d.registryName));
    ElementOccurs(Tokens(devices), n, Folded(d.brokerToken));
  }

  lemma RepeatsIff(devices: seq<ControlCommand.VirtualAsioDevice>, n: nat, d: ControlCommand.VirtualAsioDevice)
    requires n <= |devices|
    ensures Repeats(devices, n, d) <==> exists k :: 0 <= k < n && !IdentitiesDiffer(devices[k], d)
  {
    if k :| 0 <= k < n && !IdentitiesDiffer(devices[k], d) {
      assert Ids(devices)[k] == Folded(devices[k].deviceId) && Clsids(devices)[k] == Folded(devices[k].clsid);
      assert Names(devices)[k] == Folded(devices[k].registryName) && Tokens(devices)[k] == Folded(devices[k].brokerToken);
    }
    if k :| 0 <= k < n && Ids(devices)[k] == Folded(d.deviceId) {
      assert !IdentitiesDiffer(devices[k], d);
    }
    if k :| 0 <= k < n && Clsids(devices)[k] == Folded(d.clsid) {
      assert !IdentitiesDiffer(devices[k], d);
    }
    if k :| 0 <= k < n && Names(devices)[k] == Folded(d.registryName) {
      assert !IdentitiesDiffer(devices[k], d);
    }
    if k :| 0 <= k < n && Tokens(devices)[k] == Folded(d.brokerToken) {
      assert !IdentitiesDiffer(devices[k], d);
    }
  }

  predicate NoneRepeats(devices: seq<ControlCommand.VirtualAsioDevice>, n: nat)
    requires n <= |devices|
  {
    n == 0 || (NoneRepeats(devices, n - 1) && !Repeats(devices, n - 1, devices[n - 1]))
  }

  lemma {:induction false} NoDuplicateIff(devices: seq<ControlCommand.VirtualAsioDevice>, n: nat)
    requires n <= |devices|
    ensures NoDuplicate(devices, n) <==> NoneRepeats(devices, n)
  {
    if n > 0 {
      NoDuplicateIff(devices, n - 1);
      if NoDuplicate(devices, n - 1) {
        SeenAll(devices, n - 1);
        InsertFinds(devices, n - 1, devices[n - 1]);
      }
    }
  }

  lemma {:induction false} NoneRepeatsIff(devices: seq<ControlCommand.VirtualAsioDevice>, n: nat)
    requires n <= |devices|
    ensures NoneRepeats(devices, n) <==> AllDiffer(devices, n)
  {
    if n > 0 {
      NoneRepeatsIff(devices, n - 1);
      RepeatsIff(devices, n - 1, devices[n - 1]);
    }
  }

  /** Although a device that repeats one identity does not enter the others, a duplicate is reported
      exactly when two devices share one of their four identities, upper and lower case alike. */
  lemma DuplicatesAreFound(devices: seq<ControlCommand.VirtualAsioDevice>)
    ensures NoDuplicate(devices, |devices|) <==> AllDiffer(devices, |devices|)
  {
    NoDuplicateIff(devices, |devices|);
    NoneRepeatsIff(devices, |devices|);
  }

  predicate ShortFields(endpoints: seq<AudioRuntime.Endpoint>) {
    forall k :: 0 <= k < |endpoints| ==> |endpoints[k].id| <= MAX_STRING && |endpoints[k].device| <= MAX_STRING
  }

  predicate ValidDevice(d: ControlCommand.VirtualAsioDevice) {
    && ValidToken(d.deviceId) && ValidClsid(d.clsid) && d.registryName != [] && !HasSlash(d.registryName) && ValidToken(d.brokerToken)
    && |d.deviceId| <= MAX_STRING && |d.registryName| <= MAX_STRING && |d.brokerToken| <= MAX_STRING
    && 0 < d.inputChannels <= MAX_CHANNELS && 0 < d.outputChannels <= MAX_CHANNELS
  }

  predicate ValidDevices(devices: seq<ControlCommand.VirtualAsioDevice>) {
    forall k :: 0 <= k < |devices| ==> ValidDevice(devices[k])
  }

  predicate Valid(s: Session) {
    && s.schemaVersion == SCHEMA_VERSION && Preset.Valid(s.preset)
    && |s.runtime.captureDevice| <= MAX_STRING && |s.runtime.renderDevice| <= MAX_STRING && ShortFields(s.runtime.endpoints)
    && AudioRuntime.ValidConfiguration(s.runtime, true)
    && 0 < |s.devices| <= ControlCommand.MAX_VIRTUAL_ASIO_DEVICES && ValidDevices(s.devices) && AllDiffer(s.devices, |s.devices|)
    && (s.autoStart ==> s.runtime.mode != AudioRuntime.NoRuntime)
  }

  lemma {:induction false} LongFieldsEmpty(endpoints: seq<AudioRuntime.Endpoint>, n: nat)
    requires n <= |endpoints|
    ensures LongFields(endpoints, n) == [] <==> ShortFields(endpoints[..n])
  {
    if n > 0 {
      LongFieldsEmpty(endpoints, n - 1);
      assert endpoints[..n] == endpoints[..n - 1] + [endpoints[n - 1]];
    }
  }

  lemma DeviceErrorsEmpty(d: ControlCommand.VirtualAsioDevice)
    ensures DeviceErrors(d) == [] <==> ValidDevice(d)
  {
  }

  lemma {:induction false} ListErrorsEmpty(devices: seq<ControlCommand.VirtualAsioDevice>, n: nat)
    requires n <= |devices|
    ensures ListErrors(devices, n) == [] <==> ValidDevices(devices[..n]) && NoDuplicate(devices, n)
  {
    hide DeviceErrors, ValidDevice, InsertAll, SeenBefore;
    if n > 0 {
      ListErrorsEmpty(devices, n - 1);
      DeviceErrorsEmpty(devices[n - 1]);
      assert devices[..n] == devices[..n - 1] + [devices[n - 1]];
    }
  }

  /** Validation reports no error exactly when the session is valid. */
  lemma ValidIff(s: Session)
    ensures Errors(s) == [] <==> Valid(s)
  {
    hide LongFields, ListErrors, Preset.Errors, Preset.Valid, AudioRuntime.Errors, AudioRuntime.ValidConfiguration;
    hide AllDiffer, ShortFields, ValidDevices;
    Preset.ValidIff(s.preset);
    AudioRuntime.ValidConfigurationIff(s.runtime, true);
    LongFieldsEmpty(s.runtime.endpoints, |s.runtime.endpoints|);
    assert s.runtime.endpoints[..|s.runtime.endpoints|] == s.runtime.endpoints;
    ListErrorsEmpty(s.devices, |s.devices|);
    assert s.devices[..|s.devices|] == s.devices;
    DuplicatesAreFound(s.devices);
  }
}
