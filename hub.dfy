/** The account hub (`IquaHub`): signs in to the vendor API, lists the
    account's devices, and keeps a serial-keyed cache of device records that
    discovery merges into, lazy verification fills and removal evicts. HTTP
    calls are replaced by their outcomes. */
module Hub {
  import opened Base
  import opened Text

  const ApiBaseUrl := "https://apioem.ecowater.com/v1"
  const UserAgent := "okhttp/3.12.1"

  // Exception messages raised while signing in and listing devices. Some
  // are written as concatenations so that the pieces the setup flow looks
  // for ("authentication error", "502") stand on their own.
  const AuthErrorMessage := "Authentication error" + ": Invalid username or password"
  const ServerUnavailableMessage := "Server unavailable (" + "502" + ") - try again later"
  const TimeoutMessage := "Connection timeout - server not responding"
  const CannotConnectMessage := "Cannot connect to EcoWater servers"
  const ConnectionErrorPrefix := "Connection error: "
  const AuthFailedPrefix := "Authentication failed: "
  const AuthFailedHttpPrefix := "Authentication failed: HTTP "
  const InvalidResponseMessage := "Invalid response from server"
  const ListFailedPrefix := "Failed to fetch devices: "
  const ListFailedHttpPrefix := "Failed to fetch devices: HTTP "
  const InvalidListingMessage := "Invalid response when fetching devices"

  /** What one HTTP call gave: a response with its status and its body
      decoded as JSON (`None` when decoding raised `ValueError`), or a
      transport exception of `requests` with its text. */
  datatype Transport<B> =
    | Response(status: nat, body: Option<B>)
    | TimedOut(detail: string)
    | ConnectionFailed(detail: string)
    | RequestFailed(detail: string)

  /** The decoded body of `POST /auth/signin`: `code`, `message` and
      `data.token`, `data.tokenType`, each absent or a string. */
  datatype SigninBody = SigninBody(code: Option<string>, message: Option<string>, token: Option<string>, tokenType: Option<string>)

  /** The decoded body of `GET /system`: `code`, `message` and the `data`
      list, whose entries are JSON objects with string values. */
  datatype ListingBody = ListingBody(code: Option<string>, message: Option<string>, data: Option<seq<map<string, string>>>)

  datatype Token = Token(token: string, tokenType: string)

  /** A cached device record. `Listed` records come from the account
      listing (the serial may be missing there); `Verified` records are the
      ones `async_get_device` builds after a successful fetch. */
  datatype DeviceInfo =
    | Listed(serial: Option<string>, nickname: string, model: string, modelId: Option<string>, systemType: Option<string>, productImage: Option<string>)
    | Verified(verifiedSerial: string, model: string, firmware: Option<string>, state: string)

  /** The cache key of a record: `device['serial']` (Python's `None` when
      the listing had no serial number). */
  function Key(d: DeviceInfo): Option<string> {
    match d
    case Listed(s, _, _, _, _, _) => s
    case Verified(s, _, _, _) => Some(s)
  }

  /** `str(x)` of an optional string: Python prints a missing value as "None". */
  function PyStr(o: Option<string>): string {
    match o
    case Some(s) => s
    case None => "None"
  }

  /** `d.get(k)` and `d.get(k, default)`. */
  function Get(d: map<string, string>, k: string): Option<string> {
    if k in d then Some(d[k]) else None
  }

  function GetOr(d: map<string, string>, k: string, default: string): string {
    if k in d then d[k] else default
  }

  /** The sign-in half of `_authenticate_and_list_devices`: transport
      errors, then HTTP 401, HTTP 502, any other non-200 status, an
      undecodable body, a `code` other than "OK", and finally the token. A
      body without its token raises `KeyError`, which is not a library
      exception. */
  function SignIn(r: Transport<SigninBody>): Result<Token> {
    match r
    case TimedOut(_) => Err(Library(TimeoutMessage))
    case ConnectionFailed(_) => Err(Library(CannotConnectMessage))
    case RequestFailed(detail) => Err(Library(ConnectionErrorPrefix + detail))
    case Response(status, body) =>
      if status == 401 then Err(Library(AuthErrorMessage))
      else if status == 502 then Err(Library(ServerUnavailableMessage))
      else if status != 200 then Err(Library(AuthFailedHttpPrefix + Decimal(status)))
      else if body.None? then Err(Library(InvalidResponseMessage))
      else if body.value.code != Some("OK") then Err(Library(AuthFailedPrefix + PyStr(body.value.message)))
      else if body.value.token.None? then Err(Other("token"))
      else if body.value.tokenType.None? then Err(Other("tokenType"))
      else Ok(Token(body.value.token.value, body.value.tokenType.value))
  }

  /** The header the listing call carries: `f"{token_type} {token}"`. */
  function Authorization(t: Token): (h: string)
    ensures |h| == |t.tokenType| + 1 + |t.token|
    ensures h[..|t.tokenType|] == t.tokenType && h[|t.tokenType|] == ' ' && h[|t.tokenType| + 1..] == t.token
  {
    t.tokenType + " " + t.token
  }

  /** The status and payload checks on `GET /system`, giving the listed
      entries (an absent `data` list is empty). */
  function CheckListing(r: Transport<ListingBody>): Result<seq<map<string, string>>> {
    match r
    case TimedOut(detail) => Err(Library(ListFailedPrefix + detail))
    case ConnectionFailed(detail) => Err(Library(ListFailedPrefix + detail))
    case RequestFailed(detail) => Err(Library(ListFailedPrefix + detail))
    case Response(status, body) =>
      if status != 200 then Err(Library(ListFailedHttpPrefix + Decimal(status)))
      else if body.None? then Err(Library(InvalidListingMessage))
      else if body.value.code != Some("OK") then Err(Library(ListFailedPrefix + PyStr(body.value.message)))
      else if body.value.data.None? then Ok([])
      else Ok(body.value.data.value)
  }

  /** One listed entry as a record, with the defaults 'Device' and
      'Water Softener'. */
  function ParseDevice(entry: map<string, string>): DeviceInfo {
    Listed(
      Get(entry, "serialNumber"),
      GetOr(entry, "nickname", "Device"),
      GetOr(entry, "modelDescription", "Water Softener"),
      Get(entry, "modelName"),
      Get(entry, "systemType"),
      Get(entry, "productImage"))
  }

  /** The parse loop of `_authenticate_and_list_devices`: one record per
      listed entry, in the listing's order. */
  method ParseDevices(entries: seq<map<string, string>>) returns (devices: seq<DeviceInfo>)
    ensures |devices| == |entries|
    ensures forall i :: 0 <= i < |entries| ==> devices[i] == ParseDevice(entries[i])
  {
    devices := [];
    for i := 0 to |entries|
      invariant |devices| == i
      invariant forall j :: 0 <= j < i ==> devices[j] == ParseDevice(entries[j])
    {
      devices := devices + [ParseDevice(entries[i])];
    }
  }

  /** Sign-in yields a token only for HTTP 200 with code "OK" and both
      token fields; 401 and 502 have their own messages, and every other
      failure before the token is a library error. */
  lemma SignInOutcomes(r: Transport<SigninBody>)
    ensures SignIn(r).Ok? <==>
      && r.Response? && r.status == 200 && r.body.Some? && r.body.value.code == Some("OK")
      && r.body.value.token.Some? && r.body.value.tokenType.Some?
    ensures SignIn(r).Ok? ==> SignIn(r).value == Token(r.body.value.token.value, r.body.value.tokenType.value)
    ensures r.Response? && r.status == 401 ==> SignIn(r) == Err(Library(AuthErrorMessage))
    ensures r.Response? && r.status == 502 ==> SignIn(r) == Err(Library(ServerUnavailableMessage))
    ensures r.Response? && r.status != 200 ==> SignIn(r).Err? && SignIn(r).failure.Library?
    ensures r.Response? && r.status == 200 && r.body.Some? && r.body.value.code != Some("OK") ==>
      SignIn(r) == Err(Library(AuthFailedPrefix + PyStr(r.body.value.message)))
    ensures !r.Response? ==> SignIn(r).Err? && SignIn(r).failure.Library?
    ensures SignIn(r).Err? && SignIn(r).failure.Other? ==>
      r.Response? && r.status == 200 && r.body.Some? && r.body.value.code == Some("OK")
  {
  }

  /** The listing is accepted only for HTTP 200 with code "OK", and then
      gives its `data` list (empty when absent); every rejection is a
      library error. */
  lemma ListingOutcomes(r: Transport<ListingBody>)
    ensures CheckListing(r).Ok? <==> r.Response? && r.status == 200 && r.body.Some? && r.body.value.code == Some("OK")
    ensures CheckListing(r).Err? ==> CheckListing(r).failure.Library?
    ensures CheckListing(r).Ok? ==>
      CheckListing(r).value == (if r.body.value.data.Some? then r.body.value.data.value else [])
  {
  }

  /** A parsed record keeps the listed fields and falls back to 'Device'
      and 'Water Softener' for a missing nickname and model. */
  lemma ParseDeviceDefaults(entry: map<string, string>)
    ensures ParseDevice(entry).Listed?
    ensures Key(ParseDevice(entry)) == (if "serialNumber" in entry then Some(entry["serialNumber"]) else None)
    ensures ParseDevice(entry).nickname == (if "nickname" in entry then entry["nickname"] else "Device")
    ensures ParseDevice(entry).model == (if "modelDescription" in entry then entry["modelDescription"] else "Water Softener")
    ensures ParseDevice(entry).modelId.Some? <==> "modelName" in entry
  {
  }

  /** The whole of `_authenticate_and_list_devices` as a value. */
  function ListingResult(signin: Transport<SigninBody>, listing: Transport<ListingBody>): Result<seq<DeviceInfo>> {
    match SignIn(signin)
    case Err(f) => Err(f)
    case Ok(_) =>
      match CheckListing(listing)
      case Err(f) => Err(f)
      case Ok(entries) => Ok(seq(|entries|, i requires 0 <= i < |entries| => ParseDevice(entries[i])))
  }

  /** `_authenticate_and_list_devices`: sign in, list, parse. The listing
      succeeds only when sign-in gave a token and the listing call answered
      200 with code "OK"; every failure is the first one met. */
  method AuthenticateAndListDevices(signin: Transport<SigninBody>, listing: Transport<ListingBody>)
    returns (r: Result<seq<DeviceInfo>>)
    ensures r.Ok? <==> SignIn(signin).Ok? && CheckListing(listing).Ok?
    ensures SignIn(signin).Err? ==> r == Err(SignIn(signin).failure)
    ensures SignIn(signin).Ok? && CheckListing(listing).Err? ==> r == Err(CheckListing(listing).failure)
    ensures r.Ok? ==> |r.value| == |CheckListing(listing).value|
    ensures r.Ok? ==> forall i :: 0 <= i < |r.value| ==> r.value[i] == ParseDevice(CheckListing(listing).value[i])
    ensures r == ListingResult(signin, listing)
  {
    var token := SignIn(signin);
    if token.Err? {
      return Err(token.failure);
    }
    var checked := CheckListing(listing);
    if checked.Err? {
      return Err(checked.failure);
    }
    var devices := ParseDevices(checked.value);
    assert devices == seq(|checked.value|, i requires 0 <= i < |checked.value| => ParseDevice(checked.value[i]));
    return Ok(devices);
  }

  /** The cache after storing `devices` one by one: `_devices[d['serial']] = d`. */
  function MergeDevices(cache: map<Option<string>, DeviceInfo>, devices: seq<DeviceInfo>): map<Option<string>, DeviceInfo>
    decreases |devices|
  {
    if devices == [] then cache
    else MergeDevices(cache[Key(devices[0]) := devices[0]], devices[1..])
  }

  /** The serials a listing mentions. */
  function ListedKeys(devices: seq<DeviceInfo>): set<Option<string>> {
    set i | 0 <= i < |devices| :: Key(devices[i])
  }

  /** Storing is a merge keyed by serial: every listed serial ends up in
      the cache holding the LAST record listed under it, and every other
      cached serial keeps its record. */
  lemma MergeDevicesSpec(cache: map<Option<string>, DeviceInfo>, devices: seq<DeviceInfo>)
    ensures var m := MergeDevices(cache, devices);
      && m.Keys == cache.Keys + ListedKeys(devices)
      && (forall i :: 0 <= i < |devices| && (forall j :: i < j < |devices| ==> Key(devices[j]) != Key(devices[i]))
            ==> m[Key(devices[i])] == devices[i])
      && (forall k :: k in cache && k !in ListedKeys(devices) ==> m[k] == cache[k])
  {
    MergeKeys(cache, devices);
    forall i | 0 <= i < |devices| && (forall j :: i < j < |devices| ==> Key(devices[j]) != Key(devices[i]))
      ensures MergeDevices(cache, devices)[Key(devices[i])] == devices[i]
    {
      MergeLastWinsAt(cache, devices, i);
    }
    MergeKeepsOthers(cache, devices);
  }

  lemma {:induction false} MergeKeys(cache: map<Option<string>, DeviceInfo>, devices: seq<DeviceInfo>)
    ensures MergeDevices(cache, devices).Keys == cache.Keys + ListedKeys(devices)
    decreases |devices|
  {
    if devices != [] {
      var rest := devices[1..];
      MergeKeys(cache[Key(devices[0]) := devices[0]], rest);
      assert ListedKeys(devices) == {Key(devices[0])} + ListedKeys(rest) by {
        forall i | 0 <= i < |devices| ensures Key(devices[i]) in {Key(devices[0])} + ListedKeys(rest) {
          if i > 0 { assert Key(devices[i]) == Key(rest[i - 1]); }
        }
        forall i | 0 <= i < |rest| ensures Key(rest[i]) in ListedKeys(devices) {
          assert Key(rest[i]) == Key(devices[i + 1]);
        }
      }
    }
  }

  /** The record listed at `i`, when no later record has its serial, is
      the one the cache keeps. */
  lemma {:induction false} MergeLastWinsAt(cache: map<Option<string>, DeviceInfo>, devices: seq<DeviceInfo>, i: nat)
    requires i < |devices| && forall j :: i < j < |devices| ==> Key(devices[j]) != Key(devices[i])
    ensures Key(devices[i]) in MergeDevices(cache, devices) && MergeDevices(cache, devices)[Key(devices[i])] == devices[i]
    decreases |devices|
  {
    var next := cache[Key(devices[0]) := devices[0]];
    var rest := devices[1..];
    assert MergeDevices(cache, devices) == MergeDevices(next, rest);
    if i > 0 {
      assert rest[i - 1] == devices[i];
      forall j | i - 1 < j < |rest| ensures Key(rest[j]) != Key(rest[i - 1]) {
        assert rest[j] == devices[j + 1];
      }
      MergeLastWinsAt(next, rest, i - 1);
    } else {
      forall j | 0 <= j < |rest| ensures Key(rest[j]) != Key(devices[0]) {
        assert rest[j] == devices[j + 1];
      }
      assert Key(devices[0]) !in ListedKeys(rest);
      MergeKeepsOthers(next, rest);
    }
  }

  lemma {:induction false} MergeKeepsOthers(cache: map<Option<string>, DeviceInfo>, devices: seq<DeviceInfo>)
    ensures forall k :: k in cache && k !in ListedKeys(devices) ==>
      k in MergeDevices(cache, devices) && MergeDevices(cache, devices)[k] == cache[k]
    decreases |devices|
  {
    if devices != [] {
      var next := cache[Key(devices[0]) := devices[0]];
      var rest := devices[1..];
      MergeKeepsOthers(next, rest);
      forall k | k in cache && k !in ListedKeys(devices)
        ensures k in MergeDevices(cache, devices) && MergeDevices(cache, devices)[k] == cache[k]
      {
        assert Key(devices[0]) in ListedKeys(devices);
        forall i | 0 <= i < |rest| ensures Key(rest[i]) != k {
          assert rest[i] == devices[i + 1];
          assert Key(devices[i + 1]) in ListedKeys(devices);
        }
        assert k !in ListedKeys(rest);
      }
    }
  }

  /** Discovery makes each serial appear once however often it is listed
      (the cache is a map), keeps serials the listing no longer mentions,
      and a later listing of a serial overrides an earlier one. */
  lemma RediscoveryLaterWins(cache: map<Option<string>, DeviceInfo>, first: DeviceInfo, second: DeviceInfo)
    requires Key(first) == Key(second)
    ensures MergeDevices(MergeDevices(cache, [first]), [second]) == cache[Key(second) := second]
  {
  }

  /** The record `async_get_device` caches after a successful fetch. */
  function VerifiedRecord(serial: string, data: Telemetry): (d: DeviceInfo)
    ensures Key(d) == Some(serial)
    ensures d.model == (if data.model.Some? then data.model.value else "iQua Water Softener")
    ensures d.Verified? && d.firmware == data.firmwareVersion && d.state == data.state
  {
    Verified(serial, if data.model.Some? then data.model.value else "iQua Water Softener", data.firmwareVersion, data.state)
  }

  /** `IquaHub`: one account and its device cache. */
  class IquaHub {
    const username: string
    const password: string
    var devices: map<Option<string>, DeviceInfo>

    constructor (username: string, password: string)
      ensures this.username == username && this.password == password
      ensures devices == map[]
    {
      this.username := username;
      this.password := password;
      devices := map[];
    }

    /** Stores each record under its serial, in order. */
    method StoreDevices(list: seq<DeviceInfo>)
      modifies this
      ensures devices == MergeDevices(old(devices), list)
    {
      var i := 0;
      while i < |list|
        invariant 0 <= i <= |list|
        invariant MergeDevices(old(devices), list) == MergeDevices(devices, list[i..])
      {
        assert list[i..][1..] == list[i + 1..];
        devices := devices[Key(list[i]) := list[i]];
        i := i + 1;
      }
    }

    /** `async_setup`: list the account's devices and merge them into the
        cache; a failed sign-in or listing raises and leaves the cache as
        it was. */
    method Setup(signin: Transport<SigninBody>, listing: Transport<ListingBody>) returns (r: Result<bool>)
      modifies this
      ensures r.Ok? <==> ListingResult(signin, listing).Ok?
      ensures r.Ok? ==> r.value && devices == MergeDevices(old(devices), ListingResult(signin, listing).value)
      ensures r.Err? ==> r.failure == ListingResult(signin, listing).failure && devices == old(devices)
    {
      var listed := AuthenticateAndListDevices(signin, listing);
      if listed.Err? {
        return Err(listed.failure);
      }
      StoreDevices(listed.value);
      return Ok(true);
    }

    /** `async_discover_devices`: as `async_setup`, returning the list. */
    method DiscoverDevices(signin: Transport<SigninBody>, listing: Transport<ListingBody>) returns (r: Result<seq<DeviceInfo>>)
      modifies this
      ensures r == ListingResult(signin, listing)
      ensures r.Ok? ==> devices == MergeDevices(old(devices), r.value)
      ensures r.Err? ==> devices == old(devices)
    {
      r := AuthenticateAndListDevices(signin, listing);
      if r.Ok? {
        StoreDevices(r.value);
      }
    }

    /** `async_get_device`: a cached serial is answered from the cache
        whatever a fetch would give; otherwise one fetch decides. Every
        library error, a 502 included, becomes `None`; other exceptions
        pass through. */
    method GetDevice(serial: string, fetch: Result<Telemetry>) returns (r: Result<Option<DeviceInfo>>)
      modifies this
      ensures Some(serial) in old(devices) ==> r == Ok(Some(old(devices)[Some(serial)])) && devices == old(devices)
      ensures Some(serial) !in old(devices) && fetch.Ok? ==>
        r == Ok(Some(VerifiedRecord(serial, fetch.value)))
        && devices == old(devices)[Some(serial) := VerifiedRecord(serial, fetch.value)]
      ensures Some(serial) !in old(devices) && fetch.Err? && fetch.failure.Library? ==> r == Ok(None) && devices == old(devices)
      ensures Some(serial) !in old(devices) && fetch.Err? && fetch.failure.Other? ==> r == Err(fetch.failure) && devices == old(devices)
    {
      if Some(serial) in devices {
        return Ok(Some(devices[Some(serial)]));
      }
      match fetch
      case Ok(data) =>
        var info := VerifiedRecord(serial, data);
        devices := devices[Some(serial) := info];
        return Ok(Some(info));
      case Err(Library(_)) =>
        return Ok(None);
      case Err(Other(m)) =>
        return Err(Other(m));
    }

    /** `get_softener_for_device`: the hub's own credentials with the given serial. */
    function SoftenerFor(serial: string): (s: Softener)
      ensures s.username == username && s.password == password && s.serial == serial
    {
      Softener(username, password, serial)
    }

    /** `async_remove_device`: evicts that serial only; an absent serial is a no-op. */
    method RemoveDevice(serial: string)
      modifies this
      ensures devices == old(devices) - {Some(serial)}
      ensures Some(serial) !in old(devices) ==> devices == old(devices)
      ensures forall k :: k in old(devices) && k != Some(serial) ==> k in devices && devices[k] == old(devices)[k]
    {
      if Some(serial) in devices {
        devices := devices - {Some(serial)};
      }
    }
  }
}
