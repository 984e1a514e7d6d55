/** The configuration flow (`config_flow.py`): a menu, a hub step that
    signs in, a device step that verifies a serial through the loaded hub,
    and a legacy single-device step, each turning library errors into the
    form's error key by substrings of the lower-cased message. */
module ConfigFlow {
  import opened Base
  import opened Text
  import opened Entries
  import H = Hub
  import L = Linkage

  /** The `errors["base"]` keys a form can show. */
  datatype ErrorKey = InvalidAuth | ServerUnavailable | DeviceNotFound | CannotConnect | UnknownError

  /** The words the classifiers look for in the lower-cased message. */
  predicate MentionsAuth(e: string) {
    Contains(e, "authentication error") || Contains(e, "invalid user")
  }

  predicate MentionsDevice(e: string) {
    Contains(e, "device") || Contains(e, "serial")
  }

  /** The hub step's handlers: authentication wording, then "502", else
      a connection problem; a non-library exception is "unknown". */
  function HubStepError(f: Failure): (k: ErrorKey)
    ensures f.Other? <==> k == UnknownError
    ensures k != DeviceNotFound
    ensures f.Library? && MentionsAuth(Lower(f.message)) ==> k == InvalidAuth
    ensures f.Library? ==> (k == InvalidAuth <==> MentionsAuth(Lower(f.message)))
    ensures f.Library? && !MentionsAuth(Lower(f.message)) ==> (k == ServerUnavailable <==> Contains(Lower(f.message), "502"))
    ensures f.Library? && !MentionsAuth(Lower(f.message)) && !Contains(Lower(f.message), "502") ==> k == CannotConnect
  {
    match f
    case Other(_) => UnknownError
    case Library(m) =>
      var e := Lower(m);
      if MentionsAuth(e) then InvalidAuth
      else if Contains(e, "502") then ServerUnavailable
      else CannotConnect
  }

  /** The legacy step's handlers: as the hub step's, with device or serial
      wording tested before falling back to a connection problem. The full
      mapping is stated relative to `HubStepError` by `LegacyRefinesHub`. */
  function LegacyStepError(f: Failure): (k: ErrorKey)
    ensures f.Other? <==> k == UnknownError
  {
    match f
    case Other(_) => UnknownError
    case Library(m) =>
      var e := Lower(m);
      if MentionsAuth(e) then InvalidAuth
      else if Contains(e, "502") then ServerUnavailable
      else if MentionsDevice(e) then DeviceNotFound
      else CannotConnect
  }

  /** The device step's handlers: device or serial wording, else a
      connection problem. */
  function DeviceStepError(f: Failure): (k: ErrorKey)
    ensures f.Other? <==> k == UnknownError
    ensures k in {DeviceNotFound, CannotConnect, UnknownError}
    ensures f.Library? ==> (k == DeviceNotFound <==> MentionsDevice(Lower(f.message)))
    ensures f.Library? ==> (k == CannotConnect <==> !MentionsDevice(Lower(f.message)))
  {
    match f
    case Other(_) => UnknownError
    case Library(m) => if MentionsDevice(Lower(m)) then DeviceNotFound else CannotConnect
  }

  /** The legacy step classifies as the hub step does, except that a
      message the hub step would call a connection problem becomes
      "device not found" when it mentions a device or a serial. */
  lemma LegacyRefinesHub(f: Failure)
    ensures HubStepError(f) != CannotConnect ==> LegacyStepError(f) == HubStepError(f)
    ensures HubStepError(f) == CannotConnect ==>
      LegacyStepError(f) == (if MentionsDevice(Lower(f.message)) then DeviceNotFound else CannotConnect)
  {
  }

  /** A message lacking, in either case, a letter both authentication
      phrases contain names no authentication problem. */
  lemma NoAuthWording(m: string, ka: nat, ki: nat)
    requires ka < 20 && ki < 12 && 'a' <= "invalid user"[ki] <= 'z'
    requires "authentication error"[ka] == "invalid user"[ki] && Lacks(m, "invalid user"[ki])
    ensures !MentionsAuth(Lower(m))
  {
    AbsentLowered(m, "authentication error", ka);
    AbsentLowered(m, "invalid user", ki);
  }

  /** `Lower(prefix + Decimal(n))` holds "502" exactly when the number does,
      for a prefix without a '5', and names no authentication problem when
      the prefix lacks, in either case, a letter of both auth phrases. */
  lemma StatusMessage(prefix: string, n: nat, ka: nat, ki: nat)
    requires Lacks(prefix, '5')
    requires ka < 20 && ki < 12 && 'a' <= "invalid user"[ki] <= 'z'
    requires "authentication error"[ka] == "invalid user"[ki] && Lacks(prefix, "invalid user"[ki])
    ensures Contains(Lower(prefix + Decimal(n)), "502") <==> Contains(Decimal(n), "502")
    ensures !MentionsAuth(Lower(prefix + Decimal(n)))
  {
    var d := Decimal(n);
    LowerAppend(prefix, d);
    LowerOfLower(d);
    LowerKeepsAbsent(prefix, '5');
    ContainsAfter(Lower(prefix), d, "502");
    var c := "invalid user"[ki];
    assert Lacks(prefix + d, c) by {
      forall i | 0 <= i < |prefix + d| ensures (prefix + d)[i] != c && (prefix + d)[i] != UpperChar(c) {
        if i >= |prefix| {
          assert (prefix + d)[i] == d[i - |prefix|];
        }
      }
    }
    NoAuthWording(prefix + d, ka, ki);
  }

  /** A message with none of the three phrases is a connection problem. */
  lemma PlainFailure(m: string, ka: nat, ki: nat)
    requires ka < 20 && ki < 12 && 'a' <= "invalid user"[ki] <= 'z'
    requires "authentication error"[ka] == "invalid user"[ki] && Lacks(m, "invalid user"[ki]) && Lacks(m, '5')
    ensures HubStepError(Library(m)) == CannotConnect
  {
    NoAuthWording(m, ka, ki);
    AbsentLowered(m, "502", 0);
  }

  lemma TimeoutIsConnectionProblem()
    ensures HubStepError(Library(H.TimeoutMessage)) == CannotConnect
  {
    PlainFailure(H.TimeoutMessage, 0, 3);
  }

  lemma RefusedIsConnectionProblem()
    ensures HubStepError(Library(H.CannotConnectMessage)) == CannotConnect
  {
    PlainFailure(H.CannotConnectMessage, 1, 8);
  }

  lemma UndecodableIsConnectionProblem()
    ensures HubStepError(Library(H.InvalidResponseMessage)) == CannotConnect
  {
    PlainFailure(H.InvalidResponseMessage, 1, 8);
  }

  lemma AuthMessageIsAuth()
    ensures HubStepError(Library(H.AuthErrorMessage)) == InvalidAuth
  {
    var w := "Authentication error";
    assert H.AuthErrorMessage[0..|w|] == w;
    LowerCapitalised('A', "uthentication error");
    OccursLowered(H.AuthErrorMessage, "authentication error", 0);
  }

  lemma UnavailableMessageIs502()
    ensures HubStepError(Library(H.ServerUnavailableMessage)) == ServerUnavailable
  {
    UnavailableMessageHas502();
    UnavailableMessageNotAuth();
    UnavailableMessageNotUser();
  }

  lemma UnavailableMessageHas502()
    ensures Contains(Lower(H.ServerUnavailableMessage), "502")
  {
    var w := "Server unavailable (";
    assert H.ServerUnavailableMessage[|w|..|w| + 3] == "502";
    LowerOfLower("502");
    OccursLowered(H.ServerUnavailableMessage, "502", |w|);
  }

  lemma UnavailableMessageNotAuth()
    ensures !Contains(Lower(H.ServerUnavailableMessage), "authentication error")
  {
    AbsentLowered(H.ServerUnavailableMessage, "authentication error", 3);
  }

  lemma UnavailableMessageNotUser()
    ensures !Contains(Lower(H.ServerUnavailableMessage), "invalid user")
  {
    AbsentLowered(H.ServerUnavailableMessage, "invalid user", 6);
  }

  /** What the hub step shows for each way sign-in fails: HTTP 401 is bad
      credentials, HTTP 502 is the server being unavailable, a timeout or a
      refused connection is a connection problem, another HTTP status is
      "server unavailable" exactly when its digits contain "502", an
      undecodable body is a connection problem, and a missing token is
      "unknown". */
  lemma SignInErrorKeys(r: H.Transport<H.SigninBody>)
    ensures r.Response? && r.status == 401 ==> HubStepError(H.SignIn(r).failure) == InvalidAuth
    ensures r.Response? && r.status == 502 ==> HubStepError(H.SignIn(r).failure) == ServerUnavailable
    ensures r.TimedOut? || r.ConnectionFailed? ==> HubStepError(H.SignIn(r).failure) == CannotConnect
    ensures r.Response? && r.status !in {200, 401, 502} ==>
      HubStepError(H.SignIn(r).failure) == (if Contains(Decimal(r.status), "502") then ServerUnavailable else CannotConnect)
    ensures r.Response? && r.status == 200 && r.body.None? ==> HubStepError(H.SignIn(r).failure) == CannotConnect
    ensures r.Response? && r.status == 200 && r.body.Some? && r.body.value.code == Some("OK") && r.body.value.token.None? ==>
      HubStepError(H.SignIn(r).failure) == UnknownError
  {
    match r
    case TimedOut(_) => TimeoutIsConnectionProblem();
    case ConnectionFailed(_) => RefusedIsConnectionProblem();
    case RequestFailed(_) =>
    case Response(status, body) =>
      if status == 401 {
        AuthMessageIsAuth();
      } else if status == 502 {
        UnavailableMessageIs502();
      } else if status != 200 {
        StatusMessage(H.AuthFailedHttpPrefix, status, 16, 11);
      } else if body.None? {
        UndecodableIsConnectionProblem();
      }
  }

  /** What the hub step shows when sign-in succeeds but the device listing
      fails with an HTTP status: "server unavailable" exactly when its
      digits contain "502" (so a 502 on the listing too), else a connection
      problem. */
  lemma ListingErrorKeys(r: H.Transport<H.ListingBody>)
    requires r.Response? && r.status != 200
    ensures HubStepError(H.CheckListing(r).failure) == (if Contains(Decimal(r.status), "502") then ServerUnavailable else CannotConnect)
  {
    StatusMessage(H.ListFailedHttpPrefix, r.status, 1, 8);
  }

  /** The flow's steps. */
  datatype Step = UserStep | HubStep | DeviceStep | LegacyStep

  /** What a step answers: a menu, a new entry, the step's form again
      (with the error it shows, if any), an abort with its reason, or an
      exception escaping the step. */
  datatype FlowResult =
    | ShowMenu(options: seq<Step>)
    | CreateEntry(title: string, data: EntryConfig)
    | ShowForm(step: Step, error: Option<ErrorKey>)
    | Abort(reason: AbortReason)
    | FlowCrashed

  datatype AbortReason = NoHub | AlreadyConfigured

  /** The submitted forms. */
  datatype HubInput = HubInput(username: string, password: string)
  datatype DeviceInput = DeviceInput(serial: string, customName: Option<string>)
  datatype LegacyInput = LegacyInput(username: string, password: string, serial: string)

  function NoConfig(): EntryConfig {
    EntryConfig(None, None, None, None, None)
  }

  function HubTitle(username: string): string {
    "EcoWater Hub (" + username + ")"
  }

  /** A device entry's title: the custom name when it is non-empty, else
      "Water Softener" and the serial's last six characters. */
  function DeviceTitle(customName: Option<string>, serial: string): string {
    if customName.Some? && customName.value != "" then customName.value
    else "Water Softener " + Suffix(serial, 6)
  }

  function LegacyTitle(serial: string): string {
    "iQua " + Suffix(serial, 6)
  }

  /** The unique id the device and legacy steps claim: the lower-cased serial. */
  function FlowUniqueId(serial: string): (u: string)
    ensures |u| == |serial| && IsLowerAscii(u)
    ensures forall i :: 0 <= i < |serial| ==> u[i] == LowerChar(serial[i])
  {
    LowerIsLower(serial);
    Lower(serial)
  }

  /** `_abort_if_unique_id_configured`: some entry already has this unique id. */
  predicate UniqueIdTaken(entries: seq<ConfigEntry>, id: string) {
    exists i :: 0 <= i < |entries| && entries[i].uniqueId == Some(id)
  }

  /** Entry `i` is a hub entry and none before it is. */
  predicate FirstHubAt(entries: seq<ConfigEntry>, i: int) {
    0 <= i < |entries| && IsHub(entries[i].data) && forall j :: 0 <= j < i ==> !IsHub(entries[j].data)
  }

  /** The first entry whose data has a true `is_hub`. */
  function FirstHubEntry(entries: seq<ConfigEntry>): (e: Option<ConfigEntry>)
    ensures e.None? <==> forall i :: 0 <= i < |entries| ==> !IsHub(entries[i].data)
    ensures e.Some? ==> exists i :: FirstHubAt(entries, i) && entries[i] == e.value
  {
    if |entries| == 0 then None
    else if IsHub(entries[0].data) then Some(entries[0])
    else
      var e := FirstHubEntry(entries[1..]);
      if e.Some? then
        ghost var i :| FirstHubAt(entries[1..], i) && entries[1..][i] == e.value;
        assert FirstHubAt(entries, i + 1);
        e
      else
        e
  }

  function HubEntryData(username: string, password: string): EntryConfig {
    EntryConfig(Some(true), Some(username), Some(password), None, None)
  }

  function DeviceEntryData(serial: string, hubId: EntryId): EntryConfig {
    EntryConfig(Some(false), None, None, Some(serial), Some(hubId))
  }

  function LegacyEntryData(username: string, password: string, serial: string): EntryConfig {
    EntryConfig(Some(false), Some(username), Some(password), Some(serial), None)
  }

  /** The default titles show the serial's last six characters, or the
      whole serial when it is shorter; serials that agree in their last six
      characters therefore get the same default title. */
  lemma DefaultTitlesShowSerialTail(a: string, b: string)
    ensures |a| >= 6 ==> DeviceTitle(None, a) == "Water Softener " + a[|a| - 6..] && LegacyTitle(a) == "iQua " + a[|a| - 6..]
    ensures |a| < 6 ==> DeviceTitle(None, a) == "Water Softener " + a && LegacyTitle(a) == "iQua " + a
    ensures |a| >= 6 && |b| >= 6 && a[|a| - 6..] == b[|b| - 6..] ==>
      DeviceTitle(None, a) == DeviceTitle(None, b) && LegacyTitle(a) == LegacyTitle(b)
  {
  }

  /** Two serials claim the same unique id exactly when they have the same
      length and agree character by character up to letter case. */
  lemma UniqueIdIgnoresCase(s: string, t: string)
    ensures FlowUniqueId(s) == FlowUniqueId(t) <==>
      |s| == |t| && forall i :: 0 <= i < |s| ==> LowerChar(s[i]) == LowerChar(t[i])
  {
    var u, v := FlowUniqueId(s), FlowUniqueId(t);
    if |s| == |t| && forall i :: 0 <= i < |s| ==> LowerChar(s[i]) == LowerChar(t[i]) {
      assert forall i :: 0 <= i < |u| ==> u[i] == v[i];
    }
  }

  /** The step's unique id and the hub's provisioning check disagree on
      case: an entry made for serial `s` blocks a manual flow for any `t`
      that differs from it in letter case only, yet the provisioning loop
      does not count `t` as configured. */
  lemma ProvisioningIsCaseSensitive(entry: ConfigEntry, s: string, t: string)
    requires entry.data.serial == Some(s) && entry.uniqueId == Some(FlowUniqueId(s))
    requires Lower(s) == Lower(t) && s != t
    ensures UniqueIdTaken([entry], FlowUniqueId(t))
    ensures !L.Configured([entry], Some(t))
  {
    assert FlowUniqueId(s) == FlowUniqueId(t);
    assert [entry][0] == entry;
  }

  /** Such serials exist: "ab" and "AB". */
  lemma CaseVariantsExist()
    ensures Lower("AB") == Lower("ab") && "AB" != "ab"
  {
    assert Lower("AB")[0] == 'a' && Lower("AB")[1] == 'b';
    assert Lower("ab")[0] == 'a' && Lower("ab")[1] == 'b';
  }

  /** A hub entry made by the hub step sets up as a hub; a device entry
      made by the device step sets up as a device of that hub, with the
      hub's credentials; a legacy entry sets up as a device with its own. */
  lemma CreatedEntriesSetUpAsIntended(u: string, p: string, serial: string, hubId: EntryId, data: map<EntryId, L.Record>)
    ensures IsHub(Merge(HubEntryData(u, p), NoConfig()))
    ensures !IsHub(Merge(DeviceEntryData(serial, hubId), NoConfig()))
    ensures hubId != "" ==> HubLink(Merge(DeviceEntryData(serial, hubId), NoConfig()).hubId) == Some(hubId)
    ensures hubId != "" && hubId in data && data[hubId].HubRecord? ==>
      L.DeviceSoftener(data, Merge(DeviceEntryData(serial, hubId), NoConfig())) == Some(data[hubId].hub.SoftenerFor(serial))
    ensures !IsHub(Merge(LegacyEntryData(u, p, serial), NoConfig()))
    ensures L.DeviceSoftener(data, Merge(LegacyEntryData(u, p, serial), NoConfig())) == Some(Softener(u, p, serial))
  {
  }

  /** `hass.data[DOMAIN][id]["hub"]` exists. */
  predicate HubLoaded(data: map<EntryId, L.Record>, id: EntryId) {
    id in data && data[id].HubRecord?
  }

  function HubsOf(data: map<EntryId, L.Record>): set<H.IquaHub> {
    set k | k in data && data[k].HubRecord? :: data[k].hub
  }

  /** The first hub entry exists and its hub is loaded. */
  predicate FirstHubLoaded(entries: seq<ConfigEntry>, data: map<EntryId, L.Record>) {
    FirstHubEntry(entries).Some? && HubLoaded(data, FirstHubEntry(entries).value.entryId)
  }

  /** The loaded hub of the first hub entry. */
  function FirstHub(entries: seq<ConfigEntry>, data: map<EntryId, L.Record>): (hub: H.IquaHub)
    requires FirstHubLoaded(entries, data)
    ensures hub in HubsOf(data)
  {
    data[FirstHubEntry(entries).value.entryId].hub
  }

  /** The device step gets as far as asking the hub: a serial was
      submitted, the first hub is loaded and the serial's unique id is
      free. */
  predicate Looks(input: Option<DeviceInput>, entries: seq<ConfigEntry>, data: map<EntryId, L.Record>) {
    && input.Some? && FirstHubLoaded(entries, data)
    && !UniqueIdTaken(entries, FlowUniqueId(input.value.serial))
  }

  /** One run of the flow; `hubData` and `uniqueId` are what the flow
      object keeps between steps. */
  class ConfigFlowHandler {
    var hubData: Option<EntryConfig>
    var uniqueId: Option<string>

    constructor ()
      ensures hubData == None && uniqueId == None
    {
      hubData := None;
      uniqueId := None;
    }

    /** `async_step_user`: the menu of the two ways to set up. */
    method StepUser() returns (r: FlowResult)
      ensures r == ShowMenu([HubStep, LegacyStep])
    {
      return ShowMenu([HubStep, LegacyStep]);
    }

    /** `async_step_hub`: sign in and list devices on a new hub; success
        creates the hub entry, a failure shows the form with its error. No
        unique id is claimed, so nothing stops a second hub for an account. */
    method StepHub(input: Option<HubInput>, signin: H.Transport<H.SigninBody>, listing: H.Transport<H.ListingBody>)
      returns (r: FlowResult)
      modifies this
      ensures uniqueId == old(uniqueId)
      ensures input.None? ==> r == ShowForm(HubStep, None) && hubData == old(hubData)
      ensures input.Some? ==> (r.CreateEntry? <==> H.ListingResult(signin, listing).Ok?)
      ensures input.Some? && H.ListingResult(signin, listing).Ok? ==>
        var data := HubEntryData(input.value.username, input.value.password);
        r == CreateEntry(HubTitle(input.value.username), data) && hubData == Some(data)
      ensures input.Some? && H.ListingResult(signin, listing).Err? ==>
        r == ShowForm(HubStep, Some(HubStepError(H.ListingResult(signin, listing).failure))) && hubData == old(hubData)
    {
      if input.None? {
        return ShowForm(HubStep, None);
      }
      var hub := new H.IquaHub(input.value.username, input.value.password);
      var setup := hub.Setup(signin, listing);
      if setup.Err? {
        return ShowForm(HubStep, Some(HubStepError(setup.failure)));
      }
      hubData := Some(HubEntryData(input.value.username, input.value.password));
      return CreateEntry(HubTitle(input.value.username), hubData.value);
    }

    /** `async_step_device`: needs a hub entry (the first one) and its
        loaded hub; claims the lower-cased serial as unique id; then asks
        the hub for the device, which a hit in its cache or a successful
        fetch answers (the fetch's record is then cached). The hub turns
        every library error into "no device", so the form never shows a
        connection problem here. Only that hub's cache changes. */
    method StepDevice(input: Option<DeviceInput>, entries: seq<ConfigEntry>, registry: L.Registry, fetch: Result<Telemetry>)
      returns (r: FlowResult)
      modifies this, HubsOf(registry.data)
      ensures hubData == old(hubData)
      ensures FirstHubEntry(entries).None? <==> r == Abort(NoHub)
      ensures r == Abort(NoHub) ==> uniqueId == old(uniqueId)
      ensures FirstHubEntry(entries).Some? ==>
        (r == FlowCrashed <==> !HubLoaded(registry.data, FirstHubEntry(entries).value.entryId))
      ensures r == FlowCrashed ==> uniqueId == old(uniqueId)
      ensures FirstHubLoaded(entries, registry.data) && input.None? ==>
        r == ShowForm(DeviceStep, None) && uniqueId == old(uniqueId)
      ensures FirstHubLoaded(entries, registry.data) && input.Some? ==>
        && uniqueId == Some(FlowUniqueId(input.value.serial))
        && (r == Abort(AlreadyConfigured) <==> UniqueIdTaken(entries, FlowUniqueId(input.value.serial)))
      ensures Looks(input, entries, registry.data) ==>
        var hub := FirstHub(entries, registry.data);
        var serial := input.value.serial;
        && (Some(serial) in old(hub.devices) ==>
              r == CreateEntry(DeviceTitle(input.value.customName, serial), DeviceEntryData(serial, FirstHubEntry(entries).value.entryId))
              && hub.devices == old(hub.devices))
        && (Some(serial) !in old(hub.devices) && fetch.Ok? ==>
              r == CreateEntry(DeviceTitle(input.value.customName, serial), DeviceEntryData(serial, FirstHubEntry(entries).value.entryId))
              && hub.devices == old(hub.devices)[Some(serial) := H.VerifiedRecord(serial, fetch.value)])
        && (Some(serial) !in old(hub.devices) && fetch.Err? ==>
              r == ShowForm(DeviceStep, Some(if fetch.failure.Library? then DeviceNotFound else UnknownError))
              && hub.devices == old(hub.devices))
      ensures r.CreateEntry? ==>
        Looks(input, entries, registry.data)
        && (Some(input.value.serial) in old(FirstHub(entries, registry.data).devices) || fetch.Ok?)
      ensures forall h :: h in HubsOf(registry.data) && !(Looks(input, entries, registry.data) && h == FirstHub(entries, registry.data)) ==>
        h.devices == old(h.devices)
    {
      var hubEntry := FirstHubEntry(entries);
      if hubEntry.None? {
        return Abort(NoHub);
      }
      var id := hubEntry.value.entryId;
      if !HubLoaded(registry.data, id) {
        return FlowCrashed;
      }
      var hub := registry.data[id].hub;
      if input.None? {
        return ShowForm(DeviceStep, None);
      }
      var serial := input.value.serial;
      uniqueId := Some(FlowUniqueId(serial));
      if UniqueIdTaken(entries, FlowUniqueId(serial)) {
        return Abort(AlreadyConfigured);
      }
      var found := hub.GetDevice(serial, fetch);
      match found
      case Ok(Some(_)) =>
        return CreateEntry(DeviceTitle(input.value.customName, serial), DeviceEntryData(serial, id));
      case Ok(None) =>
        return ShowForm(DeviceStep, Some(DeviceNotFound));
      case Err(f) =>
        return ShowForm(DeviceStep, Some(DeviceStepError(f)));
    }

    /** `async_step_legacy`: claims the lower-cased serial as unique id,
        then fetches the device's data once with the given credentials;
        success creates a self-contained device entry. */
    method StepLegacy(input: Option<LegacyInput>, entries: seq<ConfigEntry>, fetch: Result<Telemetry>)
      returns (r: FlowResult)
      modifies this
      ensures hubData == old(hubData)
      ensures input.None? ==> r == ShowForm(LegacyStep, None) && uniqueId == old(uniqueId)
      ensures input.Some? ==> uniqueId == Some(FlowUniqueId(input.value.serial))
      ensures input.Some? ==> (r == Abort(AlreadyConfigured) <==> UniqueIdTaken(entries, FlowUniqueId(input.value.serial)))
      ensures input.Some? && !UniqueIdTaken(entries, FlowUniqueId(input.value.serial)) ==>
        && (fetch.Ok? ==> r == CreateEntry(LegacyTitle(input.value.serial),
                                           LegacyEntryData(input.value.username, input.value.password, input.value.serial)))
        && (fetch.Err? ==> r == ShowForm(LegacyStep, Some(LegacyStepError(fetch.failure))))
    {
      if input.None? {
        return ShowForm(LegacyStep, None);
      }
      var v := input.value;
      uniqueId := Some(FlowUniqueId(v.serial));
      if UniqueIdTaken(entries, FlowUniqueId(v.serial)) {
        return Abort(AlreadyConfigured);
      }
      match fetch
      case Ok(_) =>
        return CreateEntry(LegacyTitle(v.serial), LegacyEntryData(v.username, v.password, v.serial));
      case Err(f) =>
        return ShowForm(LegacyStep, Some(LegacyStepError(f)));
    }
  }
}
