# iQua water softener integration — a verified model

This project models, in Dafny, the core of the Home Assistant integration for
EcoWater/iQua water softeners (`custom_components/iqua_softener`). It covers
the per-device polling coordinator and its retry policy, the account hub
with its device cache and sign-in/listing checks, the registry of loaded
config entries (hub and device set-up, linkage and tear-down), the
configuration flow's error classification, unique ids and titles, and the
sensor platform's presentation rules.

Modules: one per source file, except that `__init__.py` has two (`Entries` and `Linkage`), plus two shared ones:

- `Base` (`base.dfy`): optional values, the two kinds of exception the
  integration sees (the vendor library's `IquaSoftenerException` and any
  other exception), the telemetry snapshot and the per-device handle.
- `Text` (`text.dfy`): the Python string operations the code relies on —
  ASCII `str.lower`, substring `in`, the `[-6:]` suffix and the decimal
  printing of a status code — with the facts about them the proofs need.
- `Coordinator` (`coordinator.py`): `_async_update_data` as an imperative
  loop proved equal to a recursive specification of one refresh cycle, and
  the coordinator object with the data it publishes.
- `Hub` (`hub.py`): the sign-in and listing decision chains, record
  parsing, and the `IquaHub` class whose serial-keyed cache is merged by
  discovery, filled by `async_get_device` and evicted by removal.
- `Entries` (`__init__.py`, entry data): config-entry data and options,
  their merge, the `is_hub` dispatch and the truthiness of `hub_id`.
- `Linkage` (`__init__.py`): `hass.data[DOMAIN]` as a `Registry` class
  holding a map from entry id to hub or device record, with the invariant
  that hubs list only loaded devices that name them. A device set up before
  its hub is loaded is not entered in that hub's map, so unloading the hub
  does not unload it.
- `ConfigFlow` (`config_flow.py`): the three classifiers, the unique id,
  titles and entry data, and the flow handler's steps.
- `Sensor` (`sensor.py`): the nine entities, their updates, units, the
  salt-level icon, unique ids, availability and the platform set-up.

HTTP calls, the vendor library's `get_data` and the host framework are
replaced by their outcomes, passed in as parameters: a `Transport` value per
HTTP call, a `Result<Telemetry>` per fetch, and a sequence of fetch outcomes
for one refresh cycle.

Points where the code behaves differently from what its names, docstrings
or neighbouring code suggest; the model follows the code:

- Auto-provisioning skips a serial only when an existing entry's data has
  exactly that serial (`__init__.py:84-87`), while the flow's unique id is
  the lower-cased serial (`config_flow.py:144`).
  `ConfigFlow.ProvisioningIsCaseSensitive` shows that any two serials that
  differ in letter case only are treated differently by the two checks.
- `async_get_device` turns every library error, a 502 included, into
  "no device" (`hub.py:180-182`). The device step's own handler for library
  errors (`config_flow.py:164-171`) therefore never runs, and the contract
  of `ConfigFlow.ConfigFlowHandler.StepDevice` states that its form shows
  only "device not found" or "unknown".
- `async_setup` re-raises a failed listing (`hub.py:60-62`), so a failed
  device listing fails hub set-up (`__init__.py:59-65`) rather than leaving
  a hub with an empty cache.
- Hub set-up sends provisioning requests with the source
  "auto_discovery". The flow has no step for that source, so the requests
  are modelled as the data they carry.
- `async_unload_entry` reads `is_hub` from the entry's data only
  (`__init__.py:209-210`). Set-up reads it from data merged with options.

## Model

| member | source | states |
|---|---|---|
| Coordinator.CycleFromShape | custom_components/iqua_softener/coordinator.py:33-71 | from any attempt, the rest of the cycle makes at most the remaining fetches. Every fetch but the last was a retryable transient error. The last is not retryable and decides the end. The sleeps double from the current backoff. |
| Coordinator.RunCycleShape | custom_components/iqua_softener/coordinator.py:28-71 | a cycle makes 1 to 3 fetches. The earlier ones failed transiently on non-final attempts; the last decides the end. There is one sleep fewer than fetches, and the sleeps are 1, 2, ... seconds. |
| Coordinator.FirstSuccessReturned | custom_components/iqua_softener/coordinator.py:41-50 | the first successful fetch ends the cycle with its data, after exactly that many attempts |
| Coordinator.ThreeTransientFailures | custom_components/iqua_softener/coordinator.py:55-71 | three transient library errors give sleeps [1, 2], three attempts and `UpdateFailed` with the last message |
| Coordinator.NonTransientFailsAtOnce | custom_components/iqua_softener/coordinator.py:51-71 | a non-transient library error fails the cycle after one attempt without sleeping |
| Coordinator.UpdateData | custom_components/iqua_softener/coordinator.py:28-71 | the retry loop with its doubling backoff computes exactly the specified cycle and never falls through |
| Coordinator.DataCoordinator.constructor | custom_components/iqua_softener/coordinator.py:18-26 | a coordinator polls every five minutes for the given handle and starts without data |
| Coordinator.DataCoordinator.Refresh | custom_components/iqua_softener/coordinator.py:28-71 | a successful cycle publishes its data and marks success. A failed cycle keeps the last data and marks failure. |
| Hub.Authorization | custom_components/iqua_softener/hub.py:103 | the header is the token type, one space, then the token |
| Hub.SignInOutcomes | custom_components/iqua_softener/hub.py:70-100 | a token is issued iff the status is 200, the code is "OK" and both token fields are present. 401 and 502 give their own messages. Every other refusal is a library error. A missing token field is the only non-library failure. |
| Hub.ListingOutcomes | custom_components/iqua_softener/hub.py:104-126 | the listing is accepted iff the status is 200 and the code is "OK". It then yields its data list, empty when absent. Every rejection is a library error. |
| Hub.ParseDeviceDefaults | custom_components/iqua_softener/hub.py:127-134 | a record keeps the listed serial and fields, defaulting to 'Device' and 'Water Softener' |
| Hub.ParseDevices | custom_components/iqua_softener/hub.py:125-136 | one record per listed entry, in order |
| Hub.AuthenticateAndListDevices | custom_components/iqua_softener/hub.py:64-136 | a listing is returned iff sign-in and the listing check both pass. Otherwise the first failure is returned. The records are the parsed entries in order. |
| Hub.MergeDevicesSpec | custom_components/iqua_softener/hub.py:145-146 | merging gives the old serials plus the listed ones. Each listed serial holds the last record listed under it. Unlisted cached serials keep their records. |
| Hub.MergeKeys | custom_components/iqua_softener/hub.py:51-52 | the merged keys are the cached keys plus the listed serials |
| Hub.MergeLastWinsAt | custom_components/iqua_softener/hub.py:145-146 | a record with no later record under its serial is the one the cache keeps |
| Hub.MergeKeepsOthers | custom_components/iqua_softener/hub.py:145-146 | cached serials the listing does not mention are untouched |
| Hub.RediscoveryLaterWins | custom_components/iqua_softener/hub.py:144-146 | listing a serial twice leaves the later record, once |
| Hub.VerifiedRecord | custom_components/iqua_softener/hub.py:165-170 | the record built after a successful fetch is keyed by the requested serial, carries the fetched firmware and state, and the fetched model or else 'iQua Water Softener' |
| Hub.IquaHub.constructor | custom_components/iqua_softener/hub.py:20-25 | a hub holds its credentials and an empty cache |
| Hub.IquaHub.StoreDevices | custom_components/iqua_softener/hub.py:51-52 | storing a listing in order is the serial-keyed merge |
| Hub.IquaHub.Setup | custom_components/iqua_softener/hub.py:42-62 | set-up succeeds iff listing succeeds, merging the listing into the cache. A failure re-raises and leaves the cache unchanged. |
| Hub.IquaHub.DiscoverDevices | custom_components/iqua_softener/hub.py:138-148 | discovery returns the listing and merges it into the cache. On failure the cache is unchanged. |
| Hub.IquaHub.GetDevice | custom_components/iqua_softener/hub.py:150-182 | a cached serial is answered from the cache, unchanged. On a miss, a successful fetch caches and returns a record for that serial. Any library error gives none and leaves the cache alone. Other exceptions pass through. |
| Hub.IquaHub.SoftenerFor | custom_components/iqua_softener/hub.py:184-186 | the handle pairs the hub's own username and password with the serial |
| Hub.IquaHub.RemoveDevice | custom_components/iqua_softener/hub.py:188-192 | only that serial is evicted. An absent serial is a no-op. Every other record is unchanged. |
| Entries.Merge | custom_components/iqua_softener/__init__.py:31-33 | each option present overrides the data's value; each absent one keeps it |
| Entries.HubLink | custom_components/iqua_softener/__init__.py:127 | a device links to a hub iff its `hub_id` is present and non-empty |
| Entries.DispatchOnIsHub | custom_components/iqua_softener/__init__.py:36-41 | the options' `is_hub` overrides the data's, and a missing `is_hub` means a device |
| Linkage.ProvisionRequests | custom_components/iqua_softener/__init__.py:82-111 | one request per cached serial that no entry has exactly, each carrying the hub's id and that serial's record, with no serial twice |
| Linkage.DeviceAddedSpec | custom_components/iqua_softener/__init__.py:172-183 | storing a device record keeps hubs and devices mirrored. The device is listed by its hub iff that hub is registered. |
| Linkage.DeviceUnloadedSpec | custom_components/iqua_softener/__init__.py:233-245 | device unload keeps the links consistent. No hub lists the device afterwards. Its record is gone iff the platforms unloaded. Nothing else changes but its hub's device map. |
| Linkage.ProgressStep | custom_components/iqua_softener/__init__.py:218-219 | unloading one more snapshot device extends the cascade's progress |
| Linkage.CascadeStart | custom_components/iqua_softener/__init__.py:214-218 | before the first device unload the cascade invariant holds for the whole snapshot |
| Linkage.CascadeStep | custom_components/iqua_softener/__init__.py:218-219 | one device unload keeps the cascade invariant with that device done |
| Linkage.HubDropped | custom_components/iqua_softener/__init__.py:221-223 | popping the hub after its devices completes the cascade. The links stay consistent unless the popped record was a listed device. |
| Linkage.ListedAreDevices | custom_components/iqua_softener/__init__.py:182-183 | every id a hub lists is a loaded device record |
| Linkage.DropUnlisted | custom_components/iqua_softener/__init__.py:223 | popping a record no hub lists keeps the links consistent |
| Linkage.Registry.constructor | custom_components/iqua_softener/__init__.py:68 | the registry starts empty and consistent |
| Linkage.Registry.SetupHub | custom_components/iqua_softener/__init__.py:44-113 | missing credentials crash set-up. Set-up is loaded iff the listing succeeds, and otherwise not-ready with nothing stored. On success a fresh hub record with no devices is stored, and provisioning covers every unconfigured serial. |
| Linkage.Registry.SetupDevice | custom_components/iqua_softener/__init__.py:116-194 | the coordinator uses the registered hub's credentials, else the entry's own. A failed first refresh stores nothing. On success the record holds the coordinator with its data and `hub_id`, and the registered hub lists it. |
| Linkage.Registry.SetupEntry | custom_components/iqua_softener/__init__.py:25-41 | options are merged over data, and a hub record is stored iff the merged `is_hub` is true. A hub entry is loaded iff the listing succeeds and then holds a fresh hub with the listed devices and complete provisioning. A device entry crashes iff its link names a device or no credentials are found; otherwise it is loaded iff the first refresh fetched, and the record is added with its hub's listing. |
| Linkage.Registry.UnloadDevice | custom_components/iqua_softener/__init__.py:226-245 | `unsub` is called and the device detached whatever the answer. The record is popped only when the platforms unloaded, and that answer is returned. |
| Linkage.Registry.UnloadHub | custom_components/iqua_softener/__init__.py:212-225 | every device listed at the start is unloaded exactly once. Then `unsub` is called and the hub is popped, and true is returned. Records outside the snapshot are untouched. |
| Linkage.Registry.UnloadEntry | custom_components/iqua_softener/__init__.py:204-245 | the data's `is_hub` picks the branch. A hub unload returns true and cascades: each listed device unloaded once, `unsub` logged after them, the hub popped. A device unload returns the platforms' answer, detaches the device and pops it iff they unloaded, logging its `unsub`. An entry that is not loaded changes nothing. |
| ConfigFlow.HubStepError | custom_components/iqua_softener/config_flow.py:100-111 | a library message gives invalid_auth iff it has authentication wording; otherwise "502" gives server_unavailable, else cannot_connect. Only non-library exceptions are unknown. |
| ConfigFlow.LegacyStepError | custom_components/iqua_softener/config_flow.py:202-216 | only non-library exceptions are unknown |
| ConfigFlow.DeviceStepError | custom_components/iqua_softener/config_flow.py:164-174 | a library message gives device_not_found iff it has device or serial wording, else cannot_connect; any other exception is unknown |
| ConfigFlow.LegacyRefinesHub | custom_components/iqua_softener/config_flow.py:202-213 | the legacy step agrees with the hub step except that device or serial wording turns cannot_connect into device_not_found |
| ConfigFlow.NoAuthWording | custom_components/iqua_softener/config_flow.py:104 | a message lacking a letter common to both authentication phrases is not an authentication error |
| ConfigFlow.StatusMessage | custom_components/iqua_softener/hub.py:88-89 | an "HTTP n" message contains "502" iff the digits of n do, and never reads as an authentication error |
| ConfigFlow.PlainFailure | custom_components/iqua_softener/config_flow.py:104-109 | a message with neither authentication wording nor a '5' is cannot_connect |
| ConfigFlow.TimeoutIsConnectionProblem | custom_components/iqua_softener/hub.py:77-78 | a sign-in timeout shows cannot_connect |
| ConfigFlow.RefusedIsConnectionProblem | custom_components/iqua_softener/hub.py:79-80 | a refused connection shows cannot_connect |
| ConfigFlow.UndecodableIsConnectionProblem | custom_components/iqua_softener/hub.py:91-94 | an undecodable sign-in body shows cannot_connect |
| ConfigFlow.AuthMessageIsAuth | custom_components/iqua_softener/hub.py:84-85 | HTTP 401's message shows invalid_auth |
| ConfigFlow.UnavailableMessageIs502 | custom_components/iqua_softener/hub.py:86-87 | HTTP 502's message shows server_unavailable |
| ConfigFlow.UnavailableMessageHas502 | custom_components/iqua_softener/hub.py:86-87 | the lower-cased 502 message contains "502" |
| ConfigFlow.UnavailableMessageNotAuth | custom_components/iqua_softener/hub.py:86-87 | the 502 message does not contain "authentication error" |
| ConfigFlow.UnavailableMessageNotUser | custom_components/iqua_softener/hub.py:86-87 | the 502 message does not contain "invalid user" |
| ConfigFlow.SignInErrorKeys | custom_components/iqua_softener/config_flow.py:100-111 | by sign-in failure: 401 gives invalid_auth and 502 gives server_unavailable. A timeout, a refusal or an undecodable body gives cannot_connect. Another status gives server_unavailable iff its digits contain "502". A missing token gives unknown. |
| ConfigFlow.ListingErrorKeys | custom_components/iqua_softener/hub.py:113-114 | a listing refused with a status shows server_unavailable iff its digits contain "502", else cannot_connect |
| ConfigFlow.FlowUniqueId | custom_components/iqua_softener/config_flow.py:144 | the unique id has the serial's length, and each character is the serial's character lower-cased |
| ConfigFlow.UniqueIdIgnoresCase | custom_components/iqua_softener/config_flow.py:144-145 | two serials claim the same unique id iff they have the same length and agree character by character up to case |
| ConfigFlow.FirstHubEntry | custom_components/iqua_softener/config_flow.py:127-136 | none iff no entry's data is a hub; otherwise the first hub entry |
| ConfigFlow.DefaultTitlesShowSerialTail | custom_components/iqua_softener/config_flow.py:156 | default titles show the serial's last six characters, or all of it when shorter |
| ConfigFlow.ProvisioningIsCaseSensitive | custom_components/iqua_softener/__init__.py:84-87 | an entry made for serial s blocks a flow for any t that differs from s only in case, by unique id, yet provisioning does not treat t as configured |
| ConfigFlow.CaseVariantsExist | custom_components/iqua_softener/__init__.py:84-87 | such serials exist: "AB" and "ab" lower-case alike and differ |
| ConfigFlow.CreatedEntriesSetUpAsIntended | custom_components/iqua_softener/config_flow.py:155-162 | hub entries set up as hubs. Device entries set up as devices linked to their hub, with its credentials. Legacy entries use their own credentials. |
| ConfigFlow.ConfigFlowHandler.constructor | custom_components/iqua_softener/config_flow.py:54-56 | a flow starts with no hub data and no unique id |
| ConfigFlow.ConfigFlowHandler.StepUser | custom_components/iqua_softener/config_flow.py:58-67 | the menu offers the hub and legacy steps |
| ConfigFlow.ConfigFlowHandler.StepHub | custom_components/iqua_softener/config_flow.py:69-118 | an entry is created iff the sign-in and listing succeed, titled with the username and marked as a hub. Otherwise the form shows the classified error. No unique id is claimed. |
| ConfigFlow.ConfigFlowHandler.StepDevice | custom_components/iqua_softener/config_flow.py:120-180 | aborts with no_hub iff there is no hub entry, and crashes iff the first hub is not loaded. It claims the lower-cased serial and aborts iff that id is taken. A cached serial creates the linked entry. On a miss, a successful fetch creates it and caches the verified record; a failed fetch shows device_not_found for a library error, else unknown, and leaves the cache. An entry is created only through a hit or a successful fetch. No other hub's cache changes. |
| ConfigFlow.ConfigFlowHandler.StepLegacy | custom_components/iqua_softener/config_flow.py:182-233 | claims the lower-cased serial and aborts iff that id is taken. A successful fetch creates the self-contained entry; otherwise the form shows the legacy classification. |
| Sensor.VolumeValueMatchesUnit | custom_components/iqua_softener/sensor.py:237-289 | the unit is cubic metres iff the device counts litres, else gallons. The value times the unit's factor is the raw reading. |
| Sensor.FlowIsUnscaled | custom_components/iqua_softener/sensor.py:254-261 | the flow value is the raw flow, and its unit is L/min iff the device counts litres |
| Sensor.ApplyDependsOnDataOnly | custom_components/iqua_softener/sensor.py:191-289 | an update's value depends on the telemetry only and re-applying it changes nothing. Entities that write no unit keep theirs. |
| Sensor.ResetAtLastRegeneration | custom_components/iqua_softener/sensor.py:200-251 | the available-water counter's last reset falls on the day the last-regeneration entity shows: both count back days_since_last_regeneration days |
| Sensor.SaltIconCountsThresholds | custom_components/iqua_softener/sensor.py:221-234 | the icon shows as many bars as the thresholds 75/50/25/5 the level exceeds, monotonically, and "mdi:signal" without a value |
| Sensor.EntityUniqueId | custom_components/iqua_softener/sensor.py:140-142 | the unique id starts with the lower-cased serial followed by "_" |
| Sensor.EntityUniqueIdParts | custom_components/iqua_softener/sensor.py:140-142 | the unique id is exactly the lower-cased serial, "_" and the entity's key |
| Sensor.KeyIsLower | custom_components/iqua_softener/sensor.py:52-121 | every description key is already lower-case, so lower-casing the whole id leaves the key as it is |
| Sensor.KeysDistinct | custom_components/iqua_softener/sensor.py:52-121 | different entities have different keys |
| Sensor.UniqueIds | custom_components/iqua_softener/sensor.py:140-142 | the nine entities of a serial have distinct unique ids. Serials equal up to case share them. |
| Sensor.SoftenerSensor.constructor | custom_components/iqua_softener/sensor.py:133-163 | an entity applies the coordinator's data at once when it has any |
| Sensor.SoftenerSensor.HandleCoordinatorUpdate | custom_components/iqua_softener/sensor.py:165-179 | new data is applied. No data leaves every attribute unchanged. The state is written either way. |
| Sensor.SoftenerSensor.Icon | custom_components/iqua_softener/sensor.py:221-234 | the salt-level entity shows the bar icon of its current value; every other entity shows its description's |
| Sensor.AvailableAfterRefresh | custom_components/iqua_softener/sensor.py:181-184 | after a coordinator refresh an entity is available iff that cycle fetched data, whatever earlier data remains |
| Sensor.SetupPlatform | custom_components/iqua_softener/sensor.py:31-127 | a missing serial raises. Otherwise there are nine entities in description order on the coordinator, with pairwise distinct unique ids. |

`Sensor.SoftenerSensor.Available` (`sensor.py:181-184`) is a predicate
whose body is the availability rule: the last update succeeded and there is
data. `Sensor.AvailableAfterRefresh` ties it to `Coordinator.DataCoordinator.Refresh`.

## Left out

- HTTP transport, JSON decoding and the vendor library's `get_data`: each call is an outcome parameter.
- asyncio and executor scheduling: sleeps are recorded durations, and `async_create_task` is the list of provisioning requests.
- Host framework calls are not modelled: the device registry entry, forwarding to the sensor platform, `async_write_ha_state` (a counter) and `options_update_listener` with its reload. `unsub` is recorded in a log.
- Floating point: telemetry quantities are integers and sensor values are reals, so the division by 1000 is exact.
- The clock: `datetime.now()` with `timedelta` and `replace` becomes a day offset from today's midnight, and `strftime` a pre-formatted string.
- Logging, `ConfigEntryNotReady` message texts, and the `VERSION` of the flow.
- JSON values other than strings in a listing entry. A listed `data` that is not a list is also left out.
- The order of provisioning requests: Python iterates a dict in insertion order; the model promises coverage and no duplicates, not order.
- `diagnostics.py`, `const.py` and the debug and test scripts are not part of this model.
- Linkage.Registry.UnloadHub: the links are promised to stay consistent unless the entry unloaded is a device some hub lists. Such an entry has a true `is_hub` in its data and an options override to false, and popping it leaves a dangling link, as the code does.
- Linkage.Registry.UnloadEntry: consistency is promised under the same condition as UnloadHub.
- Linkage.Registry.SetupDevice: requires that the entry is not already loaded and that no device names it as a hub. The host never sets up a loaded entry. With those requirements dropped, the code's overwrite of the record could break the links.
- Linkage.Registry.UnloadHub: each listed device is unloaded through the device branch. The code re-enters `async_unload_entry` for it (`__init__.py:218-219`), which dispatches on that entry's own data `is_hub`; a listed device whose data says hub (overridden to device by its options) would take the hub branch there: `unsub`, an unconditional pop and no platform unload. The model does not take that path for listed devices.
- Text.Lower, ConfigFlow.FlowUniqueId and Sensor.EntityUniqueId: lower-casing is ASCII only. Python's `str.lower` also folds non-ASCII letters; serials and keys are taken to be ASCII.
- Hub.VerifiedRecord: the telemetry always carries a state, so the 'Unknown' fallback for a missing `state` attribute (`hub.py:169`) is not modelled.
