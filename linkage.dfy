/** Entry set-up and tear-down (`__init__.py`): the integration's slice of
    the host's shared data, a map from config-entry id to a hub record or a
    device record, with hubs tracking their devices and devices naming their
    hub. */
module Linkage {
  import opened Base
  import opened Entries
  import C = Coordinator
  import H = Hub

  /** `hass.data[DOMAIN][entry_id]`: a hub's `{"hub", "devices", "unsub"}`
      or a device's `{"coordinator", "device_id", "hub_id", "unsub"}`. The
      `unsub` callbacks are recorded in the registry's log when called. */
  datatype Record =
    | HubRecord(hub: H.IquaHub, devices: map<EntryId, C.DataCoordinator>)
    | DeviceRecord(coordinator: C.DataCoordinator, deviceId: string, hubId: Option<string>)

  /** One auto-provisioning request: the data of the device flow it starts. */
  datatype ProvisionRequest = ProvisionRequest(hubId: EntryId, serial: Option<string>, info: H.DeviceInfo)

  /** How `async_setup_entry` ends: set up (with the provisioning requests a
      hub emitted), `ConfigEntryNotReady`, or an exception it does not
      catch (a missing configuration key). */
  datatype SetupOutcome = Loaded(requests: seq<ProvisionRequest>) | NotReady | SetupCrashed(reason: string)

  /** The hub a device record links to, by Python's truthiness of `hub_id`. */
  function LinkOf(r: Record): Option<EntryId> {
    if r.DeviceRecord? then HubLink(r.hubId) else None
  }

  /** Hub-to-device links are mirrored: a device in a hub's `devices`
      map is a device record naming that hub, and the hub holds the
      device's own coordinator. */
  ghost predicate HubsTrackDevices(data: map<EntryId, Record>) {
    forall h, d {:trigger data[h].devices[d]} :: h in data && data[h].HubRecord? && d in data[h].devices ==>
      && d in data && data[d].DeviceRecord?
      && LinkOf(data[d]) == Some(h)
      && data[h].devices[d] == data[d].coordinator
  }

  /** A device's hub, when registered, is a hub record. */
  ghost predicate DevicesNameHubs(data: map<EntryId, Record>) {
    forall d :: d in data && LinkOf(data[d]).Some? && LinkOf(data[d]).value in data ==>
      data[LinkOf(data[d]).value].HubRecord?
  }

  ghost predicate WellLinked(data: map<EntryId, Record>) {
    HubsTrackDevices(data) && DevicesNameHubs(data)
  }

  /** `id` sits in some hub's `devices` map (it is a loaded hub-linked device). */
  ghost predicate IsLinked(data: map<EntryId, Record>, id: EntryId) {
    exists h :: h in data && data[h].HubRecord? && id in data[h].devices
  }

  /** Some device record names `id` as its hub. */
  ghost predicate NamedAsHub(data: map<EntryId, Record>, id: EntryId) {
    exists d :: d in data && LinkOf(data[d]) == Some(id)
  }

  /** Whether some existing entry's data has exactly this serial:
      `e.data.get(CONF_DEVICE_SERIAL_NUMBER) == device_serial` (an entry
      without a serial compares equal to a missing serial). */
  predicate Configured(entries: seq<ConfigEntry>, serial: Option<string>) {
    exists i :: 0 <= i < |entries| && entries[i].data.serial == serial
  }

  function Serials(requests: seq<ProvisionRequest>): set<Option<string>> {
    set q | q in requests :: q.serial
  }

  /** The auto-provisioning loop of `async_setup_hub`: one request per
      cached serial that no existing entry has exactly, each carrying the
      hub's entry id, and no serial requested twice. (The cache is a map, so
      the order of the requests is not modelled.) */
  method ProvisionRequests(hubId: EntryId, devices: map<Option<string>, H.DeviceInfo>, entries: seq<ConfigEntry>)
    returns (requests: seq<ProvisionRequest>)
    ensures forall q :: q in requests ==>
      q.hubId == hubId && q.serial in devices && q.info == devices[q.serial] && !Configured(entries, q.serial)
    ensures forall k :: k in devices && !Configured(entries, k) ==> k in Serials(requests)
    ensures forall i, j :: 0 <= i < j < |requests| ==> requests[i].serial != requests[j].serial
  {
    requests := [];
    var pending := devices.Keys;
    while pending != {}
      invariant pending <= devices.Keys
      invariant forall q :: q in requests ==>
        q.hubId == hubId && q.serial in devices && q.serial !in pending && q.info == devices[q.serial] && !Configured(entries, q.serial)
      invariant forall k :: k in devices && k !in pending && !Configured(entries, k) ==> k in Serials(requests)
      invariant forall i, j :: 0 <= i < j < |requests| ==> requests[i].serial != requests[j].serial
      decreases pending
    {
      var k :| k in pending;
      if !Configured(entries, k) {
        requests := requests + [ProvisionRequest(hubId, k, devices[k])];
      }
      pending := pending - {k};
    }
  }

  /** The credentials a device coordinator is built with: the registered
      hub's when the device's `hub_id` names one, else the entry's own. */
  function DeviceSoftener(data: map<EntryId, Record>, config: EntryConfig): Option<Softener> {
    var link := HubLink(config.hubId);
    if link.Some? && link.value in data && data[link.value].HubRecord? then
      if config.serial.None? then None
      else Some(data[link.value].hub.SoftenerFor(config.serial.value))
    else if config.username.None? || config.password.None? || config.serial.None? then None
    else Some(Softener(config.username.value, config.password.value, config.serial.value))
  }

  /** The effect of unloading device entry `id` on the registry: detach it
      from its hub's `devices` map (always) and drop its record (only when
      the platforms unloaded). */
  function DeviceUnloaded(data: map<EntryId, Record>, id: EntryId, unloadOk: bool): map<EntryId, Record>
    requires id in data
  {
    var link := LinkOf(data[id]);
    var detached :=
      if link.Some? && link.value in data && data[link.value].HubRecord? then
        data[link.value := data[link.value].(devices := data[link.value].devices - {id})]
      else data;
    if unloadOk then detached - {id} else detached
  }

  /** The effect of storing device record `rec` under `id`: the record,
      and its coordinator in the `devices` map of the hub it names, when
      that hub is registered. */
  function DeviceAdded(data: map<EntryId, Record>, id: EntryId, rec: Record): map<EntryId, Record>
    requires rec.DeviceRecord?
    requires LinkOf(rec).Some? && LinkOf(rec).value in data ==> data[LinkOf(rec).value].HubRecord?
    requires LinkOf(rec) != Some(id)
  {
    var link := LinkOf(rec);
    var stored := data[id := rec];
    if link.Some? && link.value in data then
      stored[link.value := data[link.value].(devices := data[link.value].devices[id := rec.coordinator])]
    else stored
  }

  /** Adding a device that no hub lists and no device names as its hub
      keeps the links consistent, and links it when its hub is registered. */
  lemma DeviceAddedSpec(data: map<EntryId, Record>, id: EntryId, rec: Record)
    requires WellLinked(data) && !IsLinked(data, id) && !NamedAsHub(data, id)
    requires rec.DeviceRecord? && LinkOf(rec) != Some(id)
    requires LinkOf(rec).Some? && LinkOf(rec).value in data ==> data[LinkOf(rec).value].HubRecord?
    ensures var r := DeviceAdded(data, id, rec);
      && WellLinked(r)
      && r.Keys == data.Keys + {id}
      && (LinkOf(rec).Some? && LinkOf(rec).value in data <==> IsLinked(r, id))
  {
    var r := DeviceAdded(data, id, rec);
    var link := LinkOf(rec);
    forall h, d | h in r && r[h].HubRecord? && d in r[h].devices
      ensures d in r && r[d].DeviceRecord? && LinkOf(r[d]) == Some(h) && r[h].devices[d] == r[d].coordinator
    {
      if d != id {
        assert h in data && data[h].HubRecord? && d in data[h].devices;
        assert data[h].devices[d] == data[d].coordinator;
      }
    }
    if link.Some? && link.value in data {
      assert id in r[link.value].devices;
    } else {
      forall h | h in r && r[h].HubRecord? ensures id !in r[h].devices {
        if h != id {
          assert r[h] == data[h];
        }
      }
    }
  }

  /** Unloading a device keeps the links consistent; afterwards no hub
      lists it, its record is gone exactly when the unload succeeded, and
      every other record is as it was apart from its hub's `devices` map. */
  lemma DeviceUnloadedSpec(data: map<EntryId, Record>, id: EntryId, unloadOk: bool)
    requires id in data && WellLinked(data)
    ensures var r := DeviceUnloaded(data, id, unloadOk);
      && WellLinked(r)
      && (id in r <==> !unloadOk)
      && (!unloadOk ==> r[id] == data[id])
      && (forall h :: h in r && r[h].HubRecord? ==> id !in r[h].devices)
      && (forall k :: k in data && k != id && LinkOf(data[id]) != Some(k) ==> k in r && r[k] == data[k])
      && r.Keys <= data.Keys
      && (var link := LinkOf(data[id]);
          link.Some? && link.value in data ==>
            link.value in r && r[link.value] == data[link.value].(devices := data[link.value].devices - {id}))
  {
    var r := DeviceUnloaded(data, id, unloadOk);
    forall h | h in r && r[h].HubRecord? ensures id !in r[h].devices {
      if h in data && data[h].HubRecord? && id in data[h].devices {
        assert LinkOf(data[id]) == Some(h);
      }
    }
  }

  /** The end state of a hub's unload cascade: `order` unloads each device
      the hub listed exactly once; a listed device is gone exactly when its
      platforms unloaded and otherwise unchanged; the hub is gone; every
      other record is untouched. */
  ghost predicate Cascaded(before: map<EntryId, Record>, after: map<EntryId, Record>, id: EntryId,
                           order: seq<EntryId>, platformsUnloaded: EntryId -> bool)
    requires id in before
  {
    var snapshot := if before[id].HubRecord? then before[id].devices.Keys else {};
    && (forall d :: d in order <==> d in snapshot)
    && (forall i, j :: 0 <= i < j < |order| ==> order[i] != order[j])
    && id !in after
    && after.Keys <= before.Keys
    && (forall d :: d in snapshot ==> (d in after <==> !platformsUnloaded(d)))
    && (forall d :: d in snapshot && d in after ==> after[d] == before[d])
    && (forall k :: k in before && k != id && k !in snapshot ==> k in after && after[k] == before[k])
  }

  /** The cascade part-way: the devices in `order` are done, `pending` are not. */
  ghost predicate Progress(before: map<EntryId, Record>, now: map<EntryId, Record>, id: EntryId,
                           snapshot: set<EntryId>, pending: set<EntryId>, order: seq<EntryId>,
                           platformsUnloaded: EntryId -> bool)
  {
    && (forall d :: d in order <==> d in snapshot - pending)
    && (forall i, j :: 0 <= i < j < |order| ==> order[i] != order[j])
    && now.Keys <= before.Keys
    && (forall d :: d in order ==> (d in now <==> !platformsUnloaded(d)))
    && (forall d :: d in snapshot && d in now ==> now[d] == before[d])
    && (forall k :: k in before && k != id && k !in snapshot ==> k in now && now[k] == before[k])
  }

  lemma ProgressStep(before: map<EntryId, Record>, now: map<EntryId, Record>, next: map<EntryId, Record>,
                     id: EntryId, snapshot: set<EntryId>, pending: set<EntryId>, order: seq<EntryId>,
                     d: EntryId, platformsUnloaded: EntryId -> bool)
    requires Progress(before, now, id, snapshot, pending, order, platformsUnloaded)
    requires pending <= snapshot && id !in snapshot && d in pending && d in now && WellLinked(now)
    requires LinkOf(now[d]) == Some(id)
    requires next == DeviceUnloaded(now, d, platformsUnloaded(d))
    ensures Progress(before, next, id, snapshot, pending - {d}, order + [d], platformsUnloaded)
  {
    DeviceUnloadedSpec(now, d, platformsUnloaded(d));
    var o := order + [d];
    assert d !in order;
    forall i, j | 0 <= i < j < |o| ensures o[i] != o[j] {
      if j < |order| {
        assert o[i] == order[i] && o[j] == order[j];
      } else {
        assert o[i] == order[i] && order[i] in order;
      }
    }
    forall x ensures x in o <==> x in snapshot - (pending - {d}) {
      assert x in o <==> x in order || x == d;
    }
  }

  /** The unload cascade's loop invariant. */
  ghost predicate CascadeInv(before: map<EntryId, Record>, now: map<EntryId, Record>, id: EntryId,
                             snapshot: set<EntryId>, pending: set<EntryId>, order: seq<EntryId>,
                             platformsUnloaded: EntryId -> bool)
  {
    && WellLinked(now)
    && id in before && id in now
    && snapshot == (if before[id].HubRecord? then before[id].devices.Keys else {})
    && pending <= snapshot && id !in snapshot
    && now[id].HubRecord? == before[id].HubRecord?
    && (now[id].HubRecord? ==> now[id].devices.Keys == pending)
    && Progress(before, now, id, snapshot, pending, order, platformsUnloaded)
  }

  /** Before any device is unloaded the cascade's invariant holds. */
  lemma CascadeStart(data: map<EntryId, Record>, id: EntryId, snapshot: set<EntryId>, platformsUnloaded: EntryId -> bool)
    requires WellLinked(data) && id in data
    requires snapshot == (if data[id].HubRecord? then data[id].devices.Keys else {})
    ensures CascadeInv(data, data, id, snapshot, snapshot, [], platformsUnloaded)
  {
    if data[id].HubRecord? {
      ListedAreDevices(data, id);
    }
  }

  /** Unloading one pending device advances the cascade. */
  lemma CascadeStep(before: map<EntryId, Record>, now: map<EntryId, Record>, next: map<EntryId, Record>,
                    id: EntryId, snapshot: set<EntryId>, pending: set<EntryId>, order: seq<EntryId>,
                    d: EntryId, platformsUnloaded: EntryId -> bool)
    requires CascadeInv(before, now, id, snapshot, pending, order, platformsUnloaded)
    requires d in pending && d in now
    requires next == DeviceUnloaded(now, d, platformsUnloaded(d))
    ensures CascadeInv(before, next, id, snapshot, pending - {d}, order + [d], platformsUnloaded)
  {
    assert now[id].HubRecord? && d in now[id].devices;
    assert LinkOf(now[d]) == Some(id);
    DeviceUnloadedSpec(now, d, platformsUnloaded(d));
    ProgressStep(before, now, next, id, snapshot, pending, order, d, platformsUnloaded);
  }

  /** Dropping the hub record once its devices are unloaded completes the
      cascade, and keeps the links consistent unless the record dropped was
      a device some hub still lists. */
  lemma HubDropped(before: map<EntryId, Record>, now: map<EntryId, Record>, id: EntryId,
                   snapshot: set<EntryId>, order: seq<EntryId>, platformsUnloaded: EntryId -> bool)
    requires CascadeInv(before, now, id, snapshot, {}, order, platformsUnloaded)
    ensures Cascaded(before, now - {id}, id, order, platformsUnloaded)
    ensures before[id].HubRecord? || !IsLinked(before, id) ==> WellLinked(now - {id})
  {
    if before[id].HubRecord? || !IsLinked(before, id) {
      if now[id].HubRecord? {
        forall h | h in now && now[h].HubRecord? ensures id !in now[h].devices {
          ListedAreDevices(now, h);
        }
      } else {
        forall h | h in now && now[h].HubRecord? ensures id !in now[h].devices {
          assert now[h] == before[h];
        }
      }
      DropUnlisted(now, id);
    }
  }

  lemma ListedAreDevices(data: map<EntryId, Record>, h: EntryId)
    requires HubsTrackDevices(data) && h in data && data[h].HubRecord?
    ensures forall d :: d in data[h].devices ==> d in data && data[d].DeviceRecord?
  {
    forall d | d in data[h].devices ensures d in data && data[d].DeviceRecord? {
      assert data[h].devices[d] == data[d].coordinator;
    }
  }

  /** Dropping a record no hub lists keeps the links consistent. */
  lemma DropUnlisted(data: map<EntryId, Record>, id: EntryId)
    requires WellLinked(data) && !IsLinked(data, id)
    ensures WellLinked(data - {id})
  {
  }

  class Registry {
    var data: map<EntryId, Record>
    /** The entries whose `unsub` was called, in call order. */
    var listenerRemovals: seq<EntryId>

    ghost predicate Valid()
      reads this
    {
      WellLinked(data)
    }

    constructor ()
      ensures Valid() && data == map[] && listenerRemovals == []
    {
      data := map[];
      listenerRemovals := [];
    }

    /** `async_setup_hub`: sign in and list devices on a fresh hub; on
        failure raise `ConfigEntryNotReady` and store nothing; on success
        store a hub record with no devices and emit provisioning requests.
        The host only sets up an entry that is not loaded, so `entry` is no
        hub's linked device. */
    method SetupHub(entry: ConfigEntry, config: EntryConfig,
                    signin: H.Transport<H.SigninBody>, listing: H.Transport<H.ListingBody>, entries: seq<ConfigEntry>)
      returns (r: SetupOutcome)
      requires Valid() && !IsLinked(data, entry.entryId)
      modifies this
      ensures Valid()
      ensures listenerRemovals == old(listenerRemovals)
      ensures config.username.None? || config.password.None? ==> r.SetupCrashed? && data == old(data)
      ensures config.username.Some? && config.password.Some? ==>
        (r.Loaded? <==> H.ListingResult(signin, listing).Ok?) && (r.NotReady? <==> H.ListingResult(signin, listing).Err?)
      ensures !r.Loaded? ==> data == old(data)
      ensures r.Loaded? ==>
        && entry.entryId in data
        && data == old(data)[entry.entryId := data[entry.entryId]]
        && data[entry.entryId].HubRecord?
        && data[entry.entryId].devices == map[]
        && fresh(data[entry.entryId].hub)
        && data[entry.entryId].hub.username == config.username.value
        && data[entry.entryId].hub.password == config.password.value
        && data[entry.entryId].hub.devices == H.MergeDevices(map[], H.ListingResult(signin, listing).value)
      ensures r.Loaded? ==>
        && (forall q :: q in r.requests ==>
              q.hubId == entry.entryId && q.serial in data[entry.entryId].hub.devices && !Configured(entries, q.serial))
        && (forall k :: k in data[entry.entryId].hub.devices && !Configured(entries, k) ==> k in Serials(r.requests))
        && (forall i, j :: 0 <= i < j < |r.requests| ==> r.requests[i].serial != r.requests[j].serial)
    {
      if config.username.None? || config.password.None? {
        return SetupCrashed("username or password missing");
      }
      var hub := new H.IquaHub(config.username.value, config.password.value);
      var ok := hub.Setup(signin, listing);
      if ok.Err? {
        return NotReady;
      }
      data := data[entry.entryId := HubRecord(hub, map[])];
      var requests := ProvisionRequests(entry.entryId, hub.devices, entries);
      return Loaded(requests);
    }

    /** `async_setup_device`: pick the credentials, run the first refresh as
        the activation gate (nothing is stored when it fails), then store the
        device record and, when its hub is registered, enter the coordinator
        in the hub's `devices` map. The host only sets up an entry that is
        not loaded, never makes a hub entry into a device entry, and a device
        never names itself as its hub. */
    method SetupDevice(entry: ConfigEntry, config: EntryConfig, fetches: seq<Result<Telemetry>>, deviceId: string)
      returns (r: SetupOutcome)
      requires Valid() && !IsLinked(data, entry.entryId) && !NamedAsHub(data, entry.entryId)
      requires HubLink(config.hubId) != Some(entry.entryId)
      requires C.Retries <= |fetches|
      modifies this
      ensures Valid()
      ensures listenerRemovals == old(listenerRemovals)
      ensures !r.Loaded? ==> data == old(data)
      ensures r.SetupCrashed? <==>
        (var link := HubLink(config.hubId); link.Some? && link.value in old(data) && old(data)[link.value].DeviceRecord?)
        || DeviceSoftener(old(data), config).None?
      ensures !r.SetupCrashed? ==> (r.Loaded? <==> C.RunCycle(fetches).end.Fetched?)
      ensures r.Loaded? ==> r.requests == []
      ensures r.Loaded? ==>
        && entry.entryId in data && data[entry.entryId].DeviceRecord?
        && var rec := data[entry.entryId];
        && fresh(rec.coordinator)
        && Some(rec.coordinator.softener) == DeviceSoftener(old(data), config)
        && rec.coordinator.data == Some(C.RunCycle(fetches).end.data)
        && rec.deviceId == deviceId
        && rec.hubId == config.hubId
        && data == DeviceAdded(old(data), entry.entryId, rec)
    {
      var link := HubLink(config.hubId);
      var softener: Softener;
      if link.Some? && link.value in data {
        if data[link.value].DeviceRecord? {
          return SetupCrashed("linked entry has no hub");
        }
        if config.serial.None? {
          return SetupCrashed("serial missing");
        }
        softener := data[link.value].hub.SoftenerFor(config.serial.value);
      } else {
        if config.username.None? || config.password.None? || config.serial.None? {
          return SetupCrashed("credentials missing");
        }
        softener := Softener(config.username.value, config.password.value, config.serial.value);
      }
      var coordinator := new C.DataCoordinator(softener);
      var cycle := coordinator.Refresh(fetches);
      if !cycle.end.Fetched? {
        return NotReady;
      }
      var rec := DeviceRecord(coordinator, deviceId, config.hubId);
      DeviceAddedSpec(data, entry.entryId, rec);
      data := data[entry.entryId := rec];
      if link.Some? && link.value in data {
        data := data[link.value := data[link.value].(devices := data[link.value].devices[entry.entryId := coordinator])];
      }
      return Loaded([]);
    }

    /** `async_setup_entry`: merge options over data and dispatch on `is_hub`. */
    method SetupEntry(entry: ConfigEntry, signin: H.Transport<H.SigninBody>, listing: H.Transport<H.ListingBody>,
                      entries: seq<ConfigEntry>, fetches: seq<Result<Telemetry>>, deviceId: string)
      returns (r: SetupOutcome)
      requires Valid() && !IsLinked(data, entry.entryId)
      requires !IsHub(Merge(entry.data, entry.options)) ==>
        !NamedAsHub(data, entry.entryId) && HubLink(Merge(entry.data, entry.options).hubId) != Some(entry.entryId)
      requires C.Retries <= |fetches|
      modifies this
      ensures Valid()
      ensures listenerRemovals == old(listenerRemovals)
      ensures !r.Loaded? ==> data == old(data)
      ensures r.Loaded? ==> entry.entryId in data
      ensures r.Loaded? ==> (data[entry.entryId].HubRecord? <==> IsHub(Merge(entry.data, entry.options)))
      ensures var config := Merge(entry.data, entry.options);
        IsHub(config) ==>
          && (config.username.None? || config.password.None? ==> r.SetupCrashed?)
          && (config.username.Some? && config.password.Some? ==>
                (r.Loaded? <==> H.ListingResult(signin, listing).Ok?) && (r.NotReady? <==> H.ListingResult(signin, listing).Err?))
          && (r.Loaded? ==>
                && data == old(data)[entry.entryId := data[entry.entryId]]
                && data[entry.entryId].devices == map[]
                && fresh(data[entry.entryId].hub)
                && data[entry.entryId].hub.username == config.username.value
                && data[entry.entryId].hub.password == config.password.value
                && data[entry.entryId].hub.devices == H.MergeDevices(map[], H.ListingResult(signin, listing).value)
                && (forall q :: q in r.requests ==>
                      q.hubId == entry.entryId && q.serial in data[entry.entryId].hub.devices && !Configured(entries, q.serial))
                && (forall k :: k in data[entry.entryId].hub.devices && !Configured(entries, k) ==> k in Serials(r.requests)))
      ensures var config := Merge(entry.data, entry.options);
        !IsHub(config) ==>
          && (r.SetupCrashed? <==>
                (var link := HubLink(config.hubId); link.Some? && link.value in old(data) && old(data)[link.value].DeviceRecord?)
                || DeviceSoftener(old(data), config).None?)
          && (!r.SetupCrashed? ==> (r.Loaded? <==> C.RunCycle(fetches).end.Fetched?))
          && (r.Loaded? ==>
                && r.requests == []
                && var rec := data[entry.entryId];
                && fresh(rec.coordinator)
                && Some(rec.coordinator.softener) == DeviceSoftener(old(data), config)
                && rec.coordinator.data == Some(C.RunCycle(fetches).end.data)
                && rec.deviceId == deviceId
                && rec.hubId == config.hubId
                && data == DeviceAdded(old(data), entry.entryId, rec))
    {
      var config := Merge(entry.data, entry.options);
      if IsHub(config) {
        r := SetupHub(entry, config, signin, listing, entries);
      } else {
        r := SetupDevice(entry, config, fetches, deviceId);
      }
    }

    /** The device branch of `async_unload_entry`: call `unsub`, detach from
        the hub whatever the platforms answered, drop the record only when
        they unloaded, and answer as they did. */
    method UnloadDevice(id: EntryId, unloadOk: bool) returns (ok: bool)
      requires Valid()
      modifies this
      ensures Valid()
      ensures ok == unloadOk
      ensures id in old(data) ==> data == DeviceUnloaded(old(data), id, unloadOk) && listenerRemovals == old(listenerRemovals) + [id]
      ensures id !in old(data) ==> data == old(data) && listenerRemovals == old(listenerRemovals)
    {
      ok := unloadOk;
      if id in data {
        listenerRemovals := listenerRemovals + [id];
        var link := LinkOf(data[id]);
        if link.Some? && link.value in data {
          data := data[link.value := data[link.value].(devices := data[link.value].devices - {id})];
        }
        if unloadOk {
          data := data - {id};
        }
        DeviceUnloadedSpec(old(data), id, unloadOk);
      }
    }

    /** The hub branch of `async_unload_entry`: unload every device listed at
        the start (a snapshot, since each unload detaches itself), then call
        the hub's `unsub` and drop its record; always answers true. */
    method UnloadHub(id: EntryId, platformsUnloaded: EntryId -> bool) returns (ok: bool, ghost order: seq<EntryId>)
      requires Valid()
      modifies this
      ensures ok && id !in data
      ensures old(id !in data || data[id].HubRecord? || !IsLinked(data, id)) ==> Valid()
      ensures id !in old(data) ==> data == old(data) && listenerRemovals == old(listenerRemovals) && order == []
      ensures id in old(data) ==> listenerRemovals == old(listenerRemovals) + order + [id]
      ensures id in old(data) ==> Cascaded(old(data), data, id, order, platformsUnloaded)
    {
      ok := true;
      order := [];
      if id !in data {
        return;
      }
      var snapshot := if data[id].HubRecord? then data[id].devices.Keys else {};
      var pending := snapshot;
      ghost var log0 := listenerRemovals;
      CascadeStart(data, id, snapshot, platformsUnloaded);
      while pending != {}
        invariant CascadeInv(old(data), data, id, snapshot, pending, order, platformsUnloaded)
        invariant listenerRemovals == log0 + order
        decreases pending
      {
        var d :| d in pending;
        assert (log0 + order) + [d] == log0 + (order + [d]);
        ListedAreDevices(data, id);
        ghost var before := data;
        var _ := UnloadDevice(d, platformsUnloaded(d));
        CascadeStep(old(data), before, data, id, snapshot, pending, order, d, platformsUnloaded);
        order := order + [d];
        pending := pending - {d};
      }
      listenerRemovals := listenerRemovals + [id];
      HubDropped(old(data), data, id, snapshot, order, platformsUnloaded);
      data := data - {id};
    }

    /** `async_unload_entry`: the data's `is_hub` (not the options') picks
        the branch; `platformsUnloaded` answers `async_unload_platforms` per
        entry. */
    method UnloadEntry(entry: ConfigEntry, platformsUnloaded: EntryId -> bool) returns (ok: bool, ghost order: seq<EntryId>)
      requires Valid()
      modifies this
      ensures old(entry.entryId !in data || data[entry.entryId].HubRecord? || !IsLinked(data, entry.entryId)) ==> Valid()
      ensures IsHub(entry.data) ==> ok && entry.entryId !in data
      ensures IsHub(entry.data) && entry.entryId !in old(data) ==>
        data == old(data) && listenerRemovals == old(listenerRemovals) && order == []
      ensures IsHub(entry.data) && entry.entryId in old(data) ==>
        && listenerRemovals == old(listenerRemovals) + order + [entry.entryId]
        && Cascaded(old(data), data, entry.entryId, order, platformsUnloaded)
      ensures !IsHub(entry.data) ==> ok == platformsUnloaded(entry.entryId) && order == []
      ensures !IsHub(entry.data) && entry.entryId in old(data) ==>
        && data == DeviceUnloaded(old(data), entry.entryId, platformsUnloaded(entry.entryId))
        && listenerRemovals == old(listenerRemovals) + [entry.entryId]
      ensures !IsHub(entry.data) && entry.entryId !in old(data) ==>
        data == old(data) && listenerRemovals == old(listenerRemovals)
    {
      order := [];
      if IsHub(entry.data) {
        ok, order := UnloadHub(entry.entryId, platformsUnloaded);
      } else {
        ok := UnloadDevice(entry.entryId, platformsUnloaded(entry.entryId));
      }
    }
  }
}
