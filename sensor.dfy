/** The sensor platform (`sensor.py`): nine entities per device, each a
    view of the device coordinator's latest telemetry. */
module Sensor {
  import opened Base
  import opened Text
  import C = Coordinator

  /** The nine entity descriptions, in the order they are created. */
  datatype SensorKind =
    | State | DateTime | LastRegeneration | OutOfSaltEstimatedDay | SaltLevel
    | AvailableWater | WaterCurrentFlow | WaterUsageToday | WaterUsageDailyAverage

  const AllKinds: seq<SensorKind> := [State, DateTime, LastRegeneration, OutOfSaltEstimatedDay, SaltLevel,
                                      AvailableWater, WaterCurrentFlow, WaterUsageToday, WaterUsageDailyAverage]

  /** The description key of each entity. */
  function Key(k: SensorKind): string {
    match k
    case State => "state"
    case DateTime => "date_time"
    case LastRegeneration => "last_regeneration"
    case OutOfSaltEstimatedDay => "out_of_salt_estimated_day"
    case SaltLevel => "salt_level"
    case AvailableWater => "available_water"
    case WaterCurrentFlow => "water_current_flow"
    case WaterUsageToday => "water_usage_today"
    case WaterUsageDailyAverage => "water_usage_daily_average"
  }

  /** The entities whose value is a volume shown in cubic metres or gallons. */
  predicate IsVolume(k: SensorKind) {
    k == AvailableWater || k == WaterUsageToday || k == WaterUsageDailyAverage
  }

  datatype Unit = Percentage | CubicMeters | GallonsUnit | LitersPerMinute | GallonsPerMinute

  /** A native value: text, a number, or a calendar day `offset` days from
      today at midnight (`datetime.now(tz) ± timedelta(days)` with the hour,
      minute and second set to zero). */
  datatype Value = Text(text: string) | Number(x: real) | Midnight(offset: int)

  /** The attributes an update writes: native value, unit and (for the
      available-water entity) the last reset, `days` days before now. */
  datatype Reading = Reading(value: Option<Value>, unit: Option<Unit>, lastReset: Option<int>)

  /** The unit and icon the entity descriptions fix. */
  function DescriptionUnit(k: SensorKind): Option<Unit> {
    if k == SaltLevel then Some(Percentage) else None
  }

  function DescriptionIcon(k: SensorKind): Option<string> {
    match k
    case DateTime => Some("mdi:clock")
    case AvailableWater => Some("mdi:water")
    case WaterCurrentFlow => Some("mdi:water-pump")
    case WaterUsageToday => Some("mdi:water-minus")
    case _ => None
  }

  /** Litres are shown as cubic metres (divided by 1000), gallons as they are. */
  function VolumeDivisor(u: VolumeUnit): real {
    if u == Liters then 1000.0 else 1.0
  }

  function VolumeUnitOf(u: VolumeUnit): Unit {
    if u == Liters then CubicMeters else GallonsUnit
  }

  function FlowUnitOf(u: VolumeUnit): Unit {
    if u == Liters then LitersPerMinute else GallonsPerMinute
  }

  /** Each entity's `update(data)`: the attributes it writes; the others
      keep their previous values. */
  function Apply(k: SensorKind, d: Telemetry, r: Reading): Reading {
    match k
    case State => r.(value := Some(Text(d.state)))
    case DateTime => r.(value := Some(Text(d.deviceDateTime)))
    case LastRegeneration => r.(value := Some(Midnight(-d.daysSinceLastRegeneration)))
    case OutOfSaltEstimatedDay => r.(value := Some(Midnight(d.outOfSaltEstimatedDays)))
    case SaltLevel => r.(value := Some(Number(d.saltLevelPercent as real)))
    case AvailableWater =>
      Reading(Some(Number(d.totalWaterAvailable as real / VolumeDivisor(d.volumeUnit))),
              Some(VolumeUnitOf(d.volumeUnit)), Some(d.daysSinceLastRegeneration))
    case WaterCurrentFlow =>
      r.(value := Some(Number(d.currentWaterFlow as real)), unit := Some(FlowUnitOf(d.volumeUnit)))
    case WaterUsageToday =>
      r.(value := Some(Number(d.todayUse as real / VolumeDivisor(d.volumeUnit))), unit := Some(VolumeUnitOf(d.volumeUnit)))
    case WaterUsageDailyAverage =>
      r.(value := Some(Number(d.averageDailyUse as real / VolumeDivisor(d.volumeUnit))), unit := Some(VolumeUnitOf(d.volumeUnit)))
  }

  /** The raw reading behind a volume entity. */
  function RawVolume(k: SensorKind, d: Telemetry): int
    requires IsVolume(k)
  {
    if k == AvailableWater then d.totalWaterAvailable
    else if k == WaterUsageToday then d.todayUse
    else d.averageDailyUse
  }

  /** A volume entity's value and unit agree: the unit is cubic metres
      exactly when the device counts in litres, gallons otherwise, and
      scaling the value back by the unit's factor gives the raw reading. */
  lemma VolumeValueMatchesUnit(k: SensorKind, d: Telemetry, r: Reading)
    requires IsVolume(k)
    ensures var n := Apply(k, d, r);
      && n.value.Some? && n.value.value.Number? && n.unit.Some?
      && (n.unit == Some(CubicMeters) <==> d.volumeUnit == Liters)
      && (n.unit == Some(GallonsUnit) <==> d.volumeUnit == VolumeUnit.Gallons)
      && n.value.value.x * (if n.unit == Some(CubicMeters) then 1000.0 else 1.0) == RawVolume(k, d) as real
  {
  }

  /** The flow entity is not scaled: its value is the raw flow whatever
      the unit, and its unit is litres per minute exactly when the device
      counts in litres. */
  lemma FlowIsUnscaled(d: Telemetry, r: Reading)
    ensures var n := Apply(WaterCurrentFlow, d, r);
      && n.value == Some(Number(d.currentWaterFlow as real))
      && (n.unit == Some(LitersPerMinute) <==> d.volumeUnit == Liters)
      && (n.unit == Some(GallonsPerMinute) <==> d.volumeUnit == VolumeUnit.Gallons)
  {
  }

  /** An update's value depends on the telemetry alone, so applying the
      same telemetry twice changes nothing more; the unit and last reset
      are carried over only by the entities that do not write them. */
  lemma {:induction false} ApplyDependsOnDataOnly(k: SensorKind, d: Telemetry, r1: Reading, r2: Reading)
    ensures Apply(k, d, r1).value == Apply(k, d, r2).value
    ensures Apply(k, d, Apply(k, d, r1)) == Apply(k, d, r1)
    ensures IsVolume(k) || k == WaterCurrentFlow ==> Apply(k, d, r1).unit == Apply(k, d, r2).unit
    ensures !(IsVolume(k) || k == WaterCurrentFlow) ==> Apply(k, d, r1).unit == r1.unit
    ensures k != AvailableWater ==> Apply(k, d, r1).lastReset == r1.lastReset
  {
  }

  /** The available-water entity's counter was last reset on the day the
      last-regeneration entity shows: both count back the same number of
      days from today. */
  lemma ResetAtLastRegeneration(d: Telemetry, r1: Reading, r2: Reading)
    ensures Apply(AvailableWater, d, r2).lastReset.Some?
    ensures Apply(LastRegeneration, d, r1).value == Some(Midnight(-Apply(AvailableWater, d, r2).lastReset.value))
  {
  }

  /** The salt-level icon: four signal strengths above 75, 50, 25 and 5
      percent, "off" at 5 and below, and a plain signal without a value. */
  function SaltIcon(v: Option<Value>): string {
    if v.Some? && v.value.Number? then
      var x := v.value.x;
      if x > 75.0 then "mdi:signal-cellular-3"
      else if x > 50.0 then "mdi:signal-cellular-2"
      else if x > 25.0 then "mdi:signal-cellular-1"
      else if x > 5.0 then "mdi:signal-cellular-outline"
      else "mdi:signal-off"
    else "mdi:signal"
  }

  /** The number of thresholds (75, 50, 25, 5) a percentage exceeds. */
  function Bars(x: real): (n: nat)
    ensures n <= 4
  {
    (if x > 75.0 then 1 else 0) + (if x > 50.0 then 1 else 0) + (if x > 25.0 then 1 else 0) + (if x > 5.0 then 1 else 0)
  }

  /** The signal strength an icon shows; -1 for the no-value icon. */
  function IconBars(icon: string): int {
    if icon == "mdi:signal-cellular-3" then 4
    else if icon == "mdi:signal-cellular-2" then 3
    else if icon == "mdi:signal-cellular-1" then 2
    else if icon == "mdi:signal-cellular-outline" then 1
    else if icon == "mdi:signal-off" then 0
    else -1
  }

  /** The icon shows exactly as many bars as thresholds the level exceeds,
      so a fuller tank never shows fewer bars. */
  lemma SaltIconCountsThresholds(x: real, y: real)
    ensures IconBars(SaltIcon(Some(Number(x)))) == Bars(x)
    ensures x <= y ==> IconBars(SaltIcon(Some(Number(x)))) <= IconBars(SaltIcon(Some(Number(y))))
    ensures IconBars(SaltIcon(None)) == -1
  {
  }

  lemma StateKeysAreLower()
    ensures IsLowerAscii(Key(State)) && IsLowerAscii(Key(DateTime)) && IsLowerAscii(Key(LastRegeneration))
  {
  }

  lemma SaltKeysAreLower()
    ensures IsLowerAscii(Key(OutOfSaltEstimatedDay)) && IsLowerAscii(Key(SaltLevel)) && IsLowerAscii(Key(AvailableWater))
  {
  }

  lemma WaterKeysAreLower()
    ensures IsLowerAscii(Key(WaterCurrentFlow)) && IsLowerAscii(Key(WaterUsageToday)) && IsLowerAscii(Key(WaterUsageDailyAverage))
  {
  }

  /** The description keys are already lower-case. */
  lemma KeyIsLower(k: SensorKind)
    ensures IsLowerAscii(Key(k))
  {
    StateKeysAreLower();
    SaltKeysAreLower();
    WaterKeysAreLower();
  }

  /** The entity's unique id: serial, underscore and key, lower-cased. */
  function EntityUniqueId(serial: string, k: SensorKind): (u: string)
    ensures |u| == |serial| + 1 + |Key(k)|
    ensures u[..|serial|] == Lower(serial) && u[|serial|] == '_'
  {
    LowerAppend(serial, "_" + Key(k));
    LowerAppend("_", Key(k));
    Lower(serial + "_" + Key(k))
  }

  /** The unique id is the lower-cased serial, an underscore and the
      description key unchanged, since every key is lower-case already. */
  lemma EntityUniqueIdParts(serial: string, k: SensorKind)
    ensures EntityUniqueId(serial, k) == Lower(serial) + "_" + Key(k)
  {
    LowerAppend(serial, "_" + Key(k));
    LowerAppend("_", Key(k));
    KeyIsLower(k);
    LowerOfLower(Key(k));
    assert Lower("_") == "_";
  }

  /** The nine entities of one serial have nine different unique ids, and
      serials that differ only in letter case share all nine. */
  lemma UniqueIds(serial: string, other: string, k1: SensorKind, k2: SensorKind)
    ensures k1 != k2 ==> EntityUniqueId(serial, k1) != EntityUniqueId(serial, k2)
    ensures Lower(serial) == Lower(other) ==> EntityUniqueId(serial, k1) == EntityUniqueId(other, k1)
  {
    EntityUniqueIdParts(serial, k1);
    EntityUniqueIdParts(serial, k2);
    EntityUniqueIdParts(other, k1);
    if k1 != k2 {
      KeysDistinct(k1, k2);
      var n := |serial| + 1;
      assert EntityUniqueId(serial, k1)[n..] == Key(k1);
      assert EntityUniqueId(serial, k2)[n..] == Key(k2);
    }
  }

  /** Different entities have different keys. */
  lemma KeysDistinct(k1: SensorKind, k2: SensorKind)
    requires k1 != k2
    ensures Key(k1) != Key(k2)
  {
    if |Key(k1)| == |Key(k2)| {
      assert Key(k1)[0] != Key(k2)[0];
    }
  }

  lemma AllKindsDistinct()
    ensures forall i, j :: 0 <= i < j < |AllKinds| ==> AllKinds[i] != AllKinds[j]
  {
  }

  /** One entity: fixed coordinator, kind and unique id, and the
      attributes its updates write. */
  class SoftenerSensor {
    const coordinator: C.DataCoordinator
    const kind: SensorKind
    const uniqueId: string
    /** The device-registry identifier, the serial as entered. */
    const deviceIdentifier: string
    var reading: Reading
    /** How many times the entity wrote its state. */
    var stateWrites: nat

    /** Builds the entity and, when the coordinator already holds data,
        applies it at once. */
    constructor (coordinator: C.DataCoordinator, serial: string, kind: SensorKind)
      ensures this.coordinator == coordinator && this.kind == kind
      ensures uniqueId == EntityUniqueId(serial, kind) && deviceIdentifier == serial
      ensures coordinator.data.None? ==> reading == Reading(None, DescriptionUnit(kind), None)
      ensures coordinator.data.Some? ==> reading == Apply(kind, coordinator.data.value, Reading(None, DescriptionUnit(kind), None))
      ensures stateWrites == 0
    {
      this.coordinator := coordinator;
      this.kind := kind;
      uniqueId := EntityUniqueId(serial, kind);
      deviceIdentifier := serial;
      var initial := Reading(None, DescriptionUnit(kind), None);
      reading := if coordinator.data.Some? then Apply(kind, coordinator.data.value, initial) else initial;
      stateWrites := 0;
    }

    /** `_handle_coordinator_update`: apply the coordinator's data when it
        has any, keep the previous attributes when it has none, and write
        the state either way. */
    method HandleCoordinatorUpdate()
      modifies this
      ensures coordinator.data.Some? ==> reading == Apply(kind, coordinator.data.value, old(reading))
      ensures coordinator.data.None? ==> reading == old(reading)
      ensures stateWrites == old(stateWrites) + 1
    {
      if coordinator.data.Some? {
        reading := Apply(kind, coordinator.data.value, reading);
      }
      stateWrites := stateWrites + 1;
    }

    /** Available only while the last refresh succeeded and data exists. */
    predicate Available()
      reads coordinator
    {
      coordinator.lastUpdateSuccess && coordinator.data.Some?
    }

    /** The salt-level entity computes its icon from its value; every other
        entity shows its description's icon. */
    function Icon(): (icon: Option<string>)
      reads this
      ensures kind == SaltLevel ==> icon == Some(SaltIcon(reading.value))
      ensures kind != SaltLevel ==> icon == DescriptionIcon(kind)
    {
      if kind == SaltLevel then Some(SaltIcon(reading.value)) else DescriptionIcon(kind)
    }
  }

  /** After a refresh of its coordinator (in the state `Refresh` leaves:
      success flag and, on success, the fetched data), an entity is
      available exactly when the cycle fetched data, whatever data an
      earlier cycle left behind. */
  lemma AvailableAfterRefresh(s: SoftenerSensor, c: C.Cycle)
    requires s.coordinator.lastUpdateSuccess == c.end.Fetched?
    requires c.end.Fetched? ==> s.coordinator.data == Some(c.end.data)
    ensures s.Available() <==> c.end.Fetched?
  {
  }

  /** The platform's `async_setup_entry`: one entity per description, in
      order, for the entry's serial (a missing serial is a `KeyError`). */
  method SetupPlatform(coordinator: C.DataCoordinator, serial: Option<string>)
    returns (r: Result<seq<SoftenerSensor>>)
    ensures serial.None? <==> r.Err?
    ensures r.Ok? ==> |r.value| == |AllKinds|
    ensures r.Ok? ==> forall i :: 0 <= i < |AllKinds| ==>
      && r.value[i].kind == AllKinds[i]
      && r.value[i].coordinator == coordinator
      && r.value[i].uniqueId == EntityUniqueId(serial.value, AllKinds[i])
    ensures r.Ok? ==> forall i, j :: 0 <= i < j < |r.value| ==> r.value[i].uniqueId != r.value[j].uniqueId
  {
    if serial.None? {
      return Err(Other("KeyError"));
    }
    var sensors: seq<SoftenerSensor> := [];
    for i := 0 to |AllKinds|
      invariant |sensors| == i
      invariant forall j :: 0 <= j < i ==>
        && sensors[j].kind == AllKinds[j]
        && sensors[j].coordinator == coordinator
        && sensors[j].uniqueId == EntityUniqueId(serial.value, AllKinds[j])
    {
      var s := new SoftenerSensor(coordinator, serial.value, AllKinds[i]);
      sensors := sensors + [s];
    }
    AllKindsDistinct();
    forall i, j | 0 <= i < j < |sensors| ensures sensors[i].uniqueId != sensors[j].uniqueId {
      UniqueIds(serial.value, serial.value, AllKinds[i], AllKinds[j]);
    }
    return Ok(sensors);
  }
}
