/** Values shared by every part of the integration: optional values, the
    exceptions raised by code outside the model, the vendor library's
    telemetry snapshot and its per-device handle. */
module Base {

  datatype Option<T> = None | Some(value: T)

  /** An exception escaping a call the model cannot see. `Library` is the
      vendor library's `IquaSoftenerException` (the one the integration
      catches and classifies by its message); `Other` is any other exception
      (a `KeyError`, a `ValueError`, ...), which only the outermost handlers
      catch. */
  datatype Failure = Library(message: string) | Other(message: string)

  /** The outcome of a call that either returns a value or raises. */
  datatype Result<T> = Ok(value: T) | Err(failure: Failure)

  /** The device's volume unit, `IquaSoftenerVolumeUnit`. */
  datatype VolumeUnit = Liters | Gallons

  /** The telemetry snapshot `IquaSoftener.get_data` returns
      (`IquaSoftenerData`). Quantities are integers here; `model` and
      `firmwareVersion` are optional because the integration reads them with
      `hasattr`/`getattr` fallbacks. */
  datatype Telemetry = Telemetry(
    state: string,
    model: Option<string>,
    firmwareVersion: Option<string>,
    deviceDateTime: string,
    saltLevelPercent: int,
    totalWaterAvailable: int,
    currentWaterFlow: int,
    todayUse: int,
    averageDailyUse: int,
    daysSinceLastRegeneration: int,
    outOfSaltEstimatedDays: int,
    volumeUnit: VolumeUnit)

  /** The library's per-device handle `IquaSoftener(username, password, serial)`. */
  datatype Softener = Softener(username: string, password: string, serial: string)

  /** The host platform's config-entry identifier. */
  type EntryId = string
}
