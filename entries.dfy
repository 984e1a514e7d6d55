/** The host platform's config entries as the integration reads them. */
module Entries {
  import opened Base

  /** The keys of an entry's `data` (or `options`) the integration reads,
      each absent (`None`) or set. */
  datatype EntryConfig = EntryConfig(
    isHub: Option<bool>,
    username: Option<string>,
    password: Option<string>,
    serial: Option<string>,
    hubId: Option<string>)

  /** A config entry: its id, data, options and the unique id its flow set. */
  datatype ConfigEntry = ConfigEntry(entryId: EntryId, data: EntryConfig, options: EntryConfig, uniqueId: Option<string>)

  function Pick<T>(data: Option<T>, option: Option<T>): Option<T> {
    if option.Some? then option else data
  }

  /** `config = dict(entry.data); config.update(entry.options)`. */
  function Merge(data: EntryConfig, options: EntryConfig): (c: EntryConfig)
    ensures c.isHub == (if options.isHub.Some? then options.isHub else data.isHub)
    ensures c.username == (if options.username.Some? then options.username else data.username)
    ensures c.password == (if options.password.Some? then options.password else data.password)
    ensures c.serial == (if options.serial.Some? then options.serial else data.serial)
    ensures c.hubId == (if options.hubId.Some? then options.hubId else data.hubId)
  {
    EntryConfig(
      Pick(data.isHub, options.isHub),
      Pick(data.username, options.username),
      Pick(data.password, options.password),
      Pick(data.serial, options.serial),
      Pick(data.hubId, options.hubId))
  }

  /** `config.get(CONF_IS_HUB, False)` as a condition. */
  predicate IsHub(c: EntryConfig) {
    c.isHub == Some(true)
  }

  /** The hub a device config links to: `hub_id` when it is a non-empty
      string (Python's truthiness), else none. */
  function HubLink(hubId: Option<string>): (h: Option<EntryId>)
    ensures h.Some? <==> hubId.Some? && hubId.value != ""
    ensures h.Some? ==> h == hubId
  {
    if hubId.Some? && hubId.value != "" then hubId else None
  }

  /** Set-up dispatch: with no options the entry's own `is_hub` decides, a
      missing `is_hub` means a device, and an `is_hub` in the options
      overrides the one in the data. */
  lemma DispatchOnIsHub(data: EntryConfig, options: EntryConfig)
    ensures options.isHub.None? ==> (IsHub(Merge(data, options)) <==> data.isHub == Some(true))
    ensures options.isHub.Some? ==> (IsHub(Merge(data, options)) <==> options.isHub.value)
    ensures data.isHub.None? && options.isHub.None? ==> !IsHub(Merge(data, options))
  {
  }
}
