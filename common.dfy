/** Shared vocabulary of the integration's configuration: the transports, the keys
    and values of an inverter's configuration dictionary, and the shape of a
    config entry before and after migration. */
module Common {

  datatype Option<+T> = None | Some(value: T)

  datatype Result<+T, +E> = Success(value: T) | Failure(error: E)

  /** The three Modbus transports an inverter can be reached over. */
  datatype Protocol = TCP | UDP | SERIAL

  /** Inverter ids: the source draws a fresh uuid4 string for each new inverter;
      the model draws fresh keys from a counter, which gives the same guarantee
      (every new id differs from every id drawn before it). */
  type InverterId = nat

  /** The value of CONFIG_SAVE_TIME: only ever carried over or taken from the clock. */
  datatype Timestamp = Timestamp(ticks: int)

  /** Keys of an inverter's configuration dictionary (the constants of const.py). */
  datatype Key =
    | ModbusTypeKey
    | HostKey
    | FriendlyNameKey
    | AdapterIdKey
    | InverterConnKey
    | NeedsManualInputKey
    | PollRateKey
    | MaxReadKey
    | ModbusSlaveKey
    | InverterBaseKey
    | InverterModelKey
    | OtherKey(name: string)

  /** Values stored under those keys; Null is Python's None. */
  datatype Value =
    | Text(s: string)
    | Number(n: int)
    | Flag(b: bool)
    | Proto(p: Protocol)
    | Null

  /** One inverter's configuration dictionary. */
  type Record = map<Key, Value>

  /** The data of a config entry: version 1 nests inverters as
      modbus type -> host -> friendly name -> inverter; version 2 keeps a flat map
      of inverter id -> inverter. Both carry the save time. */
  datatype GroupKey = ProtocolGroup(protocol: Protocol) | OtherGroup(name: string)

  type V1Groups = map<GroupKey, map<string, map<string, Record>>>

  datatype EntryData =
    | V1Data(groups: V1Groups, saveTime: Timestamp)
    | V2Data(inverters: map<InverterId, Record>, saveTime: Timestamp)

  /** The options of a config entry: top-level settings (POLL_RATE and MAX_READ in
      version 1) and, when present, the INVERTERS sub-dictionary of per-inverter
      overrides (version 2). */
  datatype EntryOptions = EntryOptions(settings: Record, inverters: Option<map<InverterId, Record>>)

  datatype ConfigEntry = ConfigEntry(version: int, data: EntryData, options: EntryOptions)

  /** Python truthiness of the options dictionary. */
  predicate OptionsPresent(options: EntryOptions)
  {
    |options.settings| > 0 || options.inverters.Some?
  }

  /** Some inverter still carries the "needs manual input" flag (the test at the end of setup). */
  predicate SomeNeedsManualInput(inverters: map<InverterId, Record>)
  {
    exists id :: id in inverters && NeedsManualInputKey in inverters[id]
  }
}
