/** The decision logic of the setup wizard, the options flow and the re-authentication
    flow of config_flow.py: the inverter label, the friendly-name and duplicate
    connection checks, the entry data built from the inverters the user added, the
    energy dashboard sources, the per-inverter options update, the queue of migrated
    inverters whose adapter must still be chosen, and the form-or-result dispatch
    shared by every step. */
module ConfigFlow {
  import opened Common
  import opened Text
  import opened Connection
  import opened Migration
  import opened Setup

  /** InverterAdapterType. */
  datatype AdapterType = Direct | Serial | Network

  /** The parts of an inverter adapter the flow stores: its id, its type and the key
      of its connection type ("LAN" or "AUX"). */
  datatype Adapter = Adapter(adapterId: string, kind: AdapterType, connectionKey: string)

  /** InverterData: what the wizard has gathered about one inverter so far. */
  datatype InverterData = InverterData(
    adapterType: Option<AdapterType>,
    adapter: Option<Adapter>,
    baseModel: Option<string>,
    model: Option<string>,
    slave: Option<int>,
    protocol: Option<Protocol>,
    host: Option<string>,
    friendlyName: Option<string>)

  const EmptyInverterData := InverterData(None, None, None, None, None, None, None, None)

  /** A `ValidationFailedException` carries a field and an error key; any other
      exception escapes the flow. */
  datatype FlowError = Invalid(field: string, reason: string) | Crashed

  const InvalidFriendlyName := Invalid("friendly_name", "invalid_friendly_name")
  const DuplicateFriendlyName := Invalid("friendly_name", "duplicate_friendly_name")
  const DuplicateConnection := Invalid("base", "duplicate_connection_details")
  const ModelNotSupported := Invalid("base", "modbus_model_not_supported")
  const ModbusError := Invalid("base", "modbus_error")

  // ---------------------------------------------------------------------------
  // _with_default_form

  /** What a step's body did with the submitted input: returned a result (or None,
      meaning "show the form again"), raised ValidationFailedException, or raised any
      other exception. */
  datatype BodyOutcome<R> = Returned(result: Option<R>) | Raised(errors: map<string, string>) | Escaped

  /** A step either finishes with the body's result, shows its form, with the
      submitted input as suggested values and the errors, if any, or lets the body's
      exception escape. */
  datatype StepResult<I, R> =
    | Done(result: R)
    | ShowForm(stepId: string, suggested: Option<I>, errors: Option<map<string, string>>)
    | Escapes

  function WithDefaultForm<I, R>(body: I -> BodyOutcome<R>, userInput: Option<I>, stepId: string): (r: StepResult<I, R>)
    // without input the bare form is shown and the body is never run
    ensures userInput.None? ==> r.ShowForm? && r.stepId == stepId && r.suggested.None? && r.errors.None?
    // the step finishes exactly when the body returns a result
    ensures r.Done? <==> userInput.Some? && body(userInput.value).Returned? && body(userInput.value).result.Some?
    ensures r.Done? ==> r.result == body(userInput.value).result.value
    // any exception but a validation failure escapes the step
    ensures r.Escapes? <==> userInput.Some? && body(userInput.value).Escaped?
    // otherwise the same form comes back, filled in with what was submitted
    ensures r.ShowForm? ==> r.stepId == stepId && r.suggested == userInput
    ensures r.ShowForm? && userInput.Some? && body(userInput.value).Raised? ==> r.errors == Some(body(userInput.value).errors)
    ensures r.ShowForm? && (userInput.None? || body(userInput.value).Returned?) ==> r.errors.None?
  {
    if userInput.None? then ShowForm(stepId, None, None)
    else
      match body(userInput.value)
      case Returned(Some(result)) => Done(result)
      case Returned(None) => ShowForm(stepId, userInput, None)
      case Raised(errors) => ShowForm(stepId, userInput, Some(errors))
      case Escaped => Escapes
  }

  // ---------------------------------------------------------------------------
  // _create_label_for_inverter

  /** Display names of the modbus types in a formatted string. */
  function ProtocolName(p: Protocol): string
  {
    match p
    case TCP => "tcp"
    case UDP => "udp"
    case SERIAL => "serial"
  }

  /** `f"{value}"` */
  function Format(v: Value): string
  {
    match v
    case Text(s) => s
    case Number(n) => IntToString(n)
    case Flag(b) => if b then "True" else "False"
    case Proto(p) => ProtocolName(p)
    case Null => "None"
  }

  /** Python truthiness of a stored value. */
  predicate Truthy(v: Value)
  {
    match v
    case Text(s) => s != ""
    case Number(n) => n != 0
    case Flag(b) => b
    case Proto(_) => true
    case Null => false
  }

  /** The label of an inverter: "<friendly name> - <host> (<slave>)", without the
      name part when the name is empty; a missing field raises KeyError (reported
      as the key). */
  function Label(inverter: Record): (r: Result<string, Key>)
    ensures r.Failure? <==> FriendlyNameKey !in inverter || HostKey !in inverter || ModbusSlaveKey !in inverter
    ensures r.Failure? ==> r.error !in inverter
    ensures r.Success? ==>
      var host, slave := Format(inverter[HostKey]), Format(inverter[ModbusSlaveKey]);
      var suffix := host + " (" + slave + ")";
      && |suffix| <= |r.value|
      && r.value[|r.value| - |suffix|..] == suffix
      && (Truthy(inverter[FriendlyNameKey]) ==> r.value == Format(inverter[FriendlyNameKey]) + " - " + suffix)
      && (!Truthy(inverter[FriendlyNameKey]) ==> r.value == suffix)
  {
    if FriendlyNameKey !in inverter then Failure(FriendlyNameKey)
    else
      var prefix := if Truthy(inverter[FriendlyNameKey]) then Format(inverter[FriendlyNameKey]) + " - " else "";
      if HostKey !in inverter then Failure(HostKey)
      else if ModbusSlaveKey !in inverter then Failure(ModbusSlaveKey)
      else Success(prefix + (Format(inverter[HostKey]) + " (" + Format(inverter[ModbusSlaveKey]) + ")"))
  }

  lemma {:induction false} IntToStringInjective(a: int, b: int)
    requires IntToString(a) == IntToString(b)
    ensures a == b
  {
    ParseIntToString(a);
    ParseIntToString(b);
  }

  lemma MiddleCancel(head: string, x: string, y: string, tail: string)
    requires head + x + tail == head + y + tail
    ensures x == y
  {
    assert |x| == |y|;
    assert x == (head + x + tail)[|head|..|head| + |x|];
    assert y == (head + y + tail)[|head|..|head| + |y|];
  }

  /** The label up to the slave number: "<friendly name> - <host> (" or "<host> (". */
  function LabelHead(name: Value, host: Value): string
  {
    (if Truthy(name) then Format(name) + " - " else "") + Format(host) + " ("
  }

  lemma LabelShape(inverter: Record)
    requires FriendlyNameKey in inverter && HostKey in inverter && ModbusSlaveKey in inverter
    ensures Label(inverter) == Success(LabelHead(inverter[FriendlyNameKey], inverter[HostKey]) + Format(inverter[ModbusSlaveKey]) + ")")
  {
    var name := inverter[FriendlyNameKey];
    var prefix := if Truthy(name) then Format(name) + " - " else "";
    var host, slave := Format(inverter[HostKey]), Format(inverter[ModbusSlaveKey]);
    assert prefix + (host + " (" + slave + ")") == prefix + host + " (" + slave + ")";
  }

  /** Two inverters behind the same host with the same name but different slave
      numbers get different labels, so the inverter selector can tell them apart. */
  lemma {:induction false} LabelDistinguishesSlaves(a: Record, b: Record, slaveA: int, slaveB: int)
    requires FriendlyNameKey in a && HostKey in a && FriendlyNameKey in b && HostKey in b
    requires a[FriendlyNameKey] == b[FriendlyNameKey] && a[HostKey] == b[HostKey]
    requires ModbusSlaveKey in a && a[ModbusSlaveKey] == Number(slaveA)
    requires ModbusSlaveKey in b && b[ModbusSlaveKey] == Number(slaveB)
    requires slaveA != slaveB
    ensures Label(a).Success? && Label(b).Success? && Label(a).value != Label(b).value
  {
    LabelShape(a);
    LabelShape(b);
    var head := LabelHead(a[FriendlyNameKey], a[HostKey]);
    if Label(a).value == Label(b).value {
      MiddleCancel(head, IntToString(slaveA), IntToString(slaveB), ")");
      IntToStringInjective(slaveA, slaveB);
    }
  }

  // ---------------------------------------------------------------------------
  // The friendly-name and duplicate-connection checks

  /** A character `\w` matches, restricted to ASCII: letters, digits and underscore. */
  predicate IsWordChar(c: char)
  {
    ('a' <= c <= 'z') || ('A' <= c <= 'Z') || ('0' <= c <= '9') || c == '_'
  }

  /** `re.fullmatch(r"\w+", name)`: a word is never empty and holds no '.', ':' or
      space, so the entity ids built from it stay well formed. */
  function IsWord(name: string): (w: bool)
    ensures w ==> |name| > 0 && '.' !in name && ':' !in name && ' ' !in name
  {
    |name| > 0 && forall i :: 0 <= i < |name| ==> IsWordChar(name[i])
  }

  /** `any(x for x in inverters if x.friendly_name == name)` */
  function NameTaken(inverters: seq<InverterData>, name: string): (taken: bool)
    ensures taken <==> exists i :: 0 <= i < |inverters| && inverters[i].friendlyName == Some(name)
  {
    if |inverters| == 0 then false
    else inverters[|inverters| - 1].friendlyName == Some(name) || NameTaken(inverters[..|inverters| - 1], name)
  }

  /** Why a friendly name is refused, if it is: it is neither empty nor a word, or an
      inverter already added has it (a second empty name included). */
  function FriendlyNameError(inverters: seq<InverterData>, name: string): (r: Option<FlowError>)
    ensures r == Some(InvalidFriendlyName) <==> name != "" && !IsWord(name)
    ensures r == Some(DuplicateFriendlyName) <==>
      (name == "" || IsWord(name)) && exists i :: 0 <= i < |inverters| && inverters[i].friendlyName == Some(name)
    ensures r.None? <==> (name == "" || IsWord(name)) && forall i :: 0 <= i < |inverters| ==> inverters[i].friendlyName != Some(name)
  {
    if name != "" && !IsWord(name) then Some(InvalidFriendlyName)
    else if NameTaken(inverters, name) then Some(DuplicateFriendlyName)
    else None
  }

  /** The connection an inverter was detected on. */
  datatype ConnDetails = ConnDetails(protocol: Option<Protocol>, host: Option<string>, slave: Option<int>)

  function ConnOf(d: InverterData): ConnDetails
  {
    ConnDetails(d.protocol, d.host, d.slave)
  }

  /** `any(x for x in inverters if x.inverter_protocol == protocol and x.host == host and x.modbus_slave == slave)` */
  function ConnectionTaken(inverters: seq<InverterData>, c: ConnDetails): (taken: bool)
    ensures taken <==> exists i :: 0 <= i < |inverters| && ConnOf(inverters[i]) == c
  {
    if |inverters| == 0 then false
    else ConnOf(inverters[|inverters| - 1]) == c || ConnectionTaken(inverters[..|inverters| - 1], c)
  }

  /** What autodetection over the connection reported. */
  datatype Detection = Detected(baseModel: string, fullModel: string) | Unsupported | ConnectionFailed

  // ---------------------------------------------------------------------------
  // The setup wizard

  class ModbusFlow {
    /** The inverter being added. */
    var inverterData: InverterData
    /** The inverters added so far, in order. */
    var allInverters: seq<InverterData>

    /** No two added inverters share a friendly name or a connection, and the
        connection of the inverter being added is not taken. */
    ghost predicate Valid()
      reads this
    {
      && (forall i, j :: 0 <= i < j < |allInverters| ==> allInverters[i].friendlyName != allInverters[j].friendlyName)
      && (forall i, j :: 0 <= i < j < |allInverters| && allInverters[j].protocol.Some? ==>
            ConnOf(allInverters[i]) != ConnOf(allInverters[j]))
      && (inverterData.protocol.Some? ==> forall i :: 0 <= i < |allInverters| ==> ConnOf(allInverters[i]) != ConnOf(inverterData))
    }

    constructor ()
      ensures Valid()
      ensures inverterData == EmptyInverterData && allInverters == []
    {
      inverterData := EmptyInverterData;
      allInverters := [];
    }

    /** The friendly-name step's body: a refused name leaves everything as it was; an
        accepted one completes the current inverter, appends it and starts a new one. */
    method SubmitFriendlyName(input: Option<string>) returns (error: Option<FlowError>)
      requires Valid()
      modifies this
      ensures Valid()
      ensures var name := if input.Some? then input.value else "";
        error == FriendlyNameError(old(allInverters), name) &&
        (error.None? ==>
          && allInverters == old(allInverters) + [old(inverterData).(friendlyName := Some(name))]
          && inverterData == EmptyInverterData)
    ensures error.Some? ==> allInverters == old(allInverters) && inverterData == old(inverterData)
    {
      var name := if input.Some? then input.value else "";
      error := FriendlyNameError(allInverters, name);
      if error.None? {
        allInverters := allInverters + [inverterData.(friendlyName := Some(name))];
        inverterData := EmptyInverterData;
      }
    }

    /** `_autodetect_modbus_and_save_to_inverter_data`: refuse a connection an added
        inverter already uses, build the client parameters (an unparsable host
        escapes the flow), and record what autodetection found. */
    method AutodetectAndSave(protocol: Protocol, host: string, slave: int, detection: Detection)
      returns (error: Option<FlowError>, params: Option<Result<ClientParams, ParamsError>>)
      requires Valid()
      modifies this
      ensures Valid()
      ensures allInverters == old(allInverters)
      ensures var c := ConnDetails(Some(protocol), Some(host), Some(slave));
        && (ConnectionTaken(allInverters, c) ==> error == Some(DuplicateConnection) && params.None?)
        && (!ConnectionTaken(allInverters, c) ==> params == Some(ParamsFor(Proto(protocol), Text(host))))
        && (!ConnectionTaken(allInverters, c) && params.value.Failure? ==> error == Some(Crashed))
        && (!ConnectionTaken(allInverters, c) && params.value.Success? ==>
              error == (match detection
                        case Detected(_, _) => None
                        case Unsupported => Some(ModelNotSupported)
                        case ConnectionFailed => Some(ModbusError)))
      ensures error.None? ==>
        && detection.Detected?
        && inverterData == old(inverterData).(baseModel := Some(detection.baseModel), model := Some(detection.fullModel),
                                               protocol := Some(protocol), slave := Some(slave), host := Some(host))
      ensures error.Some? ==> inverterData == old(inverterData)
    {
      params := None;
      var c := ConnDetails(Some(protocol), Some(host), Some(slave));
      if ConnectionTaken(allInverters, c) {
        return Some(DuplicateConnection), params;
      }
      params := Some(ParamsFor(Proto(protocol), Text(host)));
      if params.value.Failure? {
        return Some(Crashed), params;
      }
      match detection
      case Unsupported => error := Some(ModelNotSupported);
      case ConnectionFailed => error := Some(ModbusError);
      case Detected(base, full) =>
        inverterData := inverterData.(baseModel := Some(base), model := Some(full),
                                      protocol := Some(protocol), slave := Some(slave), host := Some(host));
        error := None;
    }

    /** `_create_entry_data`: one record per added inverter under a fresh id, and the
        save time; an inverter without an adapter makes the flow crash. */
    method CreateEntryData(now: Timestamp) returns (r: Result<EntryData, FlowError>)
      ensures r.Failure? <==> exists i :: 0 <= i < |allInverters| && allInverters[i].adapter.None?
      ensures r.Failure? ==> r.error == Crashed
      ensures r.Success? ==>
        && r.value.V2Data?
        && r.value.saveTime == now
        && (forall id: InverterId :: id in r.value.inverters <==> id < |allInverters|)
        && (forall id :: id in r.value.inverters ==> EntryRecord(allInverters[id]) == Some(r.value.inverters[id]))
    {
      var inverters: map<InverterId, Record> := map[];
      var i := 0;
      while i < |allInverters|
        invariant 0 <= i <= |allInverters|
        invariant forall k :: 0 <= k < i ==> allInverters[k].adapter.Some?
        invariant forall id: InverterId :: id in inverters <==> id < i
        invariant forall id :: id in inverters ==> EntryRecord(allInverters[id]) == Some(inverters[id])
      {
        var record := EntryRecord(allInverters[i]);
        if record.None? {
          return Failure(Crashed);
        }
        inverters := inverters[i := record.value];
        i := i + 1;
      }
      r := Success(V2Data(inverters, now));
    }
  }

  function TextOrNull(s: Option<string>): Value
  {
    if s.Some? then Text(s.value) else Null
  }

  function NumberOrNull(n: Option<int>): Value
  {
    if n.Some? then Number(n.value) else Null
  }

  function ProtoOrNull(p: Option<Protocol>): Value
  {
    if p.Some? then Proto(p.value) else Null
  }

  /** The stored record of one added inverter; reading the adapter's fields of an
      inverter without one raises, so there is no record then. */
  function EntryRecord(d: InverterData): (r: Option<Record>)
    ensures r.Some? <==> d.adapter.Some?
    ensures r.Some? ==>
      && r.value.Keys == {InverterBaseKey, InverterModelKey, InverterConnKey, ModbusSlaveKey, FriendlyNameKey,
                          ModbusTypeKey, HostKey, AdapterIdKey}
      && r.value[InverterBaseKey] == TextOrNull(d.baseModel)
      && r.value[InverterModelKey] == TextOrNull(d.model)
      && r.value[ModbusTypeKey] == ProtoOrNull(d.protocol)
      && r.value[HostKey] == TextOrNull(d.host)
      && r.value[ModbusSlaveKey] == NumberOrNull(d.slave)
      && r.value[FriendlyNameKey] == TextOrNull(d.friendlyName)
      && r.value[AdapterIdKey] == Text(d.adapter.value.adapterId)
      && r.value[InverterConnKey] == Text(d.adapter.value.connectionKey)
      && NeedsManualInputKey !in r.value
  {
    if d.adapter.None? then None
    else Some(map[
      InverterBaseKey := TextOrNull(d.baseModel),
      InverterModelKey := TextOrNull(d.model),
      InverterConnKey := Text(d.adapter.value.connectionKey),
      ModbusSlaveKey := NumberOrNull(d.slave),
      FriendlyNameKey := TextOrNull(d.friendlyName),
      ModbusTypeKey := ProtoOrNull(d.protocol),
      HostKey := TextOrNull(d.host),
      AdapterIdKey := Text(d.adapter.value.adapterId)])
  }

  /** Distinct connections in the wizard give distinct (modbus type, host, slave)
      triples in the stored records. */
  lemma {:induction false} EntryRecordsKeepConnectionsApart(a: InverterData, b: InverterData)
    requires a.adapter.Some? && b.adapter.Some?
    requires ConnOf(a) != ConnOf(b)
    ensures var ra, rb := EntryRecord(a).value, EntryRecord(b).value;
      (ra[ModbusTypeKey], ra[HostKey], ra[ModbusSlaveKey]) != (rb[ModbusTypeKey], rb[HostKey], rb[ModbusSlaveKey])
  {
    var ra, rb := EntryRecord(a).value, EntryRecord(b).value;
    if a.protocol != b.protocol {
      assert ra[ModbusTypeKey] != rb[ModbusTypeKey] by {
        assert a.protocol.Some? || b.protocol.Some?;
      }
    } else if a.host != b.host {
      assert ra[HostKey] != rb[HostKey] by {
        assert a.host.Some? || b.host.Some?;
      }
    } else {
      assert ra[ModbusSlaveKey] != rb[ModbusSlaveKey] by {
        assert a.slave.Some? || b.slave.Some?;
      }
    }
  }

  // ---------------------------------------------------------------------------
  // _setup_energy_dashboard

  datatype EnergySource =
    | Solar(statEnergyFrom: string)
    | Battery(statEnergyTo: string, statEnergyFrom: string)
    | Grid(flowFrom: seq<string>, flowTo: seq<string>, costAdjustmentDay: int)

  /** `_prefix_name`: the entity-id prefix of an inverter's sensors. */
  function NamePrefix(name: string): (p: string)
    ensures name != "" ==> p == "sensor." + name + "_"
    ensures name == "" ==> p == "sensor."
  {
    if name != "" then "sensor." + name + "_" else "sensor."
  }

  /** Different friendly names give different prefixes. */
  lemma {:induction false} NamePrefixInjective(a: string, b: string)
    requires NamePrefix(a) == NamePrefix(b)
    ensures a == b
  {
    if a != "" && b != "" {
      assert a == NamePrefix(a)[7..|NamePrefix(a)| - 1];
      assert b == NamePrefix(b)[7..|NamePrefix(b)| - 1];
    }
  }

  /** Different friendly names give different statistic ids for the same sensor. */
  lemma {:induction false} StatisticIdsDistinct(a: string, b: string, sensor: string)
    requires a != b
    ensures NamePrefix(a) + sensor != NamePrefix(b) + sensor
  {
    if NamePrefix(a) + sensor == NamePrefix(b) + sensor {
      var pa, pb := NamePrefix(a), NamePrefix(b);
      assert |pa| == |pb|;
      assert pa == (pa + sensor)[..|pa|];
      assert pb == (pb + sensor)[..|pb|];
      NamePrefixInjective(a, b);
    }
  }

  /** `stat` is the id of one of the sensors of the inverter named `name`. */
  predicate IsOwnStatistic(name: string, stat: string)
  {
    |NamePrefix(name)| <= |stat| && stat[..|NamePrefix(name)|] == NamePrefix(name)
  }

  /** The three sources of the i-th inverter. */
  function InverterSources(name: string): seq<EnergySource>
  {
    var p := NamePrefix(name);
    [Solar(p + "pv1_energy_total"), Solar(p + "pv2_energy_total"),
     Battery(p + "battery_charge_total", p + "battery_discharge_total")]
  }

  /** An inverter contributes two solar sources and one battery, and every statistic
      they name is one of that inverter's own sensors. */
  lemma InverterSourcesAreOwn(name: string)
    ensures var r := InverterSources(name);
      && |r| == 3 && r[0].Solar? && r[1].Solar? && r[2].Battery?
      && IsOwnStatistic(name, r[0].statEnergyFrom) && IsOwnStatistic(name, r[1].statEnergyFrom)
      && IsOwnStatistic(name, r[2].statEnergyFrom) && IsOwnStatistic(name, r[2].statEnergyTo)
  {
  }

  /** Appending keeps the first `n` groups of three. */
  lemma PrefixSlices(s: seq<EnergySource>, t: seq<EnergySource>, n: nat)
    requires 3 * n <= |s|
    ensures forall k :: 0 <= k < n ==> (s + t)[3 * k..3 * k + 3] == s[3 * k..3 * k + 3]
  {
    forall k | 0 <= k < n
      ensures (s + t)[3 * k..3 * k + 3] == s[3 * k..3 * k + 3]
    {
      assert 3 * k + 3 <= |s|;
    }
  }

  /** The statistic id of one sensor for each inverter, in order. */
  method SensorStatistics(names: seq<string>, sensor: string) returns (ids: seq<string>)
    ensures |ids| == |names|
    ensures forall i :: 0 <= i < |names| ==> ids[i] == NamePrefix(names[i]) + sensor
  {
    ids := [];
    var i := 0;
    while i < |names|
      invariant 0 <= i <= |names|
      invariant |ids| == i
      invariant forall k :: 0 <= k < i ==> ids[k] == NamePrefix(names[k]) + sensor
    {
      var id := NamePrefix(names[i]) + sensor;
      ids := ids + [id];
      assert ids[i] == id;
      i := i + 1;
    }
  }

  /** The grid source: one import and one export statistic per inverter, in order. */
  method GridSource(names: seq<string>) returns (grid: EnergySource)
    ensures grid.Grid?
    ensures |grid.flowFrom| == |names| && |grid.flowTo| == |names|
    ensures grid.costAdjustmentDay == 0
    ensures forall i :: 0 <= i < |names| ==> grid.flowFrom[i] == NamePrefix(names[i]) + "grid_consumption_energy_total"
    ensures forall i :: 0 <= i < |names| ==> grid.flowTo[i] == NamePrefix(names[i]) + "feed_in_energy_total"
  {
    var flowFrom := SensorStatistics(names, "grid_consumption_energy_total");
    var flowTo := SensorStatistics(names, "feed_in_energy_total");
    grid := Grid(flowFrom, flowTo, 0);
  }

  /** `sources` holds the three sources of each of the first `n` inverters, in order. */
  ghost predicate SourcesFor(sources: seq<EnergySource>, names: seq<string>, n: nat)
  {
    && n <= |names|
    && |sources| == 3 * n
    && forall k :: 0 <= k < n ==> sources[3 * k..3 * k + 3] == InverterSources(names[k])
  }

  /** Appending the next inverter's sources covers one more inverter. */
  lemma ExtendSources(sources: seq<EnergySource>, names: seq<string>, n: nat)
    requires SourcesFor(sources, names, n) && n < |names|
    ensures SourcesFor(sources + InverterSources(names[n]), names, n + 1)
  {
    PrefixSlices(sources, InverterSources(names[n]), n);
    var extended := sources + InverterSources(names[n]);
    assert extended[3 * n..3 * n + 3] == InverterSources(names[n]);
  }

  /** The energy preferences: three sources per inverter in the order the inverters
      were added, then one grid source with one import and one export statistic per
      inverter, in the same order. */
  method EnergySources(names: seq<string>) returns (sources: seq<EnergySource>)
    ensures |sources| == 3 * |names| + 1
    ensures forall i :: 0 <= i < |names| ==> sources[3 * i..3 * i + 3] == InverterSources(names[i])
    ensures sources[3 * |names|].Grid?
    ensures var grid := sources[3 * |names|];
      && |grid.flowFrom| == |names| && |grid.flowTo| == |names|
      && grid.costAdjustmentDay == 0
      && (forall i :: 0 <= i < |names| ==> grid.flowFrom[i] == NamePrefix(names[i]) + "grid_consumption_energy_total")
      && (forall i :: 0 <= i < |names| ==> grid.flowTo[i] == NamePrefix(names[i]) + "feed_in_energy_total")
  {
    sources := [];
    var i := 0;
    while i < |names|
      invariant 0 <= i <= |names|
      invariant SourcesFor(sources, names, i)
    {
      ExtendSources(sources, names, i);
      sources := sources + InverterSources(names[i]);
      i := i + 1;
    }
    var grid := GridSource(names);
    PrefixSlices(sources, [grid], |names|);
    sources := sources + [grid];
  }

  // ---------------------------------------------------------------------------
  // The inverter_options step of the options flow

  /** The body of the inverter_options step: the options of the selected inverter
      become exactly the poll rate and maximum read the user gave (each only if
      given), in a copy of the options; the other inverters' options and the
      top-level settings are kept. */
  function UpdateInverterOptions(options: EntryOptions, selected: InverterId, pollRate: Option<int>, maxRead: Option<int>)
    : (r: EntryOptions)
    ensures r.settings == options.settings
    ensures r.inverters.Some? && selected in r.inverters.value
    ensures var mine := r.inverters.value[selected];
      && (PollRateKey in mine <==> pollRate.Some?)
      && (pollRate.Some? ==> mine[PollRateKey] == Number(pollRate.value))
      && (MaxReadKey in mine <==> maxRead.Some?)
      && (maxRead.Some? ==> mine[MaxReadKey] == Number(maxRead.value))
      && mine.Keys <= {PollRateKey, MaxReadKey}
    ensures forall id :: id != selected ==>
      (id in r.inverters.value <==> options.inverters.Some? && id in options.inverters.value)
    ensures forall id :: id != selected && id in r.inverters.value ==> r.inverters.value[id] == options.inverters.value[id]
  {
    var withPoll: Record := if pollRate.Some? then map[PollRateKey := Number(pollRate.value)] else map[];
    var mine := if maxRead.Some? then withPoll[MaxReadKey := Number(maxRead.value)] else withPoll;
    var all := if options.inverters.Some? then options.inverters.value else map[];
    EntryOptions(options.settings, Some(all[selected := mine]))
  }

  /** Saving the options twice with the same input is the same as saving them once. */
  lemma UpdateInverterOptionsIdempotent(options: EntryOptions, selected: InverterId, pollRate: Option<int>, maxRead: Option<int>)
    ensures var once := UpdateInverterOptions(options, selected, pollRate, maxRead);
      UpdateInverterOptions(once, selected, pollRate, maxRead) == once
  {
    var once := UpdateInverterOptions(options, selected, pollRate, maxRead);
    var twice := UpdateInverterOptions(once, selected, pollRate, maxRead);
    assert twice.inverters.value == once.inverters.value;
  }

  /** A poll rate saved for an inverter overrides its adapter's default when setup
      merges the options in. */
  lemma SavedPollRateOverridesAdapter(options: EntryOptions, selected: InverterId, pollRate: int, maxRead: Option<int>,
                                      stored: Record, adapterConfig: Record)
    ensures var saved := OptionsFor(UpdateInverterOptions(options, selected, Some(pollRate), maxRead), selected);
      PollRateKey in Merge(stored, adapterConfig, saved) && Merge(stored, adapterConfig, saved)[PollRateKey] == Number(pollRate)
  {
  }

  /** Saving options for one inverter changes nothing setup reads for another. */
  lemma SavedOptionsLeaveOthersAlone(options: EntryOptions, selected: InverterId, other: InverterId,
                                     pollRate: Option<int>, maxRead: Option<int>)
    requires other != selected
    ensures OptionsFor(UpdateInverterOptions(options, selected, pollRate, maxRead), other) == OptionsFor(options, other)
  {
  }

  /** Saving the options form empty brings back the adapter's defaults at setup. */
  lemma EmptyOptionsRestoreDefaults(options: EntryOptions, selected: InverterId, stored: Record, adapterConfig: Record)
    ensures Merge(stored, adapterConfig, OptionsFor(UpdateInverterOptions(options, selected, None, None), selected))
         == Merge(stored, adapterConfig, map[])
  {
    assert OptionsFor(UpdateInverterOptions(options, selected, None, None), selected) == map[];
  }

  // ---------------------------------------------------------------------------
  // Re-authentication after migration

  /** The adapter type offered for a migrated inverter (the `step` of the
      re-authentication flow): network adapters for a TCP or UDP inverter connected
      through "AUX", serial adapters for a serial one; anything else fails the
      flow's assertion. */
  function MigrationAdapterType(inverter: Record): (r: Option<AdapterType>)
    ensures r == Some(Network) <==>
      ModbusTypeKey in inverter && (inverter[ModbusTypeKey] == Proto(TCP) || inverter[ModbusTypeKey] == Proto(UDP))
      && InverterConnKey in inverter && inverter[InverterConnKey] == Text("AUX")
    ensures r == Some(Serial) <==> ModbusTypeKey in inverter && inverter[ModbusTypeKey] == Proto(SERIAL)
    ensures r != Some(Direct)
  {
    if ModbusTypeKey !in inverter then None
    else if inverter[ModbusTypeKey] == Proto(TCP) || inverter[ModbusTypeKey] == Proto(UDP) then
      if InverterConnKey in inverter && inverter[InverterConnKey] == Text("AUX") then Some(Network) else None
    else if inverter[ModbusTypeKey] == Proto(SERIAL) then Some(Serial)
    else None
  }

  /** The re-authentication flow: the entry's inverters and the queue of those whose
      adapter the user still has to choose. */
  class ReauthFlow {
    var inverters: map<InverterId, Record>
    var remaining: seq<InverterId>

    /** The queue holds each flagged inverter exactly once, and nothing else. */
    ghost predicate Valid()
      reads this
    {
      && (forall i, j :: 0 <= i < j < |remaining| ==> remaining[i] != remaining[j])
      && (forall i :: 0 <= i < |remaining| ==> remaining[i] in inverters && NeedsManualInputKey in inverters[remaining[i]])
      && (forall id :: id in inverters && NeedsManualInputKey in inverters[id] ==> id in remaining)
    }

    /** `async_step_reauth`: queue the flagged inverters in some order; the flow
        stops on its assertion when none is flagged. */
    constructor (entryInverters: map<InverterId, Record>)
      ensures Valid()
      ensures inverters == entryInverters
      ensures |remaining| > 0 <==> SomeNeedsManualInput(entryInverters)
    {
      inverters := entryInverters;
      var queue: seq<InverterId> := [];
      var left := entryInverters.Keys;
      while left != {}
        invariant left <= entryInverters.Keys
        invariant forall i, j :: 0 <= i < j < |queue| ==> queue[i] != queue[j]
        invariant forall i :: 0 <= i < |queue| ==>
          queue[i] in entryInverters && queue[i] !in left && NeedsManualInputKey in entryInverters[queue[i]]
        invariant forall id :: id in entryInverters && id !in left && NeedsManualInputKey in entryInverters[id] ==> id in queue
        decreases left
      {
        var id :| id in left;
        if NeedsManualInputKey in entryInverters[id] {
          queue := queue + [id];
        }
        left := left - {id};
      }
      remaining := queue;
      if |queue| > 0 {
        assert queue[0] in entryInverters && NeedsManualInputKey in entryInverters[queue[0]];
      }
      if SomeNeedsManualInput(entryInverters) {
        var id :| id in entryInverters && NeedsManualInputKey in entryInverters[id];
        assert id in queue;
      }
    }

    /** `complete_callback`: the head of the queue gets the chosen adapter and loses
        its flag; the flow finishes (and the entry is written) once the queue is empty. */
    method CompleteAdapter(adapterId: string) returns (finished: bool)
      requires Valid() && |remaining| > 0
      modifies this
      ensures Valid()
      ensures remaining == old(remaining[1..])
      ensures var head := old(remaining[0]);
        inverters == old(inverters)[head := old(inverters[head])[AdapterIdKey := Text(adapterId)] - {NeedsManualInputKey}]
      ensures finished <==> |remaining| == 0
      ensures finished ==> !SomeNeedsManualInput(inverters)
    {
      var head := remaining[0];
      remaining := remaining[1..];
      inverters := inverters[head := inverters[head][AdapterIdKey := Text(adapterId)] - {NeedsManualInputKey}];
      finished := |remaining| == 0;
    }
  }

  /** Which adapters the re-authentication flow offers for a migrated inverter that
      still needs one: network adapters when it was a TCP inverter behind "AUX",
      serial adapters when it was a serial one; any other flagged TCP inverter stops
      the flow on its assertion. */
  lemma {:induction false} MigratedAdapterChoice(t: Triple, v1: Record, migrated: Record)
    requires MigrateInverter(t, v1) == Success(migrated)
    ensures NeedsManualInputKey in migrated <==> NeedsManualInput(t.protocol, Conn(v1)) || NeedsManualInputKey in v1
    ensures t.protocol == TCP && Conn(v1) == Some(Text("AUX")) ==> MigrationAdapterType(migrated) == Some(Network)
    ensures t.protocol == SERIAL ==> MigrationAdapterType(migrated) == Some(Serial)
    ensures t.protocol == TCP && Conn(v1) != Some(Text("AUX")) ==> MigrationAdapterType(migrated).None?
  {
    assert !Rewritten(InverterConnKey);
    assert InverterConnKey in migrated <==> InverterConnKey in v1;
    assert InverterConnKey in v1 ==> migrated[InverterConnKey] == v1[InverterConnKey];
    assert migrated[ModbusTypeKey] == Proto(t.protocol);
  }
}
