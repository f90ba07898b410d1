/** Migration of a version-1 config entry to version 2 (async_migrate_entry in
    __init__.py): the nested modbus type -> host -> friendly name -> inverter
    dictionary is flattened into a map of fresh inverter ids, each inverter
    recording where it came from, its inferred adapter and whether the user must
    still choose the adapter by hand. */
module Migration {
  import opened Common

  /** Where a version-1 inverter sat in the nested dictionary. */
  datatype Triple = Triple(protocol: Protocol, host: string, name: string)

  datatype MigrationError =
    | MissingInverterConn       // inverter[INVERTER_CONN] of a TCP inverter raises KeyError
    | AdapterUnbound            // a UDP inverter reaches `adapter.adapter_id` with no adapter of its own
    | MissingOption(key: Key)   // options[POLL_RATE] or options[MAX_READ] raises KeyError

  const DirectAdapter := "direct"
  const W610Adapter := "usr_w610"
  const SerialOtherAdapter := "serial_other"

  /** The connection kind a version-1 inverter recorded ("LAN" or "AUX"), if any. */
  function Conn(inverter: Record): Option<Value>
  {
    if InverterConnKey in inverter then Some(inverter[InverterConnKey]) else None
  }

  predicate IsLanTcp(protocol: Protocol, conn: Option<Value>)
  {
    protocol == TCP && conn == Some(Text("LAN"))
  }

  /** A friendly name stored as "null" in version 1 is the empty name. */
  function NormalName(name: string): (r: string)
    ensures name == "null" ==> r == ""
    ensures name != "null" ==> r == name
  {
    if name == "null" then "" else name
  }

  /** The adapter inference exactly as written: `adapter` is a variable of the
      enclosing loop, so a UDP inverter, which no branch assigns, reads whatever the
      previous inverter left there, or nothing at all for the first inverter. */
  function AdapterAsWritten(protocol: Protocol, conn: Option<Value>, previous: Option<string>): (r: Result<string, MigrationError>)
    // TCP needs a recorded connection: LAN means direct, anything else the W610
    ensures protocol == TCP ==> (r.Success? <==> conn.Some?)
    ensures protocol == TCP && r.Success? ==> (r.value == DirectAdapter <==> conn == Some(Text("LAN")))
    ensures protocol == TCP && r.Success? && conn != Some(Text("LAN")) ==> r.value == W610Adapter
    ensures protocol == SERIAL ==> r == Success(SerialOtherAdapter)
    // UDP assigns nothing, so it sees whatever `adapter` held before, if anything
    ensures protocol == UDP ==> (r.Success? <==> previous.Some?) && (r.Success? ==> r.value == previous.value)
  {
    match protocol
    case TCP =>
      if conn.None? then Failure(MissingInverterConn)
      else if conn == Some(Text("LAN")) then Success(DirectAdapter)
      else Success(W610Adapter)
    case SERIAL => Success(SerialOtherAdapter)
    case UDP =>
      if previous.None? then Failure(AdapterUnbound) else Success(previous.value)
  }

  /** The inferred adapter with the UDP gap made explicit: a LAN TCP inverter talks to
      the inverter directly, any other TCP inverter is assumed to be behind the
      weakest network adapter (the W610), a serial one behind a generic serial
      adapter, and a UDP inverter has no inferred adapter. */
  function InferAdapter(protocol: Protocol, conn: Option<Value>): (r: Result<string, MigrationError>)
    ensures r.Success? <==> (protocol == TCP && conn.Some?) || protocol == SERIAL
    ensures r.Success? ==> (r.value == DirectAdapter <==> IsLanTcp(protocol, conn))
    ensures r.Success? ==> (r.value == SerialOtherAdapter <==> protocol == SERIAL)
    ensures r.Success? && protocol == TCP && !IsLanTcp(protocol, conn) ==> r.value == W610Adapter
    ensures protocol == UDP ==> r == Failure(AdapterUnbound)
  {
    if protocol == UDP then Failure(AdapterUnbound) else AdapterAsWritten(protocol, conn, None)
  }

  /** Off UDP the explicit inference agrees with the code whatever came before. */
  lemma InferAdapterAgreesOffUdp(protocol: Protocol, conn: Option<Value>, previous: Option<string>)
    requires protocol != UDP
    ensures InferAdapter(protocol, conn) == AdapterAsWritten(protocol, conn, previous)
  {
  }

  /** The gap as written: after a LAN TCP inverter, a UDP inverter is recorded as
      talking to its inverter directly, and as the first inverter it has no adapter. */
  lemma UdpInheritsPreviousAdapter(conn: Option<Value>)
    ensures AdapterAsWritten(TCP, Some(Text("LAN")), None) == Success(DirectAdapter)
    ensures AdapterAsWritten(UDP, conn, Some(DirectAdapter)) == Success(DirectAdapter)
    ensures AdapterAsWritten(UDP, conn, None) == Failure(AdapterUnbound)
  {
  }

  /** The user must pick the adapter by hand unless the inverter is a LAN TCP one,
      that is, unless the inferred adapter is the direct connection. */
  function NeedsManualInput(protocol: Protocol, conn: Option<Value>): (needed: bool)
    ensures needed <==> InferAdapter(protocol, conn) != Success(DirectAdapter)
  {
    protocol != TCP || conn != Some(Text("LAN"))
  }

  predicate Rewritten(k: Key)
  {
    k == ModbusTypeKey || k == HostKey || k == FriendlyNameKey || k == AdapterIdKey || k == NeedsManualInputKey
  }

  /** Every field migration does not rewrite is carried over unchanged. */
  ghost predicate KeepsOthers(before: Record, after: Record)
  {
    forall k :: !Rewritten(k) ==> (k in after <==> k in before) && (k in before ==> after[k] == before[k])
  }

  /** One inverter of the inner loop (lines 143-161). */
  function MigrateInverter(t: Triple, inverter: Record): (r: Result<Record, MigrationError>)
    ensures r.Success? <==> InferAdapter(t.protocol, Conn(inverter)).Success?
    ensures r.Failure? ==> r.error == InferAdapter(t.protocol, Conn(inverter)).error
    ensures r.Success? ==>
      && ModbusTypeKey in r.value && r.value[ModbusTypeKey] == Proto(t.protocol)
      && HostKey in r.value && r.value[HostKey] == Text(t.host)
      && FriendlyNameKey in r.value && r.value[FriendlyNameKey] == Text(NormalName(t.name))
      && AdapterIdKey in r.value && r.value[AdapterIdKey] == Text(InferAdapter(t.protocol, Conn(inverter)).value)
    // the flag is raised exactly when the adapter cannot be trusted; otherwise it is left as found
    ensures r.Success? && NeedsManualInput(t.protocol, Conn(inverter)) ==>
      NeedsManualInputKey in r.value && r.value[NeedsManualInputKey] == Flag(true)
    ensures r.Success? && !NeedsManualInput(t.protocol, Conn(inverter)) ==>
      (NeedsManualInputKey in r.value <==> NeedsManualInputKey in inverter) &&
      (NeedsManualInputKey in inverter ==> r.value[NeedsManualInputKey] == inverter[NeedsManualInputKey])
    // every other field is kept
    ensures r.Success? ==> KeepsOthers(inverter, r.value)
  {
    var conn := Conn(inverter);
    var named := inverter[ModbusTypeKey := Proto(t.protocol)][HostKey := Text(t.host)][FriendlyNameKey := Text(NormalName(t.name))];
    match InferAdapter(t.protocol, conn)
    case Failure(e) => Failure(e)
    case Success(adapterId) =>
      var adapted := named[AdapterIdKey := Text(adapterId)];
      if NeedsManualInput(t.protocol, conn) then Success(adapted[NeedsManualInputKey := Flag(true)])
      else Success(adapted)
  }

  /** `t` names an inverter of the version-1 dictionary. */
  predicate IsTriple(groups: V1Groups, t: Triple)
  {
    ProtocolGroup(t.protocol) in groups && t.host in groups[ProtocolGroup(t.protocol)]
    && t.name in groups[ProtocolGroup(t.protocol)][t.host]
  }

  function InverterAt(groups: V1Groups, t: Triple): Record
    requires IsTriple(groups, t)
  {
    groups[ProtocolGroup(t.protocol)][t.host][t.name]
  }

  /** The version-1 groups of an entry; data already in the flat shape has no
      modbus-type keys at its top level, so it yields none. */
  function GroupsOf(data: EntryData): V1Groups
  {
    if data.V1Data? then data.groups else map[]
  }

  /** The per-inverter options every migrated inverter receives, if the version-1
      entry had options at all. */
  function SharedOptions(options: EntryOptions): (r: Result<Option<Record>, MigrationError>)
    ensures !OptionsPresent(options) ==> r == Success(None)
    ensures r.Success? ==> (r.value.Some? <==> OptionsPresent(options))
    ensures r.Failure? <==> OptionsPresent(options) && (PollRateKey !in options.settings || MaxReadKey !in options.settings)
    ensures r.Success? && r.value.Some? ==>
      && OptionsPresent(options)
      && r.value.value.Keys == {PollRateKey, MaxReadKey}
      && r.value.value[PollRateKey] == options.settings[PollRateKey]
      && r.value.value[MaxReadKey] == options.settings[MaxReadKey]
  {
    if !OptionsPresent(options) then Success(None)
    else if PollRateKey !in options.settings then Failure(MissingOption(PollRateKey))
    else if MaxReadKey !in options.settings then Failure(MissingOption(MaxReadKey))
    else Success(Some(map[PollRateKey := options.settings[PollRateKey], MaxReadKey := options.settings[MaxReadKey]]))
  }

  /** `origin` and `idOf` are inverse bijections between inverter ids and triples. */
  ghost predicate Bijection(origin: map<InverterId, Triple>, idOf: map<Triple, InverterId>)
  {
    && (forall id {:trigger id in origin} :: id in origin ==> origin[id] in idOf && idOf[origin[id]] == id)
    && (forall t {:trigger t in idOf} :: t in idOf ==> idOf[t] in origin && origin[idOf[t]] == t)
  }

  /** Triples visited once the loop over hosts has left `hostsLeft` of the group of
      `protocol`: all triples of the groups outside `groupsLeft`, and those of the
      visited hosts of the current group. */
  ghost predicate HostsVisited(groups: V1Groups, t: Triple, groupsLeft: set<GroupKey>,
                               protocol: Protocol, hostsLeft: set<string>)
  {
    IsTriple(groups, t) &&
    (ProtocolGroup(t.protocol) !in groupsLeft || (t.protocol == protocol && t.host !in hostsLeft))
  }

  /** ... and, within the current host, the names outside `namesLeft`. */
  ghost predicate NamesVisited(groups: V1Groups, t: Triple, groupsLeft: set<GroupKey>,
                               protocol: Protocol, hostsLeft: set<string>, host: string, namesLeft: set<string>)
  {
    HostsVisited(groups, t, groupsLeft, protocol, hostsLeft) ||
    (IsTriple(groups, t) && t.protocol == protocol && t.host == host && t.name !in namesLeft)
  }

  /** The inverter at `t` migrates to `migrated`. */
  ghost predicate MigratesTo(groups: V1Groups, t: Triple, migrated: Record)
  {
    IsTriple(groups, t) && MigrateInverter(t, InverterAt(groups, t)) == Success(migrated)
  }

  /** Ids are exactly 0 .. next-1. */
  ghost predicate Numbered(origin: map<InverterId, Triple>, next: nat)
  {
    forall id: int :: id in origin <==> 0 <= id < next
  }

  ghost predicate TriplesExist(groups: V1Groups, origin: map<InverterId, Triple>, idOf: map<Triple, InverterId>)
  {
    && (forall t :: t in idOf ==> IsTriple(groups, t))
    && (forall id :: id in origin ==> IsTriple(groups, origin[id]))
  }

  /** Every id holds the migration of the inverter it came from. */
  ghost predicate AllMigrated(groups: V1Groups, inverters: map<InverterId, Record>, origin: map<InverterId, Triple>)
  {
    && inverters.Keys == origin.Keys
    && forall id {:trigger inverters[id]} :: id in origin ==> MigratesTo(groups, origin[id], inverters[id])
  }

  /** Every id carries the shared options, when there are any. */
  ghost predicate SharedEverywhere(shared: Option<Record>, perInverter: map<InverterId, Record>, origin: map<InverterId, Triple>)
  {
    && (shared.Some? ==> perInverter.Keys == origin.Keys && forall id :: id in perInverter ==> perInverter[id] == shared.value)
    && (shared.None? ==> perInverter == map[])
  }

  /** The state of the migration after visiting some triples. */
  ghost predicate Progress(groups: V1Groups, shared: Option<Record>, next: nat,
                           inverters: map<InverterId, Record>, perInverter: map<InverterId, Record>,
                           origin: map<InverterId, Triple>, idOf: map<Triple, InverterId>)
  {
    && Bijection(origin, idOf)
    && Numbered(origin, next)
    && TriplesExist(groups, origin, idOf)
    && AllMigrated(groups, inverters, origin)
    && SharedEverywhere(shared, perInverter, origin)
  }

  lemma ExtendBijection(origin: map<InverterId, Triple>, idOf: map<Triple, InverterId>, next: InverterId, t: Triple)
    requires Bijection(origin, idOf)
    requires next !in origin && t !in idOf
    ensures Bijection(origin[next := t], idOf[t := next])
  {
  }

  lemma ExtendNumbered(origin: map<InverterId, Triple>, next: nat, t: Triple)
    requires Numbered(origin, next)
    ensures Numbered(origin[next := t], next + 1)
  {
  }

  lemma ExtendTriples(groups: V1Groups, origin: map<InverterId, Triple>, idOf: map<Triple, InverterId>, next: nat, t: Triple)
    requires TriplesExist(groups, origin, idOf) && IsTriple(groups, t)
    ensures TriplesExist(groups, origin[next := t], idOf[t := next])
  {
  }

  lemma ExtendMigrated(groups: V1Groups, inverters: map<InverterId, Record>, origin: map<InverterId, Triple>,
                       next: InverterId, t: Triple, migrated: Record)
    requires AllMigrated(groups, inverters, origin)
    requires MigratesTo(groups, t, migrated)
    ensures AllMigrated(groups, inverters[next := migrated], origin[next := t])
  {
    assert inverters[next := migrated].Keys == inverters.Keys + {next};
    assert origin[next := t].Keys == origin.Keys + {next};
    EachMigrated(groups, inverters, origin, next, t, migrated);
  }

  /** The per-id half of ExtendMigrated: every id, old or new, still holds its migration. */
  lemma EachMigrated(groups: V1Groups, inverters: map<InverterId, Record>, origin: map<InverterId, Triple>,
                     next: InverterId, t: Triple, migrated: Record)
    requires inverters.Keys == origin.Keys
    requires forall id {:trigger inverters[id]} :: id in origin ==> MigratesTo(groups, origin[id], inverters[id])
    requires MigratesTo(groups, t, migrated)
    ensures forall id {:trigger inverters[next := migrated][id]} :: id in origin[next := t] ==>
      MigratesTo(groups, origin[next := t][id], inverters[next := migrated][id])
  {
    var inverters', origin' := inverters[next := migrated], origin[next := t];
    forall id | id in origin'
      ensures MigratesTo(groups, origin'[id], inverters'[id])
    {
      if id != next {
        MigratesToKept(groups, origin[id], inverters[id], origin'[id], inverters'[id]);
      }
    }
  }

  /** The same triple and record still migrate to each other. */
  lemma MigratesToKept(groups: V1Groups, t: Triple, migrated: Record, t': Triple, migrated': Record)
    requires MigratesTo(groups, t, migrated)
    requires t' == t && migrated' == migrated
    ensures MigratesTo(groups, t', migrated')
  {
  }

  lemma ExtendShared(shared: Option<Record>, perInverter: map<InverterId, Record>, origin: map<InverterId, Triple>, next: nat, t: Triple)
    requires SharedEverywhere(shared, perInverter, origin)
    ensures SharedEverywhere(shared, if shared.Some? then perInverter[next := shared.value] else perInverter, origin[next := t])
  {
  }

  /** Recording one more migrated inverter under the next fresh id keeps the state consistent. */
  lemma Extend(groups: V1Groups, shared: Option<Record>, next: nat,
               inverters: map<InverterId, Record>, perInverter: map<InverterId, Record>,
               origin: map<InverterId, Triple>, idOf: map<Triple, InverterId>, t: Triple, migrated: Record)
    requires Progress(groups, shared, next, inverters, perInverter, origin, idOf)
    requires t !in idOf
    requires MigratesTo(groups, t, migrated)
    ensures Progress(groups, shared, next + 1, inverters[next := migrated],
                     if shared.Some? then perInverter[next := shared.value] else perInverter,
                     origin[next := t], idOf[t := next])
  {
    assert next !in origin;
    ExtendBijection(origin, idOf, next, t);
    ExtendNumbered(origin, next, t);
    ExtendTriples(groups, origin, idOf, next, t);
    ExtendMigrated(groups, inverters, origin, next, t, migrated);
    ExtendShared(shared, perInverter, origin, next, t);
  }

  /** A failure of some inverter of the version-1 dictionary. */
  ghost predicate FailsAt(groups: V1Groups, e: MigrationError)
  {
    exists t :: IsTriple(groups, t) && MigrateInverter(t, InverterAt(groups, t)) == Failure(e)
  }

  /** A failure of an inverter stored under `host` in the group of `protocol`. */
  ghost predicate FailsUnderHost(groups: V1Groups, protocol: Protocol, host: string, e: MigrationError)
    requires ProtocolGroup(protocol) in groups && host in groups[ProtocolGroup(protocol)]
  {
    exists name :: name in groups[ProtocolGroup(protocol)][host] &&
      MigrateInverter(Triple(protocol, host, name), groups[ProtocolGroup(protocol)][host][name]) == Failure(e)
  }

  /** A failure of an inverter in the group of `protocol`. */
  ghost predicate FailsInGroup(groups: V1Groups, protocol: Protocol, e: MigrationError)
  {
    exists t :: IsTriple(groups, t) && t.protocol == protocol && MigrateInverter(t, InverterAt(groups, t)) == Failure(e)
  }

  /** The innermost loop: the inverters stored under one host of one modbus type,
      each migrated and recorded under the next fresh id, until one fails. */
  method MigrateHost(groups: V1Groups, shared: Option<Record>, ghost groupsLeft: set<GroupKey>,
                     protocol: Protocol, ghost hostsLeft: set<string>, host: string,
                     next: nat, inverters: map<InverterId, Record>, perInverter: map<InverterId, Record>,
                     ghost origin: map<InverterId, Triple>, ghost idOf: map<Triple, InverterId>)
    returns (error: Option<MigrationError>, next': nat, inverters': map<InverterId, Record>, perInverter': map<InverterId, Record>,
             ghost origin': map<InverterId, Triple>, ghost idOf': map<Triple, InverterId>)
    requires ProtocolGroup(protocol) in groups && host in groups[ProtocolGroup(protocol)]
    requires ProtocolGroup(protocol) in groupsLeft && host in hostsLeft
    requires Progress(groups, shared, next, inverters, perInverter, origin, idOf)
    requires forall t :: t in idOf <==> HostsVisited(groups, t, groupsLeft, protocol, hostsLeft)
    ensures error.Some? ==> FailsUnderHost(groups, protocol, host, error.value) && FailsAt(groups, error.value)
    ensures error.None? ==>
      && Progress(groups, shared, next', inverters', perInverter', origin', idOf')
      && forall t :: t in idOf' <==> HostsVisited(groups, t, groupsLeft, protocol, hostsLeft - {host})
  {
    next', inverters', perInverter', origin', idOf' := next, inverters, perInverter, origin, idOf;
    var named := groups[ProtocolGroup(protocol)][host];
    var namesLeft := named.Keys;
    while namesLeft != {}
      invariant namesLeft <= named.Keys
      invariant Progress(groups, shared, next', inverters', perInverter', origin', idOf')
      invariant forall t :: t in idOf' <==> NamesVisited(groups, t, groupsLeft, protocol, hostsLeft, host, namesLeft)
      decreases namesLeft
    {
      var name :| name in namesLeft;
      var t := Triple(protocol, host, name);
      assert IsTriple(groups, t) && InverterAt(groups, t) == named[name];
      var migrated := MigrateInverter(t, named[name]);
      if migrated.Failure? {
        assert MigrateInverter(Triple(protocol, host, name), named[name]) == Failure(migrated.error);
        return Some(migrated.error), next', inverters', perInverter', origin', idOf';
      }
      assert MigratesTo(groups, t, migrated.value);
      Extend(groups, shared, next', inverters', perInverter', origin', idOf', t, migrated.value);
      inverters' := inverters'[next' := migrated.value];
      if shared.Some? {
        perInverter' := perInverter'[next' := shared.value];
      }
      VisitName(groups, idOf', groupsLeft, protocol, hostsLeft, host, namesLeft, name, next');
      origin' := origin'[next' := t];
      idOf' := idOf'[t := next'];
      next' := next' + 1;
      namesLeft := namesLeft - {name};
    }
    HostDone(groups, idOf', groupsLeft, protocol, hostsLeft, host);
    error := None;
  }

  /** Visiting one more name of the current host adds exactly its triple. */
  lemma VisitName(groups: V1Groups, idOf: map<Triple, InverterId>, groupsLeft: set<GroupKey>, protocol: Protocol,
                  hostsLeft: set<string>, host: string, namesLeft: set<string>, name: string, next: InverterId)
    requires ProtocolGroup(protocol) in groups && host in groups[ProtocolGroup(protocol)]
    requires name in namesLeft && name in groups[ProtocolGroup(protocol)][host]
    requires forall t :: t in idOf <==> NamesVisited(groups, t, groupsLeft, protocol, hostsLeft, host, namesLeft)
    ensures forall t :: t in idOf[Triple(protocol, host, name) := next] <==>
      NamesVisited(groups, t, groupsLeft, protocol, hostsLeft, host, namesLeft - {name})
  {
  }

  /** Once every name of the current host is visited, the host counts as visited. */
  lemma HostDone(groups: V1Groups, idOf: map<Triple, InverterId>, groupsLeft: set<GroupKey>, protocol: Protocol,
                 hostsLeft: set<string>, host: string)
    requires ProtocolGroup(protocol) in groupsLeft
    requires forall t :: t in idOf <==> NamesVisited(groups, t, groupsLeft, protocol, hostsLeft, host, {})
    ensures forall t :: t in idOf <==> HostsVisited(groups, t, groupsLeft, protocol, hostsLeft - {host})
  {
  }

  /** The middle loop: every host of one modbus type. */
  method MigrateGroup(groups: V1Groups, shared: Option<Record>, ghost groupsLeft: set<GroupKey>, protocol: Protocol,
                      next: nat, inverters: map<InverterId, Record>, perInverter: map<InverterId, Record>,
                      ghost origin: map<InverterId, Triple>, ghost idOf: map<Triple, InverterId>)
    returns (error: Option<MigrationError>, next': nat, inverters': map<InverterId, Record>, perInverter': map<InverterId, Record>,
             ghost origin': map<InverterId, Triple>, ghost idOf': map<Triple, InverterId>)
    requires ProtocolGroup(protocol) in groups && ProtocolGroup(protocol) in groupsLeft
    requires Progress(groups, shared, next, inverters, perInverter, origin, idOf)
    requires forall t :: t in idOf <==> IsTriple(groups, t) && ProtocolGroup(t.protocol) !in groupsLeft
    ensures error.Some? ==> FailsInGroup(groups, protocol, error.value) && FailsAt(groups, error.value)
    ensures error.None? ==>
      && Progress(groups, shared, next', inverters', perInverter', origin', idOf')
      && forall t :: t in idOf' <==> IsTriple(groups, t) && ProtocolGroup(t.protocol) !in groupsLeft - {ProtocolGroup(protocol)}
  {
    next', inverters', perInverter', origin', idOf' := next, inverters, perInverter, origin, idOf;
    var hosts := groups[ProtocolGroup(protocol)];
    var hostsLeft := hosts.Keys;
    while hostsLeft != {}
      invariant hostsLeft <= hosts.Keys
      invariant Progress(groups, shared, next', inverters', perInverter', origin', idOf')
      invariant forall t :: t in idOf' <==> HostsVisited(groups, t, groupsLeft, protocol, hostsLeft)
      decreases hostsLeft
    {
      var host :| host in hostsLeft;
      error, next', inverters', perInverter', origin', idOf' :=
        MigrateHost(groups, shared, groupsLeft, protocol, hostsLeft, host, next', inverters', perInverter', origin', idOf');
      if error.Some? {
        HostFailureInGroup(groups, protocol, host, error.value);
        return;
      }
      hostsLeft := hostsLeft - {host};
    }
    GroupDone(groups, idOf', groupsLeft, protocol);
    error := None;
  }

  /** A failure under one host is a failure of its modbus type's group. */
  lemma HostFailureInGroup(groups: V1Groups, protocol: Protocol, host: string, e: MigrationError)
    requires ProtocolGroup(protocol) in groups && host in groups[ProtocolGroup(protocol)]
    requires FailsUnderHost(groups, protocol, host, e)
    ensures FailsInGroup(groups, protocol, e)
  {
    var name :| name in groups[ProtocolGroup(protocol)][host] &&
      MigrateInverter(Triple(protocol, host, name), groups[ProtocolGroup(protocol)][host][name]) == Failure(e);
    assert IsTriple(groups, Triple(protocol, host, name));
  }

  /** Once every host of the group is visited, the group counts as visited. */
  lemma GroupDone(groups: V1Groups, idOf: map<Triple, InverterId>, groupsLeft: set<GroupKey>, protocol: Protocol)
    requires forall t :: t in idOf <==> HostsVisited(groups, t, groupsLeft, protocol, {})
    ensures forall t :: t in idOf <==> IsTriple(groups, t) && ProtocolGroup(t.protocol) !in groupsLeft - {ProtocolGroup(protocol)}
  {
  }

  /** async_migrate_entry: only a version-1 entry changes. Its inverters are
      flattened into fresh ids (one per modbus type, host and name, for the TCP,
      UDP and SERIAL groups only), the save time is carried over, and when the entry
      had options every new id gets the same POLL_RATE and MAX_READ; otherwise the
      options are left as they were. `origin` and `idOf` record which id came from
      which triple. */
  method MigrateEntry(entry: ConfigEntry)
    returns (r: Result<ConfigEntry, MigrationError>, ghost origin: map<InverterId, Triple>, ghost idOf: map<Triple, InverterId>)
    ensures entry.version != 1 ==> r == Success(entry)
    ensures entry.version == 1 && r.Success? ==>
      && r.value.version == 2
      && r.value.data.V2Data?
      && r.value.data.saveTime == entry.data.saveTime
      && Bijection(origin, idOf)
      && (forall t :: t in idOf <==> IsTriple(GroupsOf(entry.data), t))
      && r.value.data.inverters.Keys == origin.Keys
      && (forall id :: id in origin ==>
            MigrateInverter(origin[id], InverterAt(GroupsOf(entry.data), origin[id])) == Success(r.value.data.inverters[id]))
    ensures entry.version == 1 && r.Success? ==>
      match SharedOptions(entry.options)
      case Failure(_) => false
      case Success(None) => r.value.options == entry.options
      case Success(Some(shared)) =>
        && r.value.options.settings == map[]
        && r.value.options.inverters.Some?
        && r.value.options.inverters.value.Keys == origin.Keys
        && forall id :: id in origin ==> r.value.options.inverters.value[id] == shared
    // an entry with options gives every new id the same POLL_RATE and MAX_READ
    ensures entry.version == 1 && r.Success? && OptionsPresent(entry.options) ==>
      && r.value.options.inverters.Some?
      && r.value.options.inverters.value.Keys == origin.Keys
      && forall id :: id in origin ==>
           r.value.options.inverters.value[id] ==
             map[PollRateKey := entry.options.settings[PollRateKey], MaxReadKey := entry.options.settings[MaxReadKey]]
    ensures entry.version == 1 ==>
      (r.Failure? <==> SharedOptions(entry.options).Failure? || exists e :: FailsAt(GroupsOf(entry.data), e))
  {
    origin, idOf := map[], map[];
    if entry.version != 1 {
      return Success(entry), origin, idOf;
    }
    var groups := GroupsOf(entry.data);
    var sharedOrError := SharedOptions(entry.options);
    if sharedOrError.Failure? {
      return Failure(sharedOrError.error), origin, idOf;
    }
    var shared := sharedOrError.value;

    var inverters: map<InverterId, Record> := map[];
    var perInverter: map<InverterId, Record> := map[];
    var next: nat := 0;
    var groupsLeft := groups.Keys;
    while groupsLeft != {}
      invariant groupsLeft <= groups.Keys
      invariant Progress(groups, shared, next, inverters, perInverter, origin, idOf)
      invariant forall t :: t in idOf <==> IsTriple(groups, t) && ProtocolGroup(t.protocol) !in groupsLeft
      decreases groupsLeft
    {
      var group :| group in groupsLeft;
      if group.ProtocolGroup? {
        var error;
        error, next, inverters, perInverter, origin, idOf :=
          MigrateGroup(groups, shared, groupsLeft, group.protocol, next, inverters, perInverter, origin, idOf);
        if error.Some? {
          return Failure(error.value), origin, idOf;
        }
      }
      groupsLeft := groupsLeft - {group};
    }
    NoneFails(groups, origin, idOf, inverters);

    var options := if shared.Some? then EntryOptions(map[], Some(perInverter)) else entry.options;
    r := Success(ConfigEntry(2, V2Data(inverters, entry.data.saveTime), options));
  }

  /** Once every triple has migrated, no inverter fails. */
  lemma NoneFails(groups: V1Groups, origin: map<InverterId, Triple>, idOf: map<Triple, InverterId>,
                  inverters: map<InverterId, Record>)
    requires Bijection(origin, idOf) && AllMigrated(groups, inverters, origin)
    requires forall t :: t in idOf <==> IsTriple(groups, t)
    ensures forall e :: !FailsAt(groups, e)
  {
    forall e, t | IsTriple(groups, t)
      ensures MigrateInverter(t, InverterAt(groups, t)) != Failure(e)
    {
      var id := idOf[t];
      assert MigratesTo(groups, origin[id], inverters[id]);
    }
  }
}
