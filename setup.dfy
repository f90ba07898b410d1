/** Setting up a version-2 config entry (async_setup_entry in __init__.py): every
    inverter's stored configuration is merged with its adapter's settings and its
    per-inverter options, one Modbus client is opened per distinct (modbus type,
    host) pair and shared by every inverter reached through it, a controller is
    created per inverter, and the entry asks for re-authentication when some
    inverter still needs its adapter chosen by hand. */
module Setup {
  import opened Common
  import opened Connection
  import opened Migration

  /** The pool key of a client: the inverter's modbus type and host. */
  datatype ClientKey = ClientKey(modbusType: Value, host: Value)

  /** A Modbus client; opening the connection itself is not part of this model. */
  class ModbusClient {
    const params: ClientParams

    constructor (params: ClientParams)
      ensures this.params == params
    {
      this.params := params;
    }
  }

  /** What the loop needs from one merged inverter. */
  datatype Prepared = Prepared(inverter: Record, key: ClientKey, params: ClientParams)

  /** One controller per inverter, holding the merged configuration it was built from. */
  datatype Controller = Controller(inverter: Record, slave: Value, pollRate: Value, maxRead: Value, client: ModbusClient)

  /** Why setup stops: a lookup raised KeyError, the adapter id is not in the adapter
      catalog, or the client parameters could not be built from the host. */
  datatype SetupError =
    | MissingKey(id: InverterId, key: Key)
    | UnknownAdapter(id: InverterId, adapterId: Value)
    | NoClient(id: InverterId, reason: ParamsError)

  /** Setup either loads, loads and then asks for re-authentication, or fails. */
  datatype SetupOutcome = Loaded | NeedsReauth | Failed(error: SetupError)

  /** The options stored for one inverter: `options.get(INVERTERS, {}).get(id)`,
      with a missing (or empty) entry contributing nothing. */
  function OptionsFor(options: EntryOptions, id: InverterId): (r: Record)
    ensures options.inverters.Some? && id in options.inverters.value ==> r == options.inverters.value[id]
    ensures options.inverters.None? || id !in options.inverters.value ==> r == map[]
  {
    if options.inverters.Some? && id in options.inverters.value then options.inverters.value[id] else map[]
  }

  /** The two `inverter.update(...)` calls: the adapter's settings override what is
      stored, the options override both, and no stored field is lost. */
  function Merge(stored: Record, adapterConfig: Record, overrides: Record): (r: Record)
    ensures r.Keys == stored.Keys + adapterConfig.Keys + overrides.Keys
    ensures forall k :: k in overrides ==> r[k] == overrides[k]
    ensures forall k :: k in adapterConfig && k !in overrides ==> r[k] == adapterConfig[k]
    ensures forall k :: k in stored && k !in adapterConfig && k !in overrides ==> r[k] == stored[k]
  {
    stored + adapterConfig + overrides
  }

  /** A flag raised on a stored inverter stays raised after the merge, whatever the
      adapter and the options set (they may change its value, never remove it). */
  lemma MergeKeepsManualInputFlag(stored: Record, adapterConfig: Record, overrides: Record)
    requires NeedsManualInputKey in stored
    ensures NeedsManualInputKey in Merge(stored, adapterConfig, overrides)
  {
  }

  /** Merging is idempotent: applying the same adapter settings and options to an
      already merged inverter changes nothing. */
  lemma {:induction false} MergeIdempotent(stored: Record, adapterConfig: Record, overrides: Record)
    ensures Merge(Merge(stored, adapterConfig, overrides), adapterConfig, overrides) == Merge(stored, adapterConfig, overrides)
  {
    var once := Merge(stored, adapterConfig, overrides);
    var twice := Merge(once, adapterConfig, overrides);
    assert twice.Keys == once.Keys;
    forall k | k in twice
      ensures twice[k] == once[k]
    {
      if k !in overrides && k !in adapterConfig {
        assert twice[k] == once[k];
      }
    }
  }

  /** The part of one loop iteration that depends on that inverter alone: the merge,
      the pool key and the parameters of its client, and the fields the controller
      reads, in the order the code reads them. */
  function PrepareInverter(id: InverterId, stored: Record, adapters: map<string, Record>, options: EntryOptions)
    : (r: Result<Prepared, SetupError>)
    ensures AdapterIdKey !in stored ==> r == Failure(MissingKey(id, AdapterIdKey))
    ensures AdapterIdKey in stored && !(stored[AdapterIdKey].Text? && stored[AdapterIdKey].s in adapters) ==>
      r == Failure(UnknownAdapter(id, stored[AdapterIdKey]))
    ensures r.Success? ==>
      && AdapterIdKey in stored && stored[AdapterIdKey].Text? && stored[AdapterIdKey].s in adapters
      && r.value.inverter == Merge(stored, adapters[stored[AdapterIdKey].s], OptionsFor(options, id))
      && ModbusTypeKey in r.value.inverter && HostKey in r.value.inverter
      && r.value.key == ClientKey(r.value.inverter[ModbusTypeKey], r.value.inverter[HostKey])
      && ParamsFor(r.value.key.modbusType, r.value.key.host) == Success(r.value.params)
      && ModbusSlaveKey in r.value.inverter && PollRateKey in r.value.inverter && MaxReadKey in r.value.inverter
      && Ready(r.value)
    // once the adapter is known, preparation succeeds exactly when the merged inverter has
    // a modbus type and a host a client can be built from, a slave, a poll rate and a max
    // read; otherwise the first missing one is reported
    ensures AdapterIdKey in stored && stored[AdapterIdKey].Text? && stored[AdapterIdKey].s in adapters ==>
      var m := Merge(stored, adapters[stored[AdapterIdKey].s], OptionsFor(options, id));
      && (r.Success? <==> ModbusTypeKey in m && HostKey in m && ParamsFor(m[ModbusTypeKey], m[HostKey]).Success?
                          && ModbusSlaveKey in m && PollRateKey in m && MaxReadKey in m)
      && (ModbusTypeKey !in m ==> r == Failure(MissingKey(id, ModbusTypeKey)))
      && (ModbusTypeKey in m && HostKey !in m ==> r == Failure(MissingKey(id, HostKey)))
      && (ModbusTypeKey in m && HostKey in m && ParamsFor(m[ModbusTypeKey], m[HostKey]).Failure? ==>
            r == Failure(NoClient(id, ParamsFor(m[ModbusTypeKey], m[HostKey]).error)))
    ensures r.Failure? ==> r.error.id == id
  {
    if AdapterIdKey !in stored then Failure(MissingKey(id, AdapterIdKey))
    else if !(stored[AdapterIdKey].Text? && stored[AdapterIdKey].s in adapters) then Failure(UnknownAdapter(id, stored[AdapterIdKey]))
    else
      var inverter := Merge(stored, adapters[stored[AdapterIdKey].s], OptionsFor(options, id));
      if ModbusTypeKey !in inverter then Failure(MissingKey(id, ModbusTypeKey))
      else if HostKey !in inverter then Failure(MissingKey(id, HostKey))
      else
        var key := ClientKey(inverter[ModbusTypeKey], inverter[HostKey]);
        match ParamsFor(key.modbusType, key.host)
        case Failure(e) => Failure(NoClient(id, e))
        case Success(params) =>
          if ModbusSlaveKey !in inverter then Failure(MissingKey(id, ModbusSlaveKey))
          else if PollRateKey !in inverter then Failure(MissingKey(id, PollRateKey))
          else if MaxReadKey !in inverter then Failure(MissingKey(id, MaxReadKey))
          else Success(Prepared(inverter, key, params))
  }

  /** An options entry can lift the need for manual input only by overriding the
      flag's value; the flag's key itself survives preparation. */
  lemma PreparedKeepsManualInputFlag(id: InverterId, stored: Record, adapters: map<string, Record>, options: EntryOptions)
    requires NeedsManualInputKey in stored
    requires PrepareInverter(id, stored, adapters, options).Success?
    ensures NeedsManualInputKey in PrepareInverter(id, stored, adapters, options).value.inverter
  {
  }

  /** A migrated inverter whose adapter could not be trusted still carries the flag
      once setup has merged it, whatever the adapter and the options add. */
  lemma {:induction false} MigratedFlagSurvivesSetup(t: Triple, v1: Record, migrated: Record, id: InverterId,
                                                    adapters: map<string, Record>, options: EntryOptions)
    requires MigrateInverter(t, v1) == Success(migrated)
    requires NeedsManualInput(t.protocol, Conn(v1))
    requires PrepareInverter(id, migrated, adapters, options).Success?
    ensures NeedsManualInputKey in PrepareInverter(id, migrated, adapters, options).value.inverter
  {
    PreparedKeepsManualInputFlag(id, migrated, adapters, options);
  }

  /** Setup looks a migrated inverter up under the adapter migration inferred for it. */
  lemma MigratedAdapterIsLookedUp(t: Triple, v1: Record, migrated: Record, id: InverterId,
                                  adapters: map<string, Record>, options: EntryOptions)
    requires MigrateInverter(t, v1) == Success(migrated)
    requires InferAdapter(t.protocol, Conn(v1)).value in adapters
    ensures var r := PrepareInverter(id, migrated, adapters, options);
      r.Success? ==> r.value.inverter == Merge(migrated, adapters[InferAdapter(t.protocol, Conn(v1)).value], OptionsFor(options, id))
    ensures PrepareInverter(id, migrated, adapters, options).Failure? ==>
      PrepareInverter(id, migrated, adapters, options).error.MissingKey? || PrepareInverter(id, migrated, adapters, options).error.NoClient?
  {
  }

  /** Every client in the pool is a distinct object opened with the parameters of its own key. */
  ghost predicate PoolValid(clients: map<ClientKey, ModbusClient>)
  {
    && (forall k :: k in clients ==> ParamsFor(k.modbusType, k.host) == Success(clients[k].params))
    && (forall k1, k2 :: k1 in clients && k2 in clients && k1 != k2 ==> clients[k1] != clients[k2])
  }

  /** `clients.get(client_key)`, opening and pooling a new client when there is none:
      the pool keeps every client it had and gains at most the one for `key`. */
  method Acquire(clients: map<ClientKey, ModbusClient>, key: ClientKey, params: ClientParams)
    returns (client: ModbusClient, clients': map<ClientKey, ModbusClient>)
    requires PoolValid(clients)
    requires ParamsFor(key.modbusType, key.host) == Success(params)
    ensures PoolValid(clients')
    ensures clients'.Keys == clients.Keys + {key}
    ensures forall k :: k in clients ==> clients'[k] == clients[k]
    ensures clients'[key] == client && client.params == params
    ensures key !in clients ==> fresh(client)
  {
    if key in clients {
      client, clients' := clients[key], clients;
    } else {
      client := new ModbusClient(params);
      clients' := clients[key := client];
    }
  }

  /** The controller for a prepared inverter on a pooled client. */
  ghost predicate Controls(c: Controller, p: Prepared, clients: map<ClientKey, ModbusClient>)
  {
    && c.inverter == p.inverter
    && ModbusSlaveKey in p.inverter && c.slave == p.inverter[ModbusSlaveKey]
    && PollRateKey in p.inverter && c.pollRate == p.inverter[PollRateKey]
    && MaxReadKey in p.inverter && c.maxRead == p.inverter[MaxReadKey]
    && p.key in clients
    && c.client == clients[p.key]
  }

  /** Some inverter of the entry fails to prepare. */
  ghost predicate SomeFails(inverters: map<InverterId, Record>, adapters: map<string, Record>, options: EntryOptions)
  {
    exists id :: id in inverters && PrepareInverter(id, inverters[id], adapters, options).Failure?
  }

  /** `preps[i]` is the preparation of the i-th visited inverter `order[i]`. */
  ghost predicate PreparedInOrder(inverters: map<InverterId, Record>, adapters: map<string, Record>, options: EntryOptions,
                                  order: seq<InverterId>, preps: seq<Prepared>)
  {
    && |preps| == |order|
    && forall i :: 0 <= i < |order| ==>
         order[i] in inverters && PrepareInverter(order[i], inverters[order[i]], adapters, options) == Success(preps[i])
  }

  /** Controllers and pool after the inverters in `order`: one controller per visited
      inverter, on the pooled client of its key, and no client without an inverter. */
  ghost predicate Wired(preps: seq<Prepared>, controllers: seq<Controller>, clients: map<ClientKey, ModbusClient>)
  {
    && |controllers| == |preps|
    && PoolValid(clients)
    && (forall i :: 0 <= i < |preps| ==> Controls(controllers[i], preps[i], clients))
    && (forall k :: k in clients ==> exists i :: 0 <= i < |preps| && preps[i].key == k)
  }

  lemma WiredExtend(preps: seq<Prepared>, controllers: seq<Controller>, clients: map<ClientKey, ModbusClient>,
                    p: Prepared, c: Controller, clients': map<ClientKey, ModbusClient>)
    requires Wired(preps, controllers, clients)
    requires PoolValid(clients')
    requires clients'.Keys == clients.Keys + {p.key}
    requires forall k :: k in clients ==> clients'[k] == clients[k]
    requires Controls(c, p, clients')
    ensures Wired(preps + [p], controllers + [c], clients')
  {
    var preps', controllers' := preps + [p], controllers + [c];
    forall i | 0 <= i < |preps'|
      ensures Controls(controllers'[i], preps'[i], clients')
    {
      if i < |preps| {
        assert controllers'[i] == controllers[i] && preps'[i] == preps[i];
      }
    }
    forall k | k in clients'
      ensures exists i :: 0 <= i < |preps'| && preps'[i].key == k
    {
      if k == p.key {
        assert preps'[|preps|].key == k;
      } else {
        var i :| 0 <= i < |preps| && preps[i].key == k;
        assert preps'[i].key == k;
      }
    }
  }

  /** A prepared inverter has what `create_controller` reads and a buildable client. */
  ghost predicate Ready(p: Prepared)
  {
    && ModbusSlaveKey in p.inverter && PollRateKey in p.inverter && MaxReadKey in p.inverter
    && ParamsFor(p.key.modbusType, p.key.host) == Success(p.params)
  }

  /** One inverter of the loop once prepared: take its client from the pool (opening
      it if needed) and append its controller (`create_controller`). */
  method Attach(ghost preps: seq<Prepared>, controllers: seq<Controller>, clients: map<ClientKey, ModbusClient>, p: Prepared)
    returns (controllers': seq<Controller>, clients': map<ClientKey, ModbusClient>)
    requires Wired(preps, controllers, clients)
    requires Ready(p)
    ensures Wired(preps + [p], controllers', clients')
    ensures forall k :: k in clients ==> k in clients' && clients'[k] == clients[k]
    ensures forall k :: k in clients' && k !in clients ==> fresh(clients'[k])
  {
    var client;
    client, clients' := Acquire(clients, p.key, p.params);
    var c := Controller(p.inverter, p.inverter[ModbusSlaveKey], p.inverter[PollRateKey], p.inverter[MaxReadKey], client);
    WiredExtend(preps, controllers, clients, p, c, clients');
    controllers' := controllers + [c];
  }

  lemma PreparedExtend(inverters: map<InverterId, Record>, adapters: map<string, Record>, options: EntryOptions,
                       order: seq<InverterId>, preps: seq<Prepared>, id: InverterId, p: Prepared)
    requires PreparedInOrder(inverters, adapters, options, order, preps)
    requires id in inverters && PrepareInverter(id, inverters[id], adapters, options) == Success(p)
    ensures PreparedInOrder(inverters, adapters, options, order + [id], preps + [p])
  {
    var order', preps' := order + [id], preps + [p];
    forall i | 0 <= i < |order'|
      ensures order'[i] in inverters && PrepareInverter(order'[i], inverters[order'[i]], adapters, options) == Success(preps'[i])
    {
      if i < |order| {
        assert order'[i] == order[i] && preps'[i] == preps[i];
      }
    }
  }

  lemma AllPrepared(inverters: map<InverterId, Record>, adapters: map<string, Record>, options: EntryOptions,
                    order: seq<InverterId>, preps: seq<Prepared>)
    requires PreparedInOrder(inverters, adapters, options, order, preps)
    requires forall id :: id in inverters ==> id in order
    ensures !SomeFails(inverters, adapters, options)
  {
    forall id | id in inverters
      ensures PrepareInverter(id, inverters[id], adapters, options).Success?
    {
      var i :| 0 <= i < |order| && order[i] == id;
    }
  }

  lemma ReauthIffFlagged(inverters: map<InverterId, Record>, adapters: map<string, Record>, options: EntryOptions,
                         order: seq<InverterId>, preps: seq<Prepared>)
    requires PreparedInOrder(inverters, adapters, options, order, preps)
    requires forall id :: id in inverters <==> id in order
    ensures (exists j :: 0 <= j < |preps| && NeedsManualInputKey in preps[j].inverter) <==>
      exists id :: id in inverters && NeedsManualInputKey in PrepareInverter(id, inverters[id], adapters, options).value.inverter
  {
    if exists j :: 0 <= j < |preps| && NeedsManualInputKey in preps[j].inverter {
      var j :| 0 <= j < |preps| && NeedsManualInputKey in preps[j].inverter;
      assert order[j] in inverters;
    }
    if exists id :: id in inverters && NeedsManualInputKey in PrepareInverter(id, inverters[id], adapters, options).value.inverter {
      var id :| id in inverters && NeedsManualInputKey in PrepareInverter(id, inverters[id], adapters, options).value.inverter;
      var j :| 0 <= j < |order| && order[j] == id;
      assert NeedsManualInputKey in preps[j].inverter;
    }
  }

  /** The loop of async_setup_entry over the entry's inverters, visited in an
      unspecified order (`order`): it stops at the first inverter that cannot be
      prepared; otherwise every inverter has a controller on the pooled client of its
      key, and every pooled client is a new one serving some inverter. */
  method ConnectAll(inverters: map<InverterId, Record>, options: EntryOptions, adapters: map<string, Record>)
    returns (error: Option<SetupError>, clients: map<ClientKey, ModbusClient>, controllers: seq<Controller>,
             ghost order: seq<InverterId>, ghost preps: seq<Prepared>)
    ensures error.Some? ==>
      exists id :: id in inverters && PrepareInverter(id, inverters[id], adapters, options) == Failure(error.value)
    ensures error.None? ==>
      && (forall i, j :: 0 <= i < j < |order| ==> order[i] != order[j])
      && (forall id :: id in inverters <==> id in order)
      && PreparedInOrder(inverters, adapters, options, order, preps)
      && Wired(preps, controllers, clients)
      && (forall k :: k in clients ==> fresh(clients[k]))
  {
    clients, controllers, order, preps := map[], [], [], [];
    var left := inverters.Keys;
    while left != {}
      invariant left <= inverters.Keys
      invariant forall i, j :: 0 <= i < j < |order| ==> order[i] != order[j]
      invariant forall id :: id in order <==> id in inverters && id !in left
      invariant PreparedInOrder(inverters, adapters, options, order, preps)
      invariant Wired(preps, controllers, clients)
      invariant forall k :: k in clients ==> fresh(clients[k])
      decreases left
    {
      var id :| id in left;
      var prepared := PrepareInverter(id, inverters[id], adapters, options);
      if prepared.Failure? {
        return Some(prepared.error), clients, controllers, order, preps;
      }
      var p := prepared.value;
      PreparedExtend(inverters, adapters, options, order, preps, id, p);
      ghost var pool := clients;
      controllers, clients := Attach(preps, controllers, clients, p);
      forall k | k in clients
        ensures fresh(clients[k])
      {
        if k in pool {
          assert clients[k] == pool[k];
        }
      }
      order, preps := order + [id], preps + [p];
      left := left - {id};
    }
    error := None;
  }

  /** The closing loop of async_setup_entry: some inverter still carries the flag. */
  method AnyNeedsManualInput(controllers: seq<Controller>) returns (flagged: bool)
    ensures flagged <==> exists j :: 0 <= j < |controllers| && NeedsManualInputKey in controllers[j].inverter
  {
    flagged := false;
    var i := 0;
    while i < |controllers|
      invariant 0 <= i <= |controllers|
      invariant flagged <==> exists j :: 0 <= j < i && NeedsManualInputKey in controllers[j].inverter
    {
      if NeedsManualInputKey in controllers[i].inverter {
        flagged := true;
      }
      i := i + 1;
    }
  }

  /** async_setup_entry: setup fails exactly when some inverter cannot be prepared,
      whatever the order; otherwise it loads, and asks for re-authentication exactly
      when some merged inverter still needs its adapter chosen by hand. */
  method SetupEntry(inverters: map<InverterId, Record>, options: EntryOptions, adapters: map<string, Record>)
    returns (outcome: SetupOutcome, clients: map<ClientKey, ModbusClient>, controllers: seq<Controller>,
             ghost order: seq<InverterId>, ghost preps: seq<Prepared>)
    ensures outcome.Failed? <==> SomeFails(inverters, adapters, options)
    ensures outcome.Failed? ==>
      exists id :: id in inverters && PrepareInverter(id, inverters[id], adapters, options) == Failure(outcome.error)
    ensures !outcome.Failed? ==>
      && (forall i, j :: 0 <= i < j < |order| ==> order[i] != order[j])
      && (forall id :: id in inverters <==> id in order)
      && PreparedInOrder(inverters, adapters, options, order, preps)
      && Wired(preps, controllers, clients)
      && (forall k :: k in clients ==> fresh(clients[k]))
    ensures outcome.NeedsReauth? <==>
      !SomeFails(inverters, adapters, options) &&
      exists id :: id in inverters && NeedsManualInputKey in PrepareInverter(id, inverters[id], adapters, options).value.inverter
  {
    var error;
    error, clients, controllers, order, preps := ConnectAll(inverters, options, adapters);
    if error.Some? {
      return Failed(error.value), clients, controllers, order, preps;
    }
    AllPrepared(inverters, adapters, options, order, preps);
    // The merged dictionaries are the entry's own, so the closing loop sees every update.
    var flagged := AnyNeedsManualInput(controllers);
    assert forall j :: 0 <= j < |controllers| ==> controllers[j].inverter == preps[j].inverter;
    ReauthIffFlagged(inverters, adapters, options, order, preps);
    outcome := if flagged then NeedsReauth else Loaded;
  }
}
