# foxess_modbus configuration core, modelled in Dafny

This project models the configuration logic of the FoxESS Modbus integration for
Home Assistant. That logic decides which inverters exist, how each one is reached
and with which settings. The register polling and decoding engine is not part of it.

- **Migration** (`migration.dfy`, `async_migrate_entry`):
  - A version-1 entry nests inverters as modbus type → host → friendly name. Migration flattens this into a version-2 map of fresh inverter ids.
  - Each inverter records its modbus type, host and name. A stored name of `"null"` becomes empty.
  - Each inverter gets an inferred adapter: `direct` for TCP over LAN, `usr_w610` for other TCP, `serial_other` for serial.
  - Any inverter that is not TCP over LAN is flagged as needing manual input.
  - When the entry had options, every new id gets the same poll rate and maximum read.
  - The method works through the three nested loops, one method per loop. The contract proves:
    - exactly one id per (modbus type, host, name) triple of the TCP, UDP and SERIAL groups, as a bijection `origin`/`idOf`;
    - each id holds the migration of its own inverter;
    - migration fails exactly when some inverter or the options cannot be migrated.
- **Setup** (`setup.dfy`, `async_setup_entry` lines 77-116):
  - Each inverter is merged with its adapter's settings, then with its per-inverter options. Options override the adapter, which overrides what is stored.
  - One `ModbusClient` object is opened per distinct (modbus type, host) key and shared by every inverter with that key. Its parameters come from the host string (`connection.dfy`).
  - Each inverter gets one controller.
  - Setup fails exactly when some inverter cannot be prepared. Otherwise it asks for re-authentication exactly when some merged inverter still carries the manual-input flag.
  - The inverters are visited in an unspecified order, and none of these facts depends on it.
- **Setup wizard and options flow** (`config_flow.dfy`):
  - `_with_default_form` dispatch and the inverter label.
  - Friendly-name acceptance and duplicate checks.
  - The duplicate-connection check and parameter building. The autodetection outcome is an input.
  - The wizard state as a class. Its invariant: no two added inverters share a name or a connection.
  - The entry data and the energy dashboard sources.
  - The per-inverter options update.
  - The re-authentication queue as a class. Its invariant: an inverter is queued exactly when it is flagged. When the queue empties, no inverter is flagged.
- **Validators** (`validation.dfy`): `Range`, `Min` and `Max` with inclusive bounds. `Time` delegates to a predicate passed in.
- **Shared parts:** `common.dfy` holds the vocabulary (keys, values, entry shapes). `text.dfy` holds Python's `str.split`, `int()` and `str()` on integers, with their round trips.

Model choices:
- Python dictionaries of inverter fields are `map<Key, Value>`.
- `uuid4` ids are drawn from a counter, which gives distinct fresh keys.
- `datetime.now()` is a parameter.
- The adapter catalog `ADAPTERS` is a parameter that maps an adapter id to its `inverter_config()`. Every catalog entry is assumed to be stored under its own `adapter_id`. So where migration writes `ADAPTERS[...].adapter_id`, the model writes the ids `direct`, `usr_w610` and `serial_other` directly.
- Iteration over a dictionary picks keys in an unspecified order.

The re-authentication step (`MigrationAdapterType`) offers network adapters only to a TCP or UDP inverter whose connection is `"AUX"`. A flagged TCP inverter with any other connection value stops that flow on its assertion. `MigratedAdapterChoice` states this for migrated inverters.

## Model

| member | source | states |
|---|---|---|
| `Text.Split` | custom_components/foxess_modbus/__init__.py:92 | `split(":")` yields at least one piece and no piece contains the separator |
| `Text.JoinSplit` | custom_components/foxess_modbus/__init__.py:92 | joining the pieces of a split with the separator gives back the original string |
| `Text.SplitJoin` | custom_components/foxess_modbus/config_flow.py:321 | splitting pieces that were joined (none containing the separator) gives back the pieces |
| `Text.ParseDigits` | custom_components/foxess_modbus/__init__.py:93 | a run of characters is read as a number exactly when it is non-empty and all ASCII digits |
| `Text.LeadingZeroIgnored` | custom_components/foxess_modbus/__init__.py:93 | a leading '0' does not change a numeral's value, so `int("0502") == int("502")` |
| `Text.ParseInt` | custom_components/foxess_modbus/__init__.py:93 | `int()` accepts exactly an optional '+' or '-' followed by a non-empty run of digits (so "+502" and "0502" but not "x5"); the value is that of the digits, negated under '-' |
| `Text.IntToString` | custom_components/foxess_modbus/config_flow.py:113 | `str(i)` is non-empty, starts with '-' exactly for a negative integer, is digits after that, and has no leading zero |
| `Text.ParseIntToString` | custom_components/foxess_modbus/config_flow.py:491 | `int(str(i)) == i` for every integer |
| `Connection.ParamsFor` | custom_components/foxess_modbus/__init__.py:90-95 | TCP/UDP: the host is the text before the first ':' and the port is the next piece read as an integer; a text host succeeds exactly when it has a second piece that reads as an integer, and a non-text host fails; anything else: the host string as the serial port at 9600 baud, never failing |
| `Connection.FirstPieceIsPrefix` | custom_components/foxess_modbus/__init__.py:92-93 | the first piece of a split containing ':' is exactly the text before the first ':' |
| `Connection.HostAndPortRoundTrip` | custom_components/foxess_modbus/config_flow.py:318-322 | the wizard's `f"{host}:{port}"` parsed back gives the same host and port whenever the host holds no ':' |
| `Connection.HostAndPort` | custom_components/foxess_modbus/config_flow.py:321 | `f"{host}:{port}"` starts with the host followed by ':' |
| `Connection.ColonHostDoesNotRoundTrip` | custom_components/foxess_modbus/config_flow.py:488-492 | for every host holding a ':', the joined host and port never parse back to a client for that host and port |
| `Connection.Ipv6HostDoesNotRoundTrip` | custom_components/foxess_modbus/config_flow.py:488-492 | an IPv6 literal such as "::1" with port 502 cannot be turned back into client parameters |
| `Migration.NormalName` | custom_components/foxess_modbus/__init__.py:143-144 | a stored name "null" becomes "", any other name is kept |
| `Migration.InferAdapter` | custom_components/foxess_modbus/__init__.py:149-157 | an adapter is inferred exactly for TCP with a recorded connection and for SERIAL; it is `direct` exactly for TCP over LAN, `usr_w610` for any other TCP and `serial_other` exactly for SERIAL; UDP has none (explicit error) |
| `Migration.InferAdapterAgreesOffUdp` | custom_components/foxess_modbus/__init__.py:149-156 | off UDP the inference does not depend on what an earlier inverter left in `adapter` |
| `Migration.AdapterAsWritten` | custom_components/foxess_modbus/__init__.py:149-157 | the inference as written: TCP needs a recorded connection (LAN gives `direct`, anything else `usr_w610`), SERIAL gives `serial_other`, and UDP yields exactly the adapter a previous inverter left, or none |
| `Migration.NeedsManualInput` | custom_components/foxess_modbus/__init__.py:160-161 | the adapter must be chosen by hand exactly when the inferred adapter is not the direct connection |
| `Migration.UdpInheritsPreviousAdapter` | custom_components/foxess_modbus/__init__.py:149-157 | as written, a UDP inverter after a LAN TCP one is given `direct`, and a UDP inverter first in line has no adapter |
| `Migration.MigrateInverter` | custom_components/foxess_modbus/__init__.py:143-161 | a migrated inverter records its modbus type, host and normalised name and the inferred adapter; the manual-input flag is raised exactly when it is not TCP over LAN; every other field is kept; it fails exactly when no adapter can be inferred |
| `Migration.SharedOptions` | custom_components/foxess_modbus/__init__.py:129-137 | without options nothing is shared; with options something is always shared, exactly POLL_RATE and MAX_READ copied from them, and it fails exactly when either is missing |
| `Migration.MigrateHost` | custom_components/foxess_modbus/__init__.py:142-165 | the inverters of one host are all migrated under fresh ids, keeping the id/triple bijection, or the failure of an inverter stored under that host is reported |
| `Migration.MigrateGroup` | custom_components/foxess_modbus/__init__.py:141-165 | every host of one modbus type is migrated, or the failure of an inverter of that modbus type is reported |
| `Migration.MigrateEntry` | custom_components/foxess_modbus/__init__.py:121-173 | only version 1 changes; the result is version 2 with the same save time, one id per triple of the TCP/UDP/SERIAL groups (a bijection), each holding its inverter's migration, with options, every id holds exactly the entry's POLL_RATE and MAX_READ; without options, the options untouched; it fails exactly when the options or some inverter cannot be migrated |
| `Migration.NoneFails` | custom_components/foxess_modbus/__init__.py:139-165 | once every triple has been migrated, no inverter of the entry fails |
| `Setup.OptionsFor` | custom_components/foxess_modbus/__init__.py:83-85 | the options of an inverter are its entry under INVERTERS, or nothing |
| `Setup.Merge` | custom_components/foxess_modbus/__init__.py:80-85 | options override adapter settings, which override stored fields; no stored field is lost |
| `Setup.MergeKeepsManualInputFlag` | custom_components/foxess_modbus/__init__.py:112-116 | a flag on the stored inverter is still present after merging |
| `Setup.MergeIdempotent` | custom_components/foxess_modbus/__init__.py:80-85 | merging the same adapter settings and options twice changes nothing more |
| `Setup.PrepareInverter` | custom_components/foxess_modbus/__init__.py:77-98 | an inverter without an adapter id, or with one not in the catalog, fails; otherwise it succeeds exactly when the merged inverter has a modbus type and a host that client parameters can be built from, a slave, a poll rate and a max read; a missing modbus type or host, or an unusable host, is reported as such; on success the merged inverter has the client key fields, parameters built from its key, and the fields a controller reads |
| `Setup.PreparedKeepsManualInputFlag` | custom_components/foxess_modbus/__init__.py:80-85 | preparation never removes the manual-input flag |
| `Setup.MigratedFlagSurvivesSetup` | custom_components/foxess_modbus/__init__.py:112-116 | a migrated inverter flagged for manual input still carries the flag once setup has merged it |
| `Setup.MigratedAdapterIsLookedUp` | custom_components/foxess_modbus/__init__.py:80 | setup merges a migrated inverter with the settings of the adapter migration inferred for it |
| `Setup.ModbusClient.constructor` | custom_components/foxess_modbus/__init__.py:96 | a client is opened with the parameters it is given |
| `Setup.Acquire` | custom_components/foxess_modbus/__init__.py:87-97 | the pool keeps every client it had, gains at most a new client for the key, and the client returned is the pooled one for the key |
| `Setup.Attach` | custom_components/foxess_modbus/__init__.py:87-98 | one more inverter gets its controller on the pooled client of its key, keeping all clients distinct |
| `Setup.ConnectAll` | custom_components/foxess_modbus/__init__.py:77-98 | either some inverter fails to prepare, or every inverter has exactly one controller on the shared client of its key, with one fresh, distinct client per key in use |
| `Setup.AnyNeedsManualInput` | custom_components/foxess_modbus/__init__.py:112-113 | true exactly when some controller's inverter carries the flag |
| `Setup.SetupEntry` | custom_components/foxess_modbus/__init__.py:77-116 | setup fails exactly when some inverter cannot be prepared, whatever the order; otherwise it loads and asks for re-authentication exactly when some merged inverter is flagged |
| `ConfigFlow.WithDefaultForm` | custom_components/foxess_modbus/config_flow.py:77-106 | without input the bare form is shown; the step finishes exactly when the body returns a result; an exception other than a validation failure escapes exactly when the body raises one; otherwise the form comes back with the input suggested and the raised errors, if any |
| `ConfigFlow.Label` | custom_components/foxess_modbus/config_flow.py:108-113 | "<name> - <host> (<slave>)" when the name is truthy, "<host> (<slave>)" otherwise; a missing field raises |
| `ConfigFlow.LabelShape` | custom_components/foxess_modbus/config_flow.py:108-113 | a label is its name-and-host head followed by the slave number and ")" |
| `ConfigFlow.IntToStringInjective` | custom_components/foxess_modbus/config_flow.py:113 | different slave numbers print differently |
| `ConfigFlow.LabelDistinguishesSlaves` | custom_components/foxess_modbus/config_flow.py:108-113 | two inverters with the same name and host but different slaves get different labels |
| `ConfigFlow.NameTaken` | custom_components/foxess_modbus/config_flow.py:415 | true exactly when an added inverter has the name |
| `ConfigFlow.IsWord` | custom_components/foxess_modbus/config_flow.py:411 | a name matching `\w+` is non-empty and holds no '.', ':' or space |
| `ConfigFlow.FriendlyNameError` | custom_components/foxess_modbus/config_flow.py:410-418 | "invalid_friendly_name" exactly for a non-empty name that is not a word; otherwise "duplicate_friendly_name" exactly when an added inverter has it (a second empty name included); an empty or word name that no added inverter has is accepted |
| `ConfigFlow.ModbusFlow.constructor` | custom_components/foxess_modbus/config_flow.py:122-125 | the wizard starts with an empty inverter and none added |
| `ConfigFlow.ModbusFlow.SubmitFriendlyName` | custom_components/foxess_modbus/config_flow.py:409-423 | a refused name changes nothing; an accepted one appends the current inverter with its name and starts a fresh one; no two added inverters share a name or a connection |
| `ConfigFlow.ConnectionTaken` | custom_components/foxess_modbus/config_flow.py:478-484 | true exactly when an added inverter has the same protocol, host and slave |
| `ConfigFlow.ModbusFlow.AutodetectAndSave` | custom_components/foxess_modbus/config_flow.py:474-512 | a taken connection is refused before any parameters are built; otherwise the parameters are those setup builds; an unparsable host escapes; unsupported and unreachable inverters give their error keys; only a detection records the models, protocol, slave and host |
| `ConfigFlow.ModbusFlow.CreateEntryData` | custom_components/foxess_modbus/config_flow.py:455-472 | exactly one record per added inverter under distinct fresh ids, each copied from that inverter, plus the save time |
| `ConfigFlow.EntryRecord` | custom_components/foxess_modbus/config_flow.py:460-469 | the stored record holds exactly the eight fields copied from the inverter data and no manual-input flag |
| `ConfigFlow.EntryRecordsKeepConnectionsApart` | custom_components/foxess_modbus/config_flow.py:460-469 | inverters with different connections get records with different (modbus type, host, slave) |
| `ConfigFlow.NamePrefix` | custom_components/foxess_modbus/config_flow.py:521-525 | "sensor.<name>_" for a non-empty name, "sensor." for the empty name |
| `ConfigFlow.NamePrefixInjective` | custom_components/foxess_modbus/config_flow.py:521-525 | different names give different prefixes |
| `ConfigFlow.StatisticIdsDistinct` | custom_components/foxess_modbus/config_flow.py:527-561 | different names give different statistic ids for the same sensor |
| `ConfigFlow.PrefixSlices` | custom_components/foxess_modbus/config_flow.py:530 | extending the source list keeps the sources already there |
| `ConfigFlow.InverterSourcesAreOwn` | custom_components/foxess_modbus/config_flow.py:530-544 | each inverter contributes two solar sources and a battery, and every statistic they name is one of its own sensors |
| `ConfigFlow.GridSource` | custom_components/foxess_modbus/config_flow.py:546-560 | one import and one export statistic per inverter, in order, cost adjustment 0 |
| `ConfigFlow.EnergySources` | custom_components/foxess_modbus/config_flow.py:514-561 | pv1 solar, pv2 solar and battery for each inverter in order, then one grid source |
| `ConfigFlow.UpdateInverterOptions` | custom_components/foxess_modbus/config_flow.py:626-641 | the selected inverter's options become exactly the given poll rate and max read; other inverters and the settings are kept |
| `ConfigFlow.UpdateInverterOptionsIdempotent` | custom_components/foxess_modbus/config_flow.py:626-641 | saving the same options twice is saving them once |
| `ConfigFlow.SavedPollRateOverridesAdapter` | custom_components/foxess_modbus/config_flow.py:628-630 | a saved poll rate is what setup uses, whatever the adapter default |
| `ConfigFlow.SavedOptionsLeaveOthersAlone` | custom_components/foxess_modbus/config_flow.py:636-639 | saving one inverter's options changes nothing setup reads for another |
| `ConfigFlow.EmptyOptionsRestoreDefaults` | custom_components/foxess_modbus/config_flow.py:627-633 | saving an empty form brings back the adapter defaults at setup |
| `ConfigFlow.MigrationAdapterType` | custom_components/foxess_modbus/config_flow.py:220-232 | network adapters exactly for TCP/UDP behind "AUX", serial adapters exactly for SERIAL, never direct |
| `ConfigFlow.MigratedAdapterChoice` | custom_components/foxess_modbus/config_flow.py:220-232 | a migrated TCP inverter behind "AUX" is offered network adapters, a serial one serial adapters, any other TCP one none |
| `ConfigFlow.ReauthFlow.constructor` | custom_components/foxess_modbus/config_flow.py:141-157 | the queue holds each flagged inverter exactly once and is non-empty exactly when some inverter is flagged |
| `ConfigFlow.ReauthFlow.CompleteAdapter` | custom_components/foxess_modbus/config_flow.py:246-267 | the head leaves the queue, gets the chosen adapter and loses its flag; the flow finishes exactly when the queue is empty, and then no inverter is flagged |
| `Validation.Validate` | custom_components/foxess_modbus/entities/validation.py:9-51 | Range accepts exactly min <= d <= max, Min exactly d >= min, Max exactly d <= max, Time exactly what the time predicate says |
| `Validation.RangeIsMinAndMax` | custom_components/foxess_modbus/entities/validation.py:9-43 | a range accepts exactly what its Min and its Max both accept |
| `Validation.BoundsAreInclusive` | custom_components/foxess_modbus/entities/validation.py:17 | both bounds are accepted |
| `Validation.EmptyRangeRejectsAll` | custom_components/foxess_modbus/entities/validation.py:17 | a range with min > max accepts nothing |
| `Validation.RangeMonotone` | custom_components/foxess_modbus/entities/validation.py:14-17 | widening a range never rejects a value it accepted |

## Left out

- A version-1 entry without a save time raises KeyError at `__init__.py:127`. The model's version-1 data always carries a save time, so this error path is not modelled.
- Home Assistant calls (forms, menus, entry creation and update, reloads, platform forwarding, service registration, the energy manager update) are I/O. The model returns what they would receive.
- `ModbusClient` connections and `ModbusController.autodetect` are network I/O in files not modelled. The autodetection outcome is an input (`Detection`), and a client is its parameters.
- `inverter_connection_type_profile_from_config` and the controller itself are not part of this model. A `Controller` holds the merged inverter, its slave, poll rate, maximum read and client.
- `uuid4` ids are a counter and `datetime.now()` is a parameter. Dictionary order is an unspecified choice, so the ids are distinct but their assignment to inverters is not pinned down.
- In-place aliasing is not captured:
  - migration updates the version-1 inverter dictionaries in place;
  - every migrated id shares one options dictionary object;
  - setup merges the adapter settings and the options into the entry's own version-2 inverter dictionaries, so a reload after an options change merges into records that were already merged once, and the re-authentication flow writes those merged records back to the entry.

  The model copies values instead. `Setup.SetupEntry` always starts from records that have not been merged. Merging the same settings and options twice gives the same result (`Setup.MergeIdempotent`). But a value left behind by an earlier merge, such as a key that only the settings of an adapter since replaced in re-authentication supply, survives in the code and not in the model.
- `int()` accepts only an optional sign and ASCII digits here. Python also allows surrounding whitespace, underscores and other Unicode digits.
- `\w` is ASCII letters, digits and underscore. Python's Unicode word characters are not modelled.
- Label formatting of a modbus type uses display names ("tcp", "udp", "serial"), because the string values of those constants are not part of this model.
- `Setup.PrepareInverter`: it evaluates the client parameters for every inverter, while the code builds them only when the key has no client yet. The parameters depend only on the key, so the outcome is the same.
- The UI-only steps are not modelled:
  - adapter type and model selection;
  - TCP/serial connection forms;
  - inverter selection in `async_step_init`;
  - the suggested values in the options form.

  They only route to the modelled bodies.
- Float comparison in the validators is modelled on `real`, with no rounding.

## Findings

| source | as written | input that shows it | evidently intended | confidence | as-written member | corrected member |
|---|---|---|---|---|---|---|
| custom_components/foxess_modbus/__init__.py:149-157 | `adapter` is assigned only for TCP and SERIAL, so a UDP inverter reads whatever `adapter` holds | a version-1 entry with a LAN TCP inverter visited before a UDP inverter: the UDP inverter is recorded with adapter `direct`; with the UDP inverter visited first, `adapter` is unbound and migration raises | a UDP inverter is not given another inverter's adapter: like every non-LAN inverter it is flagged for manual input, and its adapter is chosen by hand in the re-authentication flow; the model reports the missing inference as an explicit migration error, which is the model's own choice | high (not executed) | `Migration.AdapterAsWritten`, `Migration.UdpInheritsPreviousAdapter` | `Migration.InferAdapter` |
