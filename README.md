# PyMammotion orchestration core in Dafny

A model of three sequential pieces of the PyMammotion library, which controls
Mammotion robotic mowers over BLE and over the cloud MQTT broker.

- **Device registry and cloud-session bookkeeping** (`pymammotion/mammotion/devices/mammotion.py`).
  - `MixedDeviceManager` is the per-mower record. It is a class whose optional BLE handle and optional cloud handle are replaced in place; its preference is set once, by the constructor.
  - `MammotionDevices` is the name-to-record registry. Adding merges per transport kind. Removing reports the broker it disconnects.
  - `Mammotion` owns the registry, the brokers keyed by account (`mqtt_list`) and the last cloud gateway. It holds the login decision, the account reconciliation loop, and routing by preference.
  - `Mammotion.Valid` keeps the invariant that every registered device has at least one transport handle. `Register` (given a handle), `ReconcileOne`, `Reconcile` and removal preserve it.
  - The process-wide singleton with its class-level dictionaries is one explicit `Mammotion` object.
  - Brokers (`MammotionCloud`) are objects, because the program compares them by identity.
  - BLE and cloud handles, BLE peripherals, cloud device descriptors and the cloud gateway are values.
- **Map-frame accumulation** (`pymammotion/data/model/hash_list.py`).
  - `HashList` is a class with three `hash -> FrameList` maps, given to its constructor, that `Update` reassigns.
  - `AddHashData` is `_add_hash_data` as written. Its duplicate test compares the fragment with a list of hash integers, so it never matches. A new hash therefore stores its fragment twice, and every redelivery is appended again.
  - `AddHashDataDedup` is the evidently intended accumulation (see Findings).
- **Path-order encoding** (`pymammotion/data/model/device_config.py`).
  - `FillPathOrder` fills an eight-slot array the way `create_path_order` fills its `bytearray`.
  - `CreatePathOrder` then decodes the buffer with a strict UTF-8 decoder (module `Utf8`), as `bytearray.decode()` does.
  - The family tests `DeviceType.is_luba1/is_yuka/is_luba_2` are passed in as predicates on the device name.

Network steps are not modelled but appear at the interface:
- The login exchange's result is a parameter of `LoginAndInitiateCloud`.
- The broker on which `connect_async` is started is returned by `InitiateCloudConnection`.
- The broker whose `disconnect()` is called is returned by `RemoveDevice`, which marks it disconnected (`Broker.Disconnect`).
- The transport call a command makes is returned as a `Dispatch` value.

What the code does in the cases it leaves open:
- The duplicate test of `_add_hash_data` (hash_list.py:38-39) never matches, so an exact redelivery grows the frame list (see Findings).
- A command for an unknown device name returns `None` without raising (`NoDispatch`).
- Under the EITHER preference a command reaches no transport and returns `None` (`NoDispatch`). The code marks this case `TODO` (mammotion.py:257, 267, 276, 285).
- A preferred handle that is absent is a method call on `None` (`MissingHandle`).
- A second login for an account whose broker has not connected yet builds a second broker and drops the first without disconnecting it (see Findings).

A byte of 0x80 or more in the path order does not always make decoding fail: `NonAsciiPairDecodes` shows two such bytes forming one character.

## Model

| member | source | states |
|---|---|---|
| Devices.Broker.constructor | pymammotion/mammotion/devices/mammotion.py:180-191 | a new broker (`MammotionCloud`) keeps the gateway it was built from and is not connected |
| Devices.Broker.OnConnected | pymammotion/mammotion/devices/mammotion.py:195-196 | the connection `connect_async` started comes up: the broker reports connected |
| Devices.Broker.Disconnect | pymammotion/mammotion/devices/mammotion.py:117 | after `disconnect()` the broker reports not connected |
| Devices.MammotionDevices.constructor | pymammotion/mammotion/devices/mammotion.py:92-93 | the registry starts empty |
| Devices.MixedDeviceManager.constructor | pymammotion/mammotion/devices/mammotion.py:43-55 | a new record has a fresh mowing state, a handle for each device given and none otherwise, and the given preference |
| Devices.MixedDeviceManager.AddBle | pymammotion/mammotion/devices/mammotion.py:66-68 | a given peripheral becomes the BLE handle; None changes nothing; the cloud handle and preference are untouched |
| Devices.MixedDeviceManager.AddCloud | pymammotion/mammotion/devices/mammotion.py:70-74 | the cloud handle becomes the descriptor bound to the given broker; BLE handle and preference untouched |
| Devices.MixedDeviceManager.ReplaceCloud | pymammotion/mammotion/devices/mammotion.py:76-77 | the cloud handle is replaced; nothing else changes |
| Devices.MixedDeviceManager.ReplaceBle | pymammotion/mammotion/devices/mammotion.py:79-80 | the BLE handle is replaced; nothing else changes |
| Devices.MixedDeviceManager.ReplaceMqtt | pymammotion/mammotion/devices/mammotion.py:82-83 | the cloud handle is rebound to the new broker and keeps its descriptor; requires an existing cloud handle, which the program dereferences |
| Devices.Register | pymammotion/mammotion/devices/mammotion.py:95-103 | a new name stores the entry; an existing name keeps its preference, takes each handle kind the newcomer has (last writer wins) and keeps each kind the newcomer lacks; other names unchanged; keys grow by exactly the name; a newcomer with a handle keeps every entry reachable over some transport |
| Devices.MammotionDevices.AddDevice | pymammotion/mammotion/devices/mammotion.py:95-103 | a new name inserts the given record object; an existing name keeps its record object (so name, preference and mowing state) and the registry's contents become `Register` of the old contents |
| Devices.MammotionDevices.GetDevice | pymammotion/mammotion/devices/mammotion.py:105-106 | returns the record stored under the name, or None exactly when the name is not registered |
| Devices.BrokerToDisconnect | pymammotion/mammotion/devices/mammotion.py:110-117 | a broker is disconnected exactly when the removed entry had a cloud handle and no remaining entry is bound to the same broker object; that broker is the removed entry's |
| Devices.MammotionDevices.RemoveDevice | pymammotion/mammotion/devices/mammotion.py:108-117 | an absent name is a KeyError and changes nothing; otherwise the name is removed, every other entry is unchanged, and the broker to disconnect is `BrokerToDisconnect` of the old contents; that broker is disconnected, and a broker still shared keeps its connection |
| Devices.BleThenCloudRegistration | pymammotion/mammotion/devices/mammotion.py:95-103 | registering BLE then cloud under "Luba-1" gives one entry with both handles and the BLE registration's preference |
| Devices.SharedBrokerTeardown | pymammotion/mammotion/devices/mammotion.py:108-117 | with two records on one broker, removing the first disconnects nothing and removing the second disconnects the broker |
| Reconciliation.IsMowerName | pymammotion/mammotion/devices/mammotion.py:201 | a name is a mower's exactly when its first five characters are "Luba-" or "Yuka-" |
| Reconciliation.ReconcileOne | pymammotion/mammotion/devices/mammotion.py:199-214 | a name without a "Luba-"/"Yuka-" prefix changes nothing; a new mower gets a cloud-only WIFI entry on the current broker; a known mower ends bound to the current broker, keeping an existing descriptor; BLE handles and preferences are never touched; every entry keeps a handle |
| Reconciliation.Reconcile | pymammotion/mammotion/devices/mammotion.py:199-214 | the whole listing, in order; if every entry had a transport handle before, every entry has one after |
| Reconciliation.ReconcileKeys | pymammotion/mammotion/devices/mammotion.py:199-209 | reconciliation adds exactly the prefixed names of the account listing to the registry's keys |
| Reconciliation.ReconcileKeepsBleAndPreference | pymammotion/mammotion/devices/mammotion.py:210-214 | every registered device keeps its BLE handle and preference through the whole loop |
| Reconciliation.ReconcileLeavesOthers | pymammotion/mammotion/devices/mammotion.py:199-214 | a registered device the listing does not name is left exactly as it was |
| Reconciliation.ReconcileBindsMowers | pymammotion/mammotion/devices/mammotion.py:199-214 | after the loop every prefixed device of the listing is registered with a cloud handle bound to the current broker |
| Reconciliation.ReconcileFixedPoint | pymammotion/mammotion/devices/mammotion.py:173-177 | when every prefixed device is already bound to the broker, re-running reconciliation changes nothing |
| Reconciliation.ReconcileIdempotent | pymammotion/mammotion/devices/mammotion.py:173-177 | reconciling twice with the same broker equals reconciling once, so re-announcing a connected account is harmless |
| Orchestrator.Route | pymammotion/mammotion/devices/mammotion.py:249-285 | BLUETOOTH reaches the BLE handle and WIFI the cloud handle, with the request unchanged; EITHER and an unknown name reach no transport; an absent preferred handle is an error |
| Orchestrator.Mammotion.constructor | pymammotion/mammotion/devices/mammotion.py:136-152 | the orchestrator starts with an empty registry, no brokers and no cloud gateway |
| Orchestrator.Mammotion.AddBleDevice | pymammotion/mammotion/devices/mammotion.py:154-160 | a given peripheral is registered under its name with a BLE handle and the given preference; None leaves the registry's records unchanged; every record registered before is still registered under its name as the same object, so it keeps its mowing state |
| Orchestrator.Mammotion.LoginAndInitiateCloud | pymammotion/mammotion/devices/mammotion.py:162-170 | a login happens exactly when the account has no broker or `force` is set, otherwise the broker's gateway is reused; a connected broker is reused with reconciliation only; otherwise a fresh, not yet connected broker from the chosen gateway replaces the account's entry and reconciliation follows; every record registered before is still registered under its name as the same object, so it keeps its mowing state |
| Orchestrator.Mammotion.InitiateCloudConnection | pymammotion/mammotion/devices/mammotion.py:172-196 | a connected broker for the account means no new broker, unchanged `mqtt_list` and gateway, and reconciliation on that broker; otherwise a fresh broker, not yet connected, is stored under the account, the gateway is recorded, reconciliation runs on the new broker, and it is returned as the one to connect; every record registered before is still registered under its name as the same object, so it keeps its mowing state |
| Orchestrator.Mammotion.InitiateCloudConnectionReleasing | pymammotion/mammotion/devices/mammotion.py:172-196 | intended: the same outcomes as `InitiateCloudConnection` (reuse of a connected broker with reconciliation only; otherwise a fresh unconnected broker stored under the account, the gateway recorded, reconciliation on it); every record registered before is still registered under its name as the same object, so it keeps its mowing state; in addition a broker replaced because it is not connected is handed back to be disconnected, so every broker that leaves `mqtt_list` is released |
| Orchestrator.Mammotion.AddCloudDevices | pymammotion/mammotion/devices/mammotion.py:198-214 | the registry's contents after the loop are `Reconcile` of the old contents over the broker's account listing, in order; every record registered before is still registered under its name as the same object, so it keeps its mowing state; known mowers are updated in place |
| Orchestrator.Mammotion.AddCloudDevice | pymammotion/mammotion/devices/mammotion.py:199-214 | one loop iteration changes the registry's contents as `ReconcileOne` says; every record registered before is still registered under its name as the same object, so it keeps its mowing state |
| Orchestrator.Mammotion.BindKnownMower | pymammotion/mammotion/devices/mammotion.py:210-214 | for a registered mower, attaching or rebinding its cloud handle changes the contents as `ReconcileOne` says |
| Orchestrator.Mammotion.RemoveDevice | pymammotion/mammotion/devices/mammotion.py:243-244 | delegates to the registry: a KeyError on an absent name and nothing changes; otherwise exactly that key is removed, every other record stays as the same object, the broker handed back is `BrokerToDisconnect` of the old contents and is disconnected, and a shared broker keeps its connection |
| Orchestrator.Mammotion.GetDeviceByName | pymammotion/mammotion/devices/mammotion.py:246-247 | the record registered under the name, or None exactly when there is none |
| Orchestrator.Mammotion.RouteRequest | pymammotion/mammotion/devices/mammotion.py:249-285 | the dispatch is `Route` of the name's current entry |
| Orchestrator.Mammotion.SendCommand | pymammotion/mammotion/devices/mammotion.py:249-257 | `command(key)` goes where `Route` says for the device; an unknown name reaches no transport |
| Orchestrator.Mammotion.SendCommandWithArgs | pymammotion/mammotion/devices/mammotion.py:259-267 | `command(key, **kwargs)` goes where `Route` says; an unknown name reaches no transport |
| Orchestrator.Mammotion.StartSync | pymammotion/mammotion/devices/mammotion.py:269-276 | `start_sync(retry)` goes where `Route` says; an unknown name reaches no transport |
| Orchestrator.Mammotion.StartMapSync | pymammotion/mammotion/devices/mammotion.py:278-285 | `start_map_sync()` goes where `Route` says; an unknown name reaches no transport |
| Orchestrator.Mammotion.Mower | pymammotion/mammotion/devices/mammotion.py:287-290 | the mowing state of the registered record, or None exactly when the name is unknown |
| Orchestrator.LoginTwiceWithoutForce | pymammotion/mammotion/devices/mammotion.py:162-196 | two calls without `force` for a new account, its broker having connected in between, make one login and create one broker, and the account keeps the first gateway |
| Orchestrator.LoginTwiceBeforeConnect | pymammotion/mammotion/devices/mammotion.py:162-196 | as written: the same two calls before the first broker connects make one login but create two brokers; the first, still unconnected, is held by no account |
| Orchestrator.RemoveLastThenLogin | pymammotion/mammotion/devices/mammotion.py:108-117 | removing the last device bound to an account's connected broker hands that broker back disconnected; the next login without `force` then reuses its gateway but stores a new broker for the account |
| Orchestrator.ConnectTwiceReleasing | pymammotion/mammotion/devices/mammotion.py:172-196 | intended: the second connection attempt before the first broker connects hands the first broker back to be disconnected |
| HashFrames.MessageEqualsInt | pymammotion/data/model/hash_list.py:39 | a `NavGetCommDataAck` never equals an integer |
| HashFrames.InIntList | pymammotion/data/model/hash_list.py:39 | `hash_data in hash_values` over the integer list is never true |
| HashFrames.HashValues | pymammotion/data/model/hash_list.py:38 | the list holds the hash of each stored fragment, in order |
| HashFrames.AddHashData | pymammotion/data/model/hash_list.py:34-40 | as written: a new hash ends with [f, f] and f's frame count; a known hash keeps its frame count and grows by exactly f at the end; other hashes unchanged; hash consistency preserved |
| HashFrames.RedeliveryGrows | pymammotion/data/model/hash_list.py:38-40 | as written, delivering the same fragment again grows its list by one |
| HashFrames.IngestAllCounts | pymammotion/data/model/hash_list.py:35-40 | as written, from empty: a hash is stored iff it was seen; seen n times it holds n + 1 fragments; its frame count is that of the first fragment with that hash |
| HashFrames.AddHashDataDedup | pymammotion/data/model/hash_list.py:34-40 | intended: a new hash holds [f]; a stored equal fragment changes nothing; otherwise f is appended; frame count fixed by the first fragment; no-duplicates and hash consistency preserved |
| HashFrames.DedupIdempotent | pymammotion/data/model/hash_list.py:38-40 | intended accumulation absorbs exact redelivery |
| HashFrames.IngestAllDedupNoDuplicates | pymammotion/data/model/hash_list.py:35-40 | intended accumulation from empty never stores a fragment twice, and stores each under its own hash |
| HashFrames.RedeliveryScenario | pymammotion/data/model/hash_list.py:35-40 | fragments A, B, A of one three-frame hash: the intended result is [A, B]; as written it is [A, A, B, A] |
| HashFrames.HashList.constructor | pymammotion/data/model/hash_list.py:12-20 | the three dictionaries are the ones given; empty ones form a valid map |
| HashFrames.HashList.Update | pymammotion/data/model/hash_list.py:22-31 | type 0, 1 and 2 go to area, obstacle and path alone; any other type leaves all three unchanged; if each dictionary held only fragments of its type under their own hash, it still does |
| HashFrames.HashList.UpdateDedup | pymammotion/data/model/hash_list.py:22-31 | the same routing with the intended duplicate test |
| DeviceConfig.DefaultOperationSettings | pymammotion/data/model/device_config.py:22-41 | the defaults mow and dump without edge work (Yuka mode 12), with border mode 1, one obstacle lap and grass frequency 10 |
| DeviceConfig.PathOrderBytes | pymammotion/data/model/device_config.py:46-66 | the buffer has eight bytes, with bytes 2 and 7 zero |
| DeviceConfig.CalculateYukaMode | pymammotion/data/model/device_config.py:70-85 | the mode is 8·is_mow + 4·is_dump + 2·is_edge, so it is even and within 0..14 |
| DeviceConfig.PathOrderLayout | pymammotion/data/model/device_config.py:46-66 | eight bytes: border mode, obstacle laps, 0, start progress, then toward mode, 0, 0 on a Luba 1, or 0, the family mode (Yuka mode, else 8 on a Luba 2, else 0), the grass frequency when dumping else 10, then 0 |
| DeviceConfig.StoredFieldsBound | pymammotion/data/model/device_config.py:48-66 | when the stored fields are bytes (ASCII bytes), every byte of the buffer is |
| DeviceConfig.FillPathOrder | pymammotion/data/model/device_config.py:46-66 | fails with a range error exactly when a stored field is outside 0..255; otherwise the buffer is the path-order layout |
| DeviceConfig.CreatePathOrder | pymammotion/data/model/device_config.py:45-67 | a range error exactly when a stored field is not a byte; otherwise the UTF-8 decoding of the layout or a decode error; with all stored fields in 0..127, eight characters whose code points are the bytes |
| DeviceConfig.NonAsciiPairDecodes | pymammotion/data/model/device_config.py:67 | border mode 0xC3 and obstacle laps 0xA9 decode, as "é" followed by six characters |
| DeviceConfig.LargeTowardModeFails | pymammotion/data/model/device_config.py:65-67 | on a Luba 1, toward mode 200 is stored but makes decoding fail |
| DeviceConfig.DefaultLuba2PathOrder | pymammotion/data/model/device_config.py:45-67 | default settings on a Luba 2 give the bytes 1 1 0 0 0 8 10 0 |
| Utf8.DecodeFirst | pymammotion/data/model/device_config.py:67 | the first well-formed UTF-8 sequence and its length: one byte below 0x80, none for a lone continuation byte, 0xC0, 0xC1 or 0xF5 and above |
| Utf8.Decode | pymammotion/data/model/device_config.py:67 | `bytearray.decode()`: a decoded string is never longer than its bytes and starts with the first sequence's character |
| Utf8.DecodeAscii | pymammotion/data/model/device_config.py:67 | bytes below 0x80 decode to one character each, with the byte as code point |
| Utf8.DecodeLength | pymammotion/data/model/device_config.py:67 | a decoded string has at most as many characters as bytes, and as many only when all bytes are below 0x80 |

## Findings

| source | as written | input that shows it | evidently intended | confidence | as-written member | corrected member |
|---|---|---|---|---|---|---|
| pymammotion/data/model/hash_list.py:38-40 | the duplicate test looks for the fragment in the list of stored fragments' hash integers, which never holds a message | fragments A, B, A with one hash: the list becomes [A, A, B, A] | a fragment is stored once, and an exact redelivery is ignored: [A, B] | high (a protobuf message never equals an int); not executed | HashFrames.RedeliveryScenario | HashFrames.DedupIdempotent |
| pymammotion/mammotion/devices/mammotion.py:173-196 | a broker for the account that is not connected yet is replaced by a new one and dropped from `mqtt_list` without `disconnect()` | two logins for one account without `force`, where the broker built by the first still reports not connected when the second runs: two brokers, the first held by no account and never disconnected. The login lock (line 163) is held until `connect_async` returns (line 196), so this needs `connect_async` to return before the connection is up, a connection that dropped since, or a direct call of `initiate_cloud_connection` outside the lock | the stale broker is disconnected when it is replaced | medium (`MammotionCloud.connect_async` is not part of this model, so whether it returns before the connection is up is open; a reconnect may be meant, but not a leak); not executed | Orchestrator.LoginTwiceBeforeConnect | Orchestrator.Mammotion.InitiateCloudConnectionReleasing |

## Left out

- Network and concurrency:
  - `Mammotion.login` does HTTP and cloud-gateway calls. Its result is a parameter of `LoginAndInitiateCloud`; the password only feeds it and is not modelled.
  - `run_in_executor(connect_async)` is external. The broker to connect is returned, and `Broker.OnConnected` stands for its connection coming up.
  - `disconnect()` is modelled only by its effect on the broker's connection status (`Broker.Disconnect`, taken to clear `is_connected`; `MammotionCloud` is not part of this model). The transports' `command`/`start_sync`/`start_map_sync` are external: the call to make is returned, and the awaited results are not modelled.
- The `asyncio.Lock` is not modelled: each call is one serialized step. The connection coming up is `Broker.OnConnected`, placed between calls.
- The routing and lookup methods of `Mammotion` change nothing and do not state `Valid()`.
- Network failures during login or connect are not modelled.
- Handle objects:
  - BLE and cloud handles are values. The `MowingDevice` each handle wrapper receives is not tracked.
  - The aliasing of handle objects between records is not modelled. No record in this file shares a handle object.
  - The cloud handle's broker is read as `cloud()._mqtt` (mammotion.py:83, 114) and as `cloud().mqtt` (mammotion.py:213); both are taken to be the handle's one broker attribute.
- HashFrames.HashList.constructor: only the shape of the dictionaries is modelled (integer hashes to frame lists). `Valid()` is this model's own invariant; `Update` preserves it when it holds and makes no promise about it otherwise.
- `FrameList` objects are values inside the maps, so aliasing of a frame list held elsewhere is not captured.
- HashFrames.HashList.Update: the source's `_add_hash_data` mutates the caller's dictionaries in place (hash_list.py:36, 40); the model reassigns the fields to new map values. A dictionary the caller still holds, or one dictionary passed as both `area` and `path`, does not see the updates in the model.
- Devices.MixedDeviceManager.constructor: a cloud descriptor always comes with its broker. The program's default of no broker for a cloud handle is never used in this file and is not modelled.
- Truthiness: `if not exists` on a broker and `if device` on a record are taken as "is not None". Neither class defines a truth value in the code shown.
- `set_disconnect_strategy` is left out. It only touches BLE handles, and it iterates the dictionary's keys as if they were pairs.
- `create_devices` is I/O glue and is left out. Its condition groups as `(credentials and EITHER) or WIFI`, so WIFI asks for a login even without credentials.
- `Mammotion.login`'s HTTP exchange (`pymammotion/http/http.py`), the generated protobuf descriptors, the BLE framing of `blufi_impl.py`, the scanning script and the `pyluba` device wrapper are not part of this model.
- The float fields of `OperationSettings` (`speed`) and of `DeviceLimits` are not used by the encoder and are left out; so are the string field `path_order` and the list `areas`' use.
- `DeviceType.is_luba1/is_yuka/is_luba_2` are not part of this model; they are parameters, and no relation between them is assumed.
- `NavGetCommDataAck` is not part of this model. Its fields beyond type, hash, total frame and current frame are one opaque payload.
