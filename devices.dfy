/**
 * The per-mower record with its two optional transports, and the registry
 * of those records keyed by device name
 * (pymammotion/mammotion/devices/mammotion.py, lines 29-117).
 *
 * Transport handles are values that stand for the wrapper objects the
 * program builds around a BLE peripheral or a cloud device descriptor.
 * The cloud message broker (`MammotionCloud`) is an object, because the
 * program compares brokers by identity.
 */
module Devices {
  import opened Results

  /** How commands reach a mower: either transport, the cloud, or BLE. */
  datatype ConnectionPreference = Either | Wifi | Bluetooth

  /** A BLE peripheral as reported by the platform scanner. */
  datatype BleDevice = BleDevice(name: string, address: nat)

  /** One device of the cloud account's device listing. */
  datatype CloudDevice = CloudDevice(deviceName: string, iotId: nat)

  /**
   * The authenticated cloud gateway of an account: an identity for the
   * session and the account's device listing.
   */
  datatype CloudClient = CloudClient(sessionId: nat, accountDevices: seq<CloudDevice>)

  /**
   * A cloud message-broker connection (`MammotionCloud`). Its connection
   * status is maintained by the MQTT client, outside this model.
   */
  class Broker {
    const cloudClient: CloudClient
    var isConnected: bool

    constructor (cloudClient: CloudClient)
      ensures this.cloudClient == cloudClient && !isConnected
    {
      this.cloudClient := cloudClient;
      isConnected := false;
    }

    /** The MQTT client reports that the connection started by `connect_async` is up. */
    method OnConnected()
      modifies this
      ensures isConnected
    {
      isConnected := true;
    }

    /** `disconnect()`: the broker's connection is torn down. */
    method Disconnect()
      modifies this
      ensures !isConnected
    {
      isConnected := false;
    }
  }

  /** The BLE transport handle of a mower (`MammotionBaseBLEDevice`). */
  datatype BleHandle = BleHandle(device: BleDevice)

  /** The cloud transport handle of a mower (`MammotionBaseCloudDevice`), bound to a broker. */
  datatype CloudHandle = CloudHandle(device: CloudDevice, mqtt: Broker)

  /** The reported state of one mower (`MowingDevice`); its contents are not modelled. */
  class MowingDevice {
    constructor ()
    {
    }
  }

  /** What a registry entry offers for routing: its two optional handles and its preference. */
  datatype Entry = Entry(ble: Option<BleHandle>, cloud: Option<CloudHandle>, preference: ConnectionPreference)

  /** One record per mower (`MammotionMixedDeviceManager`). */
  class MixedDeviceManager {
    const name: string
    const mowingState: MowingDevice
    var ble: Option<BleHandle>
    var cloud: Option<CloudHandle>
    const preference: ConnectionPreference

    /** The record's handles and preference, as a value. */
    function Snapshot(): Entry
      reads this
    {
      Entry(ble, cloud, preference)
    }

    /**
     * A new record with a fresh mowing state; a handle is built for each
     * device that is given. A cloud device comes with the broker its handle uses.
     */
    constructor (name: string, cloudDevice: Option<(CloudDevice, Broker)>, bleDevice: Option<BleDevice>,
                 preference: ConnectionPreference)
      ensures this.name == name && fresh(mowingState)
      ensures bleDevice.None? <==> ble.None?
      ensures bleDevice.Some? ==> ble == Some(BleHandle(bleDevice.value))
      ensures cloudDevice.None? <==> cloud.None?
      ensures cloudDevice.Some? ==> cloud == Some(CloudHandle(cloudDevice.value.0, cloudDevice.value.1))
      ensures this.preference == preference
    {
      this.name := name;
      mowingState := new MowingDevice();
      ble := None;
      cloud := None;
      this.preference := preference;
      new;
      AddBle(bleDevice);
      if cloudDevice.Some? {
        AddCloud(cloudDevice.value.0, cloudDevice.value.1);
      }
    }

    /** Builds a BLE handle when a peripheral is given; otherwise nothing changes. */
    method AddBle(bleDevice: Option<BleDevice>)
      modifies this
      ensures bleDevice.Some? ==> ble == Some(BleHandle(bleDevice.value))
      ensures bleDevice.None? ==> ble == old(ble)
      ensures cloud == old(cloud)
    {
      if bleDevice.Some? {
        ble := Some(BleHandle(bleDevice.value));
      }
    }

    /** Builds a cloud handle for the descriptor, bound to the broker `mqtt`. */
    method AddCloud(cloudDevice: CloudDevice, mqtt: Broker)
      modifies this
      ensures cloud == Some(CloudHandle(cloudDevice, mqtt))
      ensures ble == old(ble)
    {
      cloud := Some(CloudHandle(cloudDevice, mqtt));
    }

    method ReplaceCloud(cloudHandle: CloudHandle)
      modifies this
      ensures cloud == Some(cloudHandle)
      ensures ble == old(ble)
    {
      cloud := Some(cloudHandle);
    }

    method ReplaceBle(bleHandle: BleHandle)
      modifies this
      ensures ble == Some(bleHandle)
      ensures cloud == old(cloud)
    {
      ble := Some(bleHandle);
    }

    /**
     * Rebinds the cloud handle to another broker, keeping its descriptor.
     * The program dereferences the cloud handle here, so it must exist.
     */
    method ReplaceMqtt(mqtt: Broker)
      requires cloud.Some?
      modifies this
      ensures cloud == Some(CloudHandle(old(cloud).value.device, mqtt))
      ensures ble == old(ble)
    {
      cloud := Some(cloud.value.(mqtt := mqtt));
    }
  }

  /**
   * Registering an entry under a name: a new name stores the entry as it is;
   * an existing name takes each handle the newcomer carries and keeps its
   * own preference.
   */
  function Register(v: map<string, Entry>, name: string, e: Entry): (r: map<string, Entry>)
    ensures r.Keys == v.Keys + {name}
    ensures forall n | n in v && n != name :: r[n] == v[n]
    ensures name !in v ==> r[name] == e
    ensures name in v ==> r[name].preference == v[name].preference
    // last writer wins per transport kind ...
    ensures e.ble.Some? ==> r[name].ble == e.ble
    ensures e.cloud.Some? ==> r[name].cloud == e.cloud
    // ... and a kind the newcomer lacks is never clobbered
    ensures name in v && e.ble.None? ==> r[name].ble == v[name].ble
    ensures name in v && e.cloud.None? ==> r[name].cloud == v[name].cloud
    // a newcomer with a handle keeps every entry reachable over some transport
    ensures EveryEntryHasHandle(v) && (e.ble.Some? || e.cloud.Some?) ==> EveryEntryHasHandle(r)
  {
    if name !in v then v[name := e]
    else
      var prior := v[name];
      v[name := Entry(if e.ble.Some? then e.ble else prior.ble,
                      if e.cloud.Some? then e.cloud else prior.cloud,
                      prior.preference)]
  }

  /** Every registered device can be reached over at least one transport. */
  predicate EveryEntryHasHandle(v: map<string, Entry>)
  {
    forall n | n in v :: v[n].ble.Some? || v[n].cloud.Some?
  }

  /** True when the entry's cloud handle is bound to broker `b`. */
  predicate BoundTo(e: Entry, b: Broker)
  {
    e.cloud.Some? && e.cloud.value.mqtt == b
  }

  /**
   * The broker that removing `name` disconnects: the removed entry's own
   * broker, unless some remaining entry is still bound to it.
   */
  function BrokerToDisconnect(v: map<string, Entry>, name: string): (r: Option<Broker>)
    requires name in v
    ensures r.Some? <==>
              v[name].cloud.Some? &&
              forall n | n in v && n != name :: !BoundTo(v[n], v[name].cloud.value.mqtt)
    ensures r.Some? ==> r.value == v[name].cloud.value.mqtt
  {
    match v[name].cloud
    case None => None
    case Some(c) =>
      if exists n | n in v - {name} :: BoundTo(v[n], c.mqtt) then None else Some(c.mqtt)
  }

  /** A failed dictionary lookup. */
  datatype LookupError = KeyError

  /** The registry of mowers (`MammotionDevices`): one record per device name. */
  class MammotionDevices {
    var devices: map<string, MixedDeviceManager>

    /** Every record is stored under its own name. */
    ghost predicate Valid()
      reads this
    {
      forall n | n in devices :: devices[n].name == n
    }

    /** The registry's contents as values. */
    ghost function View(): map<string, Entry>
      reads this, devices.Values
    {
      map n | n in devices :: devices[n].Snapshot()
    }

    constructor ()
      ensures Valid() && devices == map[]
    {
      devices := map[];
    }

    /**
     * Adds a record, or merges it into the record already stored under its
     * name: the stored record object stays, and takes over each handle the
     * newcomer has.
     */
    method AddDevice(m: MixedDeviceManager)
      requires Valid()
      modifies this, devices.Values
      ensures Valid()
      ensures m.name !in old(devices) ==> devices == old(devices)[m.name := m]
      ensures m.name in old(devices) ==> devices == old(devices)
      ensures View() == Register(old(View()), m.name, old(m.Snapshot()))
    {
      if m.name !in devices {
        devices := devices[m.name := m];
        return;
      }
      var existing := devices[m.name];
      var newcomer := m.Snapshot();
      if newcomer.cloud.Some? {
        existing.ReplaceCloud(newcomer.cloud.value);
      }
      if newcomer.ble.Some? {
        existing.ReplaceBle(newcomer.ble.value);
      }
      assert forall n | n in devices && n != m.name :: devices[n] != existing;
    }

    /** The broker the record stored under `name` is bound to, if any: what removing it may disconnect. */
    function BrokerOf(name: string): set<Broker>
      reads this, devices.Values
    {
      if name in devices && devices[name].cloud.Some? then {devices[name].cloud.value.mqtt} else {}
    }

    /** The record stored under `name`, if any. */
    method GetDevice(name: string) returns (r: Option<MixedDeviceManager>)
      ensures r.Some? <==> name in devices
      ensures r.Some? ==> r.value == devices[name]
    {
      r := if name in devices then Some(devices[name]) else None;
    }

    /**
     * Removes the record for `name` and reports the broker it then
     * disconnects, marking it disconnected.
     * An unknown name is a lookup error and changes nothing.
     */
    method RemoveDevice(name: string) returns (r: Result<Option<Broker>, LookupError>)
      requires Valid()
      modifies this, BrokerOf(name)
      ensures Valid()
      ensures name !in old(devices) ==> r == Failure(KeyError) && devices == old(devices)
      ensures name in old(devices) ==> devices == old(devices) - {name}
      ensures name in old(devices) ==> View() == old(View()) - {name}
      ensures name in old(devices) ==> r == Success(BrokerToDisconnect(old(View()), name))
      // the broker handed back is the one disconnected; a shared broker stays as it was
      ensures r.Success? && r.value.Some? ==> !r.value.value.isConnected
      ensures r.Success? && r.value.None? ==> forall b | b in old(BrokerOf(name)) :: b.isConnected == old(b.isConnected)
    {
      if name !in devices {
        return Failure(KeyError);
      }
      ghost var before := View();
      var removed := devices[name];
      devices := devices - {name};
      if removed.cloud.None? {
        return Success(None);
      }
      var mqtt := removed.cloud.value.mqtt;
      var shouldDisconnect := set n | n in devices && devices[n].cloud.Some? && devices[n].cloud.value.mqtt == mqtt
                                :: devices[n];
      assert forall n | n in devices && BoundTo(before[n], mqtt) :: devices[n] in shouldDisconnect;
      if |shouldDisconnect| == 0 {
        mqtt.Disconnect();
        r := Success(Some(mqtt));
      } else {
        ghost var d :| d in shouldDisconnect;
        ghost var n :| n in devices && devices[n].cloud.Some? && devices[n].cloud.value.mqtt == mqtt && devices[n] == d;
        assert n in before && n != name && BoundTo(before[n], mqtt);
        r := Success(None);
      }
    }
  }

  /** Registering BLE then cloud under one name keeps both handles and the first preference. */
  lemma BleThenCloudRegistration(ble: BleHandle, cloud: CloudHandle)
    ensures var v := Register(map[], "Luba-1", Entry(Some(ble), None, Bluetooth));
            Register(v, "Luba-1", Entry(None, Some(cloud), Wifi))
              == map["Luba-1" := Entry(Some(ble), Some(cloud), Bluetooth)]
  {
  }

  /**
   * Two records sharing one broker: removing the first disconnects
   * nothing, removing the second then disconnects the broker.
   */
  lemma SharedBrokerTeardown(v: map<string, Entry>, first: string, second: string, b: Broker)
    requires first != second && first in v && second in v
    requires BoundTo(v[first], b) && BoundTo(v[second], b)
    requires forall n | n in v && n != first && n != second :: !BoundTo(v[n], b)
    ensures BrokerToDisconnect(v, first) == None
    ensures BrokerToDisconnect(v - {first}, second) == Some(b)
  {
  }
}
