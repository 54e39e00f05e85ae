/**
 * The account-level orchestrator (`Mammotion`,
 * pymammotion/mammotion/devices/mammotion.py, lines 136-290): it owns the
 * device registry and the brokers keyed by account, decides between reusing
 * a cloud session and logging in again, reconciles the account's devices
 * into the registry, and routes commands by each device's preference.
 *
 * The process-wide singleton is one explicit object. The network steps are
 * external: the login's result is a parameter, and the broker on which
 * `connect_async` is started, the broker to disconnect and the transport
 * call a command makes are returned to the caller.
 */
module Orchestrator {
  import opened Results
  import opened Devices
  import opened Reconciliation

  /** A request routed to a mower's transport. */
  datatype Operation =
    | Command(key: string)
    | CommandWithArgs(key: string, args: seq<(string, string)>)
    | StartSync(retry: int)
    | StartMapSync

  /** The transport call a request turns into. */
  datatype Dispatch =
    | ViaBle(bleHandle: BleHandle, op: Operation)
    | ViaCloud(cloudHandle: CloudHandle, op: Operation)
    /** The request returns None and reaches no transport. */
    | NoDispatch
    /** The preferred handle is absent: the program calls a method on None. */
    | MissingHandle(preference: ConnectionPreference)

  /**
   * Routing by preference: BLUETOOTH uses the BLE handle, WIFI the cloud
   * handle; EITHER and an unknown device reach neither transport.
   */
  function Route(entry: Option<Entry>, op: Operation): (d: Dispatch)
    ensures d.ViaBle? <==> entry.Some? && entry.value.preference == Bluetooth && entry.value.ble.Some?
    ensures d.ViaBle? ==> d.bleHandle == entry.value.ble.value && d.op == op
    ensures d.ViaCloud? <==> entry.Some? && entry.value.preference == Wifi && entry.value.cloud.Some?
    ensures d.ViaCloud? ==> d.cloudHandle == entry.value.cloud.value && d.op == op
    ensures d.NoDispatch? <==> entry.None? || entry.value.preference == Either
    ensures d.MissingHandle? ==> d.preference == entry.value.preference
  {
    match entry
    case None => NoDispatch
    case Some(e) =>
      match e.preference
      case Bluetooth => if e.ble.Some? then ViaBle(e.ble.value, op) else MissingHandle(Bluetooth)
      case Wifi => if e.cloud.Some? then ViaCloud(e.cloud.value, op) else MissingHandle(Wifi)
      case Either => NoDispatch
  }

  /** The registry entry for `name`, if there is one. */
  function Lookup(v: map<string, Entry>, name: string): Option<Entry>
  {
    if name in v then Some(v[name]) else None
  }

  /** The account's cloud account and its devices (`Mammotion`). */
  class Mammotion {
    const devices: MammotionDevices
    /** The broker of each logged-in account (`mqtt_list`). */
    var mqttList: map<string, Broker>
    /** The gateway of the last broker built (`self.cloud_client`). */
    var cloudClient: Option<CloudClient>

    /** The registry is well formed and every registered device has a transport handle. */
    ghost predicate Valid()
      reads this, devices, devices.devices.Values
    {
      devices.Valid() && EveryEntryHasHandle(devices.View())
    }

    /** Every record registered in `prior` is still registered under its name, as the same object. */
    predicate KeepsRecords(prior: map<string, MixedDeviceManager>)
      reads this, devices
    {
      forall n | n in prior :: n in devices.devices && devices.devices[n] == prior[n]
    }

    constructor ()
      ensures Valid() && fresh(devices)
      ensures devices.devices == map[] && mqttList == map[] && cloudClient == None
    {
      devices := new MammotionDevices();
      mqttList := map[];
      cloudClient := None;
    }

    /** Registers a BLE-discovered mower under the peripheral's name. */
    method AddBleDevice(bleDevice: Option<BleDevice>, preference: ConnectionPreference)
      requires Valid()
      modifies devices, devices.devices.Values
      ensures Valid()
      ensures fresh(devices.devices.Values - old(devices.devices.Values))
      ensures KeepsRecords(old(devices.devices))
      ensures bleDevice.None? ==> devices.devices == old(devices.devices) && devices.View() == old(devices.View())
      ensures bleDevice.Some? ==>
                devices.View() ==
                  Register(old(devices.View()), bleDevice.value.name,
                           Entry(Some(BleHandle(bleDevice.value)), None, preference))
    {
      if bleDevice.Some? {
        var m := new MixedDeviceManager(bleDevice.value.name, None, bleDevice, preference);
        devices.AddDevice(m);
      }
    }

    /**
     * Serialised login decision: log in again exactly when the account has
     * no broker or `force` is set, otherwise reuse the broker's gateway;
     * then set up the cloud connection. `login` is what the login exchange
     * returns; `created` is the new broker, if one was built.
     */
    method LoginAndInitiateCloud(account: string, force: bool, login: CloudClient)
      returns (loggedIn: bool, created: Option<Broker>)
      requires Valid()
      modifies this, devices, devices.devices.Values
      ensures Valid()
      ensures fresh(devices.devices.Values - old(devices.devices.Values))
      ensures KeepsRecords(old(devices.devices))
      ensures loggedIn <==> account !in old(mqttList) || force
      ensures account in old(mqttList) && old(mqttList[account].isConnected) ==>
                && created == None
                && mqttList == old(mqttList)
                && cloudClient == old(cloudClient)
                && var b := old(mqttList[account]);
                   devices.View() == Reconcile(old(devices.View()), b.cloudClient.accountDevices, b)
      ensures !(account in old(mqttList) && old(mqttList[account].isConnected)) ==>
                && created.Some? && fresh(created.value) && !created.value.isConnected
                && var client := if loggedIn then login else old(mqttList[account].cloudClient);
                   && created.value.cloudClient == client
                   && mqttList == old(mqttList)[account := created.value]
                   && cloudClient == Some(client)
                   && devices.View() == Reconcile(old(devices.View()), client.accountDevices, created.value)
    {
      var client: CloudClient;
      if account !in mqttList || force {
        client := login;
        loggedIn := true;
      } else {
        client := mqttList[account].cloudClient;
        loggedIn := false;
      }
      created := InitiateCloudConnection(account, client);
    }

    /**
     * Reuses the account's broker when it is connected (re-running
     * reconciliation only); otherwise builds a new broker from `client`,
     * stores it for the account, reconciles, and returns it as the broker
     * to connect.
     */
    method InitiateCloudConnection(account: string, client: CloudClient) returns (created: Option<Broker>)
      requires Valid()
      modifies this, devices, devices.devices.Values
      ensures Valid()
      ensures fresh(devices.devices.Values - old(devices.devices.Values))
      ensures KeepsRecords(old(devices.devices))
      ensures account in old(mqttList) && old(mqttList[account].isConnected) ==>
                && created == None
                && mqttList == old(mqttList)
                && cloudClient == old(cloudClient)
                && var b := old(mqttList[account]);
                   devices.View() == Reconcile(old(devices.View()), b.cloudClient.accountDevices, b)
      ensures !(account in old(mqttList) && old(mqttList[account].isConnected)) ==>
                && created.Some? && fresh(created.value) && !created.value.isConnected
                && created.value.cloudClient == client
                && mqttList == old(mqttList)[account := created.value]
                && cloudClient == Some(client)
                && devices.View() == Reconcile(old(devices.View()), client.accountDevices, created.value)
    {
      if account in mqttList && mqttList[account].isConnected {
        AddCloudDevices(mqttList[account]);
        return None;
      }
      cloudClient := Some(client);
      var broker := new Broker(client);
      mqttList := mqttList[account := broker];
      AddCloudDevices(broker);
      created := Some(broker);
    }

    /**
     * `initiate_cloud_connection` with the evidently intended release of a
     * stale broker: a broker that is replaced because it is not connected is
     * handed back as the one to disconnect, so no broker leaves `mqtt_list`
     * while its connection attempt is still pending.
     */
    method InitiateCloudConnectionReleasing(account: string, client: CloudClient)
      returns (created: Option<Broker>, stale: Option<Broker>)
      requires Valid()
      modifies this, devices, devices.devices.Values
      ensures Valid()
      ensures fresh(devices.devices.Values - old(devices.devices.Values))
      ensures KeepsRecords(old(devices.devices))
      ensures stale.Some? <==> account in old(mqttList) && !old(mqttList[account].isConnected)
      ensures stale.Some? ==> stale.value == old(mqttList[account]) && created.Some? && stale.value != created.value
      // every broker that leaves `mqtt_list` is handed back to be disconnected
      ensures forall a | a in old(mqttList) ::
                (a in mqttList && mqttList[a] == old(mqttList[a])) || stale == Some(old(mqttList[a]))
      ensures account in old(mqttList) && old(mqttList[account].isConnected) ==>
                && created == None
                && mqttList == old(mqttList)
                && cloudClient == old(cloudClient)
                && var b := old(mqttList[account]);
                   devices.View() == Reconcile(old(devices.View()), b.cloudClient.accountDevices, b)
      ensures !(account in old(mqttList) && old(mqttList[account].isConnected)) ==>
                && created.Some? && fresh(created.value) && !created.value.isConnected
                && created.value.cloudClient == client
                && mqttList == old(mqttList)[account := created.value]
                && cloudClient == Some(client)
                && devices.View() == Reconcile(old(devices.View()), client.accountDevices, created.value)
    {
      stale := if account in mqttList && !mqttList[account].isConnected then Some(mqttList[account]) else None;
      created := InitiateCloudConnection(account, client);
    }

    /**
     * Walks the broker's account listing: a new mower gets a record with only
     * a cloud handle under WIFI preference; a known mower without a cloud
     * handle gets one; a known mower on another broker is rebound.
     */
    method AddCloudDevices(mqttClient: Broker)
      requires Valid()
      modifies devices, devices.devices.Values
      ensures Valid()
      ensures fresh(devices.devices.Values - old(devices.devices.Values))
      ensures KeepsRecords(old(devices.devices))
      ensures devices.View() ==
                Reconcile(old(devices.View()), mqttClient.cloudClient.accountDevices, mqttClient)
    {
      var listing := mqttClient.cloudClient.accountDevices;
      var i := 0;
      while i < |listing|
        invariant 0 <= i <= |listing|
        invariant Valid()
        invariant fresh(devices.devices.Values - old(devices.devices.Values))
        invariant KeepsRecords(old(devices.devices))
        invariant devices.View() == Reconcile(old(devices.View()), listing[..i], mqttClient)
      {
        assert listing[..i + 1][..i] == listing[..i];
        AddCloudDevice(listing[i], mqttClient);
        i := i + 1;
      }
      assert listing[..i] == listing;
    }

    /** One iteration of `AddCloudDevices`: the listing's device `d`. */
    method AddCloudDevice(d: CloudDevice, mqttClient: Broker)
      requires Valid()
      modifies devices, devices.devices.Values
      ensures Valid()
      ensures fresh(devices.devices.Values - old(devices.devices.Values))
      ensures KeepsRecords(old(devices.devices))
      ensures devices.View() == ReconcileOne(old(devices.View()), d, mqttClient)
    {
      var mower := devices.GetDevice(d.deviceName);
      if IsMowerName(d.deviceName) && mower.None? {
        var m := new MixedDeviceManager(d.deviceName, Some((d, mqttClient)), None, Wifi);
        devices.AddDevice(m);
      } else if IsMowerName(d.deviceName) && mower.Some? {
        BindKnownMower(mower.value, d, mqttClient);
      }
    }

    /**
     * One iteration of `AddCloudDevices` for a mower already registered:
     * attach a cloud handle, or rebind it when it is on another broker.
     */
    method BindKnownMower(existing: MixedDeviceManager, d: CloudDevice, mqttClient: Broker)
      requires Valid() && IsMowerName(d.deviceName)
      requires d.deviceName in devices.devices && devices.devices[d.deviceName] == existing
      modifies existing
      ensures devices.View() == ReconcileOne(old(devices.View()), d, mqttClient)
    {
      ghost var before := devices.View();
      assert forall n | n in devices.devices && n != d.deviceName :: devices.devices[n] != existing;
      if existing.cloud.None? {
        existing.AddCloud(d, mqttClient);
      } else if mqttClient != existing.cloud.value.mqtt {
        existing.ReplaceMqtt(mqttClient);
      }
      assert devices.View() == before[d.deviceName := existing.Snapshot()];
    }

    /** Removes a device from the registry; see `MammotionDevices.RemoveDevice`. */
    method RemoveDevice(name: string) returns (r: Result<Option<Broker>, LookupError>)
      requires Valid()
      modifies devices, devices.BrokerOf(name)
      ensures Valid()
      ensures name !in old(devices.devices) ==> r == Failure(KeyError) && devices.devices == old(devices.devices)
      ensures name in old(devices.devices) ==> devices.devices == old(devices.devices) - {name}
      ensures name in old(devices.devices) ==> devices.View() == old(devices.View()) - {name}
      ensures name in old(devices.devices) ==> r == Success(BrokerToDisconnect(old(devices.View()), name))
      ensures r.Success? && r.value.Some? ==> !r.value.value.isConnected
      ensures r.Success? && r.value.None? ==>
                forall b | b in old(devices.BrokerOf(name)) :: b.isConnected == old(b.isConnected)
    {
      r := devices.RemoveDevice(name);
    }

    /** The record registered under `name`, if any. */
    method GetDeviceByName(name: string) returns (r: Option<MixedDeviceManager>)
      ensures r.Some? <==> name in devices.devices
      ensures r.Some? ==> r.value == devices.devices[name]
    {
      r := devices.GetDevice(name);
    }

    /** The transport call `send_command(name, key)` makes. */
    method SendCommand(name: string, key: string) returns (d: Dispatch)
      ensures d == Route(Lookup(devices.View(), name), Command(key))
      ensures name !in devices.devices ==> d == NoDispatch
    {
      d := RouteRequest(name, Command(key));
    }

    /** The transport call `send_command_with_args(name, key, **kwargs)` makes. */
    method SendCommandWithArgs(name: string, key: string, args: seq<(string, string)>) returns (d: Dispatch)
      ensures d == Route(Lookup(devices.View(), name), CommandWithArgs(key, args))
      ensures name !in devices.devices ==> d == NoDispatch
    {
      d := RouteRequest(name, CommandWithArgs(key, args));
    }

    /** The transport call `start_sync(name, retry)` makes. */
    method StartSync(name: string, retry: int) returns (d: Dispatch)
      ensures d == Route(Lookup(devices.View(), name), Operation.StartSync(retry))
      ensures name !in devices.devices ==> d == NoDispatch
    {
      d := RouteRequest(name, Operation.StartSync(retry));
    }

    /** The transport call `start_map_sync(name)` makes. */
    method StartMapSync(name: string) returns (d: Dispatch)
      ensures d == Route(Lookup(devices.View(), name), Operation.StartMapSync)
      ensures name !in devices.devices ==> d == NoDispatch
    {
      d := RouteRequest(name, Operation.StartMapSync);
    }

    /** Looks the device up and routes `op` by its preference. */
    method RouteRequest(name: string, op: Operation) returns (d: Dispatch)
      ensures d == Route(Lookup(devices.View(), name), op)
    {
      var device := devices.GetDevice(name);
      if device.None? {
        return NoDispatch;
      }
      var e := device.value.Snapshot();
      d := Route(Some(e), op);
    }

    /** The mowing state of the device registered under `name`, if any. */
    method Mower(name: string) returns (r: Option<MowingDevice>)
      ensures r.Some? <==> name in devices.devices
      ensures r.Some? ==> r.value == devices.devices[name].mowingState
    {
      var device := devices.GetDevice(name);
      r := if device.Some? then Some(device.value.mowingState) else None;
    }
  }

  /**
   * Two calls for one account without `force`, the first broker's connection
   * having come up in between: one login exchange and one broker in all.
   */
  method LoginTwiceWithoutForce(m: Mammotion, account: string, first: CloudClient, second: CloudClient)
    returns (logins: nat, brokersCreated: nat)
    requires m.Valid() && account !in m.mqttList
    modifies m, m.devices, m.devices.devices.Values
    ensures logins == 1 && brokersCreated == 1
    ensures account in m.mqttList && m.mqttList[account].cloudClient == first
  {
    var login1, created1 := m.LoginAndInitiateCloud(account, false, first);
    created1.value.OnConnected();
    var login2, created2 := m.LoginAndInitiateCloud(account, false, second);
    logins := (if login1 then 1 else 0) + (if login2 then 1 else 0);
    brokersCreated := (if created1.Some? then 1 else 0) + (if created2.Some? then 1 else 0);
  }

  /**
   * The same two calls when the second comes before the first broker has
   * connected: one login, but a second broker is built from the reused
   * gateway and replaces the first, which is left with its connection
   * attempt pending and is never disconnected.
   */
  method LoginTwiceBeforeConnect(m: Mammotion, account: string, first: CloudClient, second: CloudClient)
    returns (logins: nat, brokersCreated: nat, orphan: Broker)
    requires m.Valid() && account !in m.mqttList
    modifies m, m.devices, m.devices.devices.Values
    ensures logins == 1 && brokersCreated == 2
    ensures account in m.mqttList && m.mqttList[account].cloudClient == first
    ensures !orphan.isConnected && orphan.cloudClient == first
    ensures forall a | a in m.mqttList :: m.mqttList[a] != orphan
  {
    var login1, created1 := m.LoginAndInitiateCloud(account, false, first);
    orphan := created1.value;
    var login2, created2 := m.LoginAndInitiateCloud(account, false, second);
    logins := (if login1 then 1 else 0) + (if login2 then 1 else 0);
    brokersCreated := (if created1.Some? then 1 else 0) + (if created2.Some? then 1 else 0);
  }

  /**
   * With the stale broker released, the second call before the first
   * broker has connected hands the first broker back to be disconnected.
   */
  method ConnectTwiceReleasing(m: Mammotion, account: string, client: CloudClient)
    returns (first: Broker, released: Option<Broker>)
    requires m.Valid() && account !in m.mqttList
    modifies m, m.devices, m.devices.devices.Values
    ensures released == Some(first)
    ensures account in m.mqttList && m.mqttList[account] != first
  {
    var created1, stale1 := m.InitiateCloudConnectionReleasing(account, client);
    first := created1.value;
    var created2;
    created2, released := m.InitiateCloudConnectionReleasing(account, client);
  }

  /**
   * Removing the last device bound to an account's connected broker
   * disconnects it; the next login for that account without `force`
   * reuses the gateway but builds a new broker.
   */
  method RemoveLastThenLogin(m: Mammotion, account: string, name: string, login: CloudClient)
    returns (removed: Result<Option<Broker>, LookupError>, created: Option<Broker>)
    requires m.Valid() && account in m.mqttList && m.mqttList[account].isConnected
    requires name in m.devices.devices && BoundTo(m.devices.devices[name].Snapshot(), m.mqttList[account])
    requires forall n | n in m.devices.devices && n != name :: !BoundTo(m.devices.devices[n].Snapshot(), m.mqttList[account])
    modifies m, m.devices, m.devices.devices.Values, m.mqttList[account]
    ensures removed == Success(Some(old(m.mqttList[account])))
    ensures created.Some? && created.value != old(m.mqttList[account])
    ensures account in m.mqttList && m.mqttList[account] == created.value
    ensures created.value.cloudClient == old(m.mqttList[account].cloudClient)
  {
    assert m.devices.View()[name] == m.devices.devices[name].Snapshot();
    removed := m.RemoveDevice(name);
    var loggedIn;
    loggedIn, created := m.LoginAndInitiateCloud(account, false, login);
  }
}
