/**
 * Account reconciliation as a function of the registry's contents
 * (`Mammotion.add_cloud_devices`, pymammotion/mammotion/devices/mammotion.py,
 * lines 198-214): every device of the account listing whose name carries a
 * mower prefix gets a cloud handle bound to the current broker.
 */
module Reconciliation {
  import opened Results
  import opened Devices

  /** Account devices with one of these name prefixes are mowers; the rest are ignored. */
  predicate IsMowerName(name: string): (b: bool)
    ensures b <==> |name| >= 5 && (name[..5] == "Luba-" || name[..5] == "Yuka-")
  {
    "Luba-" <= name || "Yuka-" <= name
  }

  /** One device of the listing, as one iteration of the reconciliation loop handles it. */
  function ReconcileOne(v: map<string, Entry>, d: CloudDevice, b: Broker): (r: map<string, Entry>)
    ensures !IsMowerName(d.deviceName) ==> r == v
    ensures r.Keys == v.Keys + (if IsMowerName(d.deviceName) then {d.deviceName} else {})
    ensures forall n | n in v && n != d.deviceName :: r[n] == v[n]
    // the BLE handle and the preference of a registered device are never touched
    ensures forall n | n in v :: r[n].ble == v[n].ble && r[n].preference == v[n].preference
    // a mower ends up bound to the current broker
    ensures IsMowerName(d.deviceName) ==> BoundTo(r[d.deviceName], b)
    ensures IsMowerName(d.deviceName) && d.deviceName !in v ==>
              r[d.deviceName] == Entry(None, Some(CloudHandle(d, b)), Wifi)
    // an existing cloud handle keeps its descriptor; a missing one is built from `d`
    ensures IsMowerName(d.deviceName) && d.deviceName in v ==>
              r[d.deviceName].cloud.value.device ==
                (if v[d.deviceName].cloud.Some? then v[d.deviceName].cloud.value.device else d)
    ensures EveryEntryHasHandle(v) ==> EveryEntryHasHandle(r)
  {
    var name := d.deviceName;
    if IsMowerName(name) && name !in v then
      v[name := Entry(None, Some(CloudHandle(d, b)), Wifi)]
    else if IsMowerName(name) then
      match v[name].cloud
      case None => v[name := v[name].(cloud := Some(CloudHandle(d, b)))]
      case Some(c) => if b != c.mqtt then v[name := v[name].(cloud := Some(c.(mqtt := b)))] else v
    else
      v
  }

  /** The whole listing, handled in order. */
  function Reconcile(v: map<string, Entry>, ds: seq<CloudDevice>, b: Broker): (r: map<string, Entry>)
    ensures EveryEntryHasHandle(v) ==> EveryEntryHasHandle(r)
  {
    if ds == [] then v else ReconcileOne(Reconcile(v, ds[..|ds| - 1], b), ds[|ds| - 1], b)
  }

  /** The names of the listing that carry a mower prefix. */
  function MowerNames(ds: seq<CloudDevice>): set<string>
  {
    set i | 0 <= i < |ds| && IsMowerName(ds[i].deviceName) :: ds[i].deviceName
  }

  lemma MowerNamesSnoc(ds: seq<CloudDevice>)
    requires ds != []
    ensures MowerNames(ds) ==
              MowerNames(ds[..|ds| - 1]) +
              (if IsMowerName(ds[|ds| - 1].deviceName) then {ds[|ds| - 1].deviceName} else {})
  {
    var init := ds[..|ds| - 1];
    forall x | x in MowerNames(ds)
      ensures x in MowerNames(init) || (IsMowerName(ds[|ds| - 1].deviceName) && x == ds[|ds| - 1].deviceName)
    {
      var i :| 0 <= i < |ds| && IsMowerName(ds[i].deviceName) && ds[i].deviceName == x;
      if i < |ds| - 1 {
        assert init[i] == ds[i];
      }
    }
    forall x | x in MowerNames(init)
      ensures x in MowerNames(ds)
    {
      var i :| 0 <= i < |init| && IsMowerName(init[i].deviceName) && init[i].deviceName == x;
      assert ds[i] == init[i];
    }
  }

  /** Reconciliation registers exactly the mower names of the listing that were missing. */
  lemma {:induction false} ReconcileKeys(v: map<string, Entry>, ds: seq<CloudDevice>, b: Broker)
    ensures Reconcile(v, ds, b).Keys == v.Keys + MowerNames(ds)
  {
    if ds != [] {
      ReconcileKeys(v, ds[..|ds| - 1], b);
      MowerNamesSnoc(ds);
    }
  }

  /** The BLE handle and preference of every registered device survive reconciliation. */
  lemma {:induction false} ReconcileKeepsBleAndPreference(v: map<string, Entry>, ds: seq<CloudDevice>, b: Broker,
                                                         n: string)
    requires n in v
    ensures n in Reconcile(v, ds, b)
    ensures Reconcile(v, ds, b)[n].ble == v[n].ble
    ensures Reconcile(v, ds, b)[n].preference == v[n].preference
  {
    if ds != [] {
      ReconcileKeepsBleAndPreference(v, ds[..|ds| - 1], b, n);
    }
  }

  /** A device the listing does not name is left exactly as it was. */
  lemma {:induction false} ReconcileLeavesOthers(v: map<string, Entry>, ds: seq<CloudDevice>, b: Broker,
                                                n: string)
    requires n in v
    requires forall i | 0 <= i < |ds| :: ds[i].deviceName != n
    ensures n in Reconcile(v, ds, b) && Reconcile(v, ds, b)[n] == v[n]
  {
    if ds != [] {
      ReconcileLeavesOthers(v, ds[..|ds| - 1], b, n);
    }
  }

  /** After reconciliation every mower of the listing has a cloud handle bound to the current broker. */
  lemma {:induction false} ReconcileBindsMowers(v: map<string, Entry>, ds: seq<CloudDevice>, b: Broker)
    ensures forall n | n in MowerNames(ds) :: n in Reconcile(v, ds, b) && BoundTo(Reconcile(v, ds, b)[n], b)
  {
    if ds != [] {
      var init := ds[..|ds| - 1];
      ReconcileBindsMowers(v, init, b);
      MowerNamesSnoc(ds);
    }
  }

  /**
   * Once every mower of the listing is bound to the broker, running the
   * reconciliation again changes nothing: re-announcing a connected
   * account is harmless.
   */
  lemma {:induction false} ReconcileFixedPoint(v: map<string, Entry>, ds: seq<CloudDevice>, b: Broker)
    requires forall n | n in MowerNames(ds) :: n in v && BoundTo(v[n], b)
    ensures Reconcile(v, ds, b) == v
  {
    if ds != [] {
      var init := ds[..|ds| - 1];
      MowerNamesSnoc(ds);
      ReconcileFixedPoint(v, init, b);
    }
  }

  /** Reconciling twice with the same broker is the same as reconciling once. */
  lemma ReconcileIdempotent(v: map<string, Entry>, ds: seq<CloudDevice>, b: Broker)
    ensures Reconcile(Reconcile(v, ds, b), ds, b) == Reconcile(v, ds, b)
  {
    ReconcileBindsMowers(v, ds, b);
    ReconcileFixedPoint(Reconcile(v, ds, b), ds, b);
  }
}
