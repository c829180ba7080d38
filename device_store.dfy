/**
 * The device store as the interactors see it: device rows keyed by address and
 * AirDrop contact rows keyed by contact hash, with insert-or-replace writes.
 */
module DeviceStore {
  import opened Wrappers
  import Devices

  /** `saveDevices`: insert-or-replace in list order, so the last record for an address wins. */
  function InsertAll(m: map<string, Devices.DeviceData>, ds: seq<Devices.DeviceData>): (r: map<string, Devices.DeviceData>)
    ensures r.Keys == m.Keys + set d | d in ds :: d.address
    ensures forall a :: a in r && (forall d :: d in ds ==> d.address != a) ==> r[a] == m[a]
  {
    if ds == [] then m else InsertAll(m, ds[..|ds| - 1])[ds[|ds| - 1].address := ds[|ds| - 1]]
  }

  /** Writing at most one more record after `ds` is one more insert-or-replace. */
  lemma InsertAllOneMore(m: map<string, Devices.DeviceData>, ds: seq<Devices.DeviceData>, extra: seq<Devices.DeviceData>)
    requires |extra| <= 1
    ensures InsertAll(m, ds + extra) == if extra == [] then InsertAll(m, ds) else InsertAll(m, ds)[extra[0].address := extra[0]]
  {
    if extra == [] {
      assert ds + extra == ds;
    } else {
      assert (ds + extra)[..|ds|] == ds;
    }
  }

  /** The AirDrop contacts carried by a device record. */
  function ContactsOf(d: Devices.DeviceData): seq<Devices.AppleContact>
  {
    if d.manufacturerInfo.Some? && d.manufacturerInfo.value.airdrop.Some? then
      d.manufacturerInfo.value.airdrop.value.contacts
    else []
  }

  function InsertContacts(m: map<int, Devices.AppleContact>, cs: seq<Devices.AppleContact>): (r: map<int, Devices.AppleContact>)
    ensures r.Keys == m.Keys + set c | c in cs :: c.sha256
  {
    if cs == [] then m else InsertContacts(m, cs[..|cs| - 1])[cs[|cs| - 1].sha256 := cs[|cs| - 1]]
  }

  /** `saveContacts`: the contacts of every device, device by device. */
  function InsertDeviceContacts(m: map<int, Devices.AppleContact>, ds: seq<Devices.DeviceData>): (r: map<int, Devices.AppleContact>)
    ensures m.Keys <= r.Keys
  {
    if ds == [] then m else InsertContacts(InsertDeviceContacts(m, ds[..|ds| - 1]), ContactsOf(ds[|ds| - 1]))
  }

  /** The last record written for an address is the one stored. */
  lemma {:induction false} InsertAllLastWins(m: map<string, Devices.DeviceData>, ds: seq<Devices.DeviceData>, i: nat)
    requires i < |ds|
    requires forall j :: i < j < |ds| ==> ds[j].address != ds[i].address
    ensures InsertAll(m, ds)[ds[i].address] == ds[i]
    decreases |ds|
  {
    if i < |ds| - 1 {
      InsertAllLastWins(m, ds[..|ds| - 1], i);
    }
  }

  class DevicesRepository {
    var devices: map<string, Devices.DeviceData>
    var contacts: map<int, Devices.AppleContact>

    constructor(devices: map<string, Devices.DeviceData>, contacts: map<int, Devices.AppleContact>)
      ensures this.devices == devices && this.contacts == contacts
    {
      this.devices := devices;
      this.contacts := contacts;
    }

    /** `getAllByAddresses(...).associateBy { it.address }`: the stored records among the addresses. */
    function ExistingByAddress(addresses: seq<string>): (r: map<string, Devices.DeviceData>)
      reads this
      ensures r.Keys == (set a | a in addresses) * devices.Keys
      ensures forall a :: a in r ==> r[a] == devices[a]
    {
      map a | a in addresses && a in devices :: devices[a]
    }

    /** `getAllBySHA(...).associateBy { it.sha256 }`: the stored contacts among the hashes. */
    function ExistingBySha(shas: seq<int>): (r: map<int, Devices.AppleContact>)
      reads this
      ensures r.Keys == (set s | s in shas) * contacts.Keys
      ensures forall s :: s in r ==> r[s] == contacts[s]
    {
      map s | s in shas && s in contacts :: contacts[s]
    }

    /** `saveDevice`: insert or replace one record. */
    method SaveDevice(d: Devices.DeviceData)
      modifies this
      ensures devices == old(devices)[d.address := d]
      ensures contacts == old(contacts)
    {
      devices := devices[d.address := d];
    }

    /** `saveScanBatch`: the device rows first, then the AirDrop contact rows. */
    method SaveScanBatch(ds: seq<Devices.DeviceData>)
      modifies this
      ensures devices == InsertAll(old(devices), ds)
      ensures contacts == InsertDeviceContacts(old(contacts), ds)
    {
      devices := InsertAll(devices, ds);
      contacts := InsertDeviceContacts(contacts, ds);
    }
  }
}
