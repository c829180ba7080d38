/** Turning one radio scan result into a fresh device record. */
module ScanBuild {
  import opened Wrappers
  import Devices

  /** One scan result as delivered by the radio. */
  datatype BleScanDevice = BleScanDevice(
    address: string,
    name: Option<string>,
    scanTimeMs: int,
    scanRecordRaw: Option<seq<bv8>>,
    rssi: Option<int>,
    addressType: Option<int>,
    deviceClass: Option<int>,
    isPaired: bool,
    serviceUuids: seq<string>,
    isConnectable: bool)

  /**
   * `BuildDeviceFromScanDataInteractor.execute`. The manufacturer-data decoder
   * and the base64 encoder are parameters: they run only when a raw record exists.
   */
  function BuildDeviceFromScanData(scan: BleScanDevice,
                                   decodeManufacturerInfo: (seq<bv8>, int) -> Option<Devices.ManufacturerInfo>,
                                   toBase64: seq<bv8> -> string): (r: Devices.DeviceData)
    ensures r.detectCount == 1
    ensures r.firstDetectTimeMs == scan.scanTimeMs && r.lastDetectTimeMs == scan.scanTimeMs
    ensures r.address == scan.address && r.name == scan.name && r.rssi == scan.rssi
    ensures r.systemAddressType == scan.addressType && r.deviceClass == scan.deviceClass
    ensures r.isPaired == scan.isPaired && r.servicesUuids == scan.serviceUuids
    ensures r.isConnectable == scan.isConnectable
    ensures r.customName.None? && !r.favorite && r.tags == {} && r.lastFollowingDetectionTimeMs.None?
    ensures r.metadata.None?
    ensures r.rowDataEncoded.None? <==> scan.scanRecordRaw.None?
    ensures scan.scanRecordRaw.None? ==> r.manufacturerInfo.None?
    ensures scan.scanRecordRaw.Some? ==>
      r.manufacturerInfo == decodeManufacturerInfo(scan.scanRecordRaw.value, scan.scanTimeMs)
      && r.rowDataEncoded == Some(toBase64(scan.scanRecordRaw.value))
  {
    var raw := scan.scanRecordRaw;
    Devices.DeviceData(
      address := scan.address,
      name := scan.name,
      lastDetectTimeMs := scan.scanTimeMs,
      firstDetectTimeMs := scan.scanTimeMs,
      manufacturerInfo := if raw.Some? then decodeManufacturerInfo(raw.value, scan.scanTimeMs) else None,
      detectCount := 1,
      customName := None,
      favorite := false,
      tags := {},
      lastFollowingDetectionTimeMs := None,
      rssi := scan.rssi,
      systemAddressType := scan.addressType,
      deviceClass := scan.deviceClass,
      isPaired := scan.isPaired,
      servicesUuids := scan.serviceUuids,
      rowDataEncoded := if raw.Some? then Some(toBase64(raw.value)) else None,
      metadata := None,
      isConnectable := scan.isConnectable)
  }

  /** A fresh record has a zero lifetime and shows its advertised name, or its address. */
  lemma FreshRecordLifetimeAndName(scan: BleScanDevice,
                                   decodeManufacturerInfo: (seq<bv8>, int) -> Option<Devices.ManufacturerInfo>,
                                   toBase64: seq<bv8> -> string)
    ensures var d := BuildDeviceFromScanData(scan, decodeManufacturerInfo, toBase64);
      && Devices.KnownLifetime(d) == 0
      && Devices.BuildDisplayName(d) == scan.name.GetOr(scan.address)
  {
  }

  /**
   * Folding a later scan into a stored record: one more detection, the scan's
   * time as last detection, and the stored first detection and user fields kept.
   */
  lemma MergeFreshScan(stored: Devices.DeviceData, scan: BleScanDevice,
                       decodeManufacturerInfo: (seq<bv8>, int) -> Option<Devices.ManufacturerInfo>,
                       toBase64: seq<bv8> -> string)
    requires scan.scanTimeMs >= stored.lastDetectTimeMs
    requires stored.lastDetectTimeMs >= stored.firstDetectTimeMs
    ensures var m := Devices.MergeWithNewDetected(stored, BuildDeviceFromScanData(scan, decodeManufacturerInfo, toBase64));
      && m.detectCount == stored.detectCount + 1
      && m.lastDetectTimeMs == scan.scanTimeMs
      && m.firstDetectTimeMs == stored.firstDetectTimeMs
      && Devices.KnownLifetime(m) == scan.scanTimeMs - stored.firstDetectTimeMs >= Devices.KnownLifetime(stored)
      && m.customName == stored.customName && m.favorite == stored.favorite && m.tags == stored.tags
      && m.metadata == stored.metadata
      && m.isConnectable == stored.isConnectable
  {
  }
}
