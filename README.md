# MetaRadar device-tracking pipeline in Dafny

MetaRadar is an Android app that scans for Bluetooth Low Energy devices,
stores every device it sees and watches for devices that follow the user.
This project models the core of the app's processing of each scan batch and
proves properties about that model:

- **Building and merging records.** A scan result becomes a fresh device
  record. The record is merged into the stored one, and AirDrop contact
  hashes are merged with the stored contacts. The merged batch is written to
  the device store, and a handle per device records its pre-merge times.
- **Deep analysis.** The planner picks the connectable devices whose GATT
  metadata is missing or stale. It orders them strongest signal first and
  deals them round-robin into parallel shards. It writes changed metadata to
  the store, folds the fetch results back into the batch, and backs off for a
  minute when most connections fail.
- **GATT fetch.** One device's fetch is a small state machine. It connects,
  discovers services, and reads the recognised characteristics one by one.
  Each value is folded into the metadata, and the metadata is emitted on
  disconnect.
- **Radar profiles.** The batch is rewound to its pre-merge times, and each
  active, cooled-down profile is matched against it. Matches are written as
  detect rows, locations and journal reports.
- **Helpers.** Address-type classification follows the Bluetooth Core
  Specification, Vol 6, Part B, section 1.3. The Class-of-Device decoding
  follows the Bluetooth SIG Assigned Numbers, section 2.8. The metadata and
  device display-name rules and the location-history check are modelled
  too.

One Dafny module per source file:

| file | module | form |
|---|---|---|
| `wrappers.dfy` | `Wrappers` | `Option` |
| `device_data.dfy` | `Devices` | the device record, its merge, names, lifetime, distance |
| `metadata.dfy` | `Metadata` | GATT metadata, its display name, the 16-bit UUID tables |
| `address_info.dfy` | `AddressInfo` | address type classification |
| `device_class.dfy` | `DeviceClasses` | Class-of-Device decoding |
| `scan_build.dfy` | `ScanBuild` | scan result to device record |
| `batches.dfy` | `Batches` | `splitToBatches`, `splitToBatchesEqual` |
| `device_store.dfy` | `DeviceStore` | the device and contact tables, as a class |
| `fetch_planner.dfy` | `FetchPlanner` | the planner, as a class with its spec functions |
| `gatt_fetch.dfy` | `GattFetch` | the fetch state machine: a spec `Step`/`Run` and a class that follows it |
| `location_history.dfy` | `LocationHistory` | the location-history check |
| `save_merge.dfy` | `BatchMerge` | `SaveOrMergeBatchInteractor`, as a class |
| `radar_match.dfy` | `RadarMatch` | `CheckBatchForRadarMatchesInteractor`, as a class |

The stateful interactors are classes, and the store is a `DevicesRepository`
object whose maps they reassign. Each state-changing method is proved equal
to a pure specification function of its inputs and old state. For example,
`FetchSession.HandleEvent` is `Step`, and `ScheduleFetchServiceInfo` is
`Schedule` of the planner's old state, with the store writes `FetchSaves`.
The properties are lemmas about those functions.

Collaborators the code calls but that are not part of this model become
function parameters. These are:

- the manufacturer-data decoder, base64 and UTF-8 decoding, and
  `extract16BitUuid`;
- `AppleContact.mergeWithNewContact`, `IsKnownDeviceInteractor.execute` and
  the radar filter checker;
- `Location.distanceTo` and `Math.pow`;
- the outcome of each single GATT fetch.

The wall clock and the fresh location are parameters too. The company-name
table `BluetoothSIG.bluetoothSIG` is not part of this model; the
private-address manufacturers are computed from any such table passed in.

## Model

| member | source | states |
|---|---|---|
| Devices.MergeWithNewDetected | app/src/main/java/f/cking/software/domain/model/DeviceData.kt:88-101 | one more detection; last detection time, name, manufacturer info, rssi, address type, pairing, class, service uuids and raw data come from the new sighting; address, first detection, user fields and metadata are kept |
| Devices.KnownLifetime | app/src/main/java/f/cking/software/domain/model/DeviceData.kt:38-40 | first detection plus the lifetime is the last detection |
| Devices.MergeLifetime | app/src/main/java/f/cking/software/domain/model/DeviceData.kt:38-40 | merging a sighting not older than the first detection keeps the lifetime non-negative; a later sighting never shortens it |
| Devices.MergeAllLatestWins | app/src/main/java/f/cking/software/domain/model/DeviceData.kt:88-101 | merging sightings in a row counts each one and takes every volatile field from the latest |
| Devices.Addresses | app/src/main/java/f/cking/software/domain/interactor/CheckBatchForRadarMatchesInteractor.kt:114 | element i is the address of record i |
| Devices.NonBlank | app/src/main/java/f/cking/software/domain/model/DeviceData.kt:35 | `takeIf { isNotBlank() }`: present iff present and not blank (Kotlin whitespace), and then unchanged |
| Devices.MetadataName | app/src/main/java/f/cking/software/domain/model/DeviceData.kt:35 | a present metadata name is the metadata display name and is not blank |
| Devices.ResolvedName | app/src/main/java/f/cking/software/domain/model/DeviceData.kt:34-36 | the non-blank metadata name when there is one, else the advertised name; null iff both are missing |
| Devices.BuildDisplayName | app/src/main/java/f/cking/software/domain/model/DeviceData.kt:42-47 | the four-step fallback: non-blank custom name, advertised name (even blank), non-blank metadata name, address |
| Devices.DisplayNameFallsBackToResolvedName | app/src/main/java/f/cking/software/domain/model/DeviceData.kt:34-47 | without custom and advertised names the display name is the resolved name or the address |
| Devices.DisplayNameCandidates | app/src/main/java/f/cking/software/domain/model/DeviceData.kt:42-47 | the display name is one of the four candidates and never a blank custom name |
| Devices.Distance | app/src/main/java/f/cking/software/domain/model/DeviceData.kt:73-86 | null iff no rssi; `ratio^10` below a ratio of 1, else `0.89976 * ratio^7.7095 + 0.111`, with txPower -59 |
| Metadata.BuildDisplayName | app/src/main/java/f/cking/software/domain/model/DeviceMetadata.kt:20-25 | the model number when it contains a non-empty device name, else the device name, else the model number; null iff both are null |
| Metadata.DisplayNameIsAField | app/src/main/java/f/cking/software/domain/model/DeviceMetadata.kt:20-25 | the display name is always the device name or the model number |
| Metadata.EmptyDeviceNameWins | app/src/main/java/f/cking/software/domain/model/DeviceMetadata.kt:20-25 | an empty device name is returned even when a model number exists |
| Metadata.IsNullOrEmpty | app/src/main/java/f/cking/software/domain/model/DeviceMetadata.kt:52-59 | null is empty; a battery level makes a record non-empty; without one, empty iff every string field is null or empty |
| Metadata.SomeFieldMakesNonEmpty | app/src/main/java/f/cking/software/domain/model/DeviceMetadata.kt:52-59 | a battery level or any non-empty string field makes the record non-empty |
| Metadata.UpperCase | app/src/main/java/f/cking/software/domain/model/DeviceMetadata.kt:34 | same length, upper-casing character by character |
| Metadata.FindServiceByUuid | app/src/main/java/f/cking/software/domain/model/DeviceMetadata.kt:27-36 | found iff the extracted id, upper-cased, is 1800, 180A or 180F, and the found service has that id |
| Metadata.FindCharacteristicByUuid | app/src/main/java/f/cking/software/domain/model/DeviceMetadata.kt:38-49 | found iff the extracted id, upper-cased, is one of 2A00, 2A29, 2A24, 2A25, 2A19, and the found type has that id |
| Metadata.ServiceLookupRoundTrip | app/src/main/java/f/cking/software/domain/model/DeviceMetadata.kt:27-36 | every service is found from its own id |
| Metadata.CharacteristicLookupRoundTrip | app/src/main/java/f/cking/software/domain/model/DeviceMetadata.kt:38-49 | every characteristic type is found from its own id |
| Metadata.ServiceLookupIgnoresCase | app/src/main/java/f/cking/software/domain/model/DeviceMetadata.kt:34 | a lower-case id finds the service too |
| AddressInfo.Split | app/src/main/java/f/cking/software/domain/interactor/BuildExtendedAddressInfoInteractor.kt:18 | Kotlin `split` keeps empty fields and never returns an empty list |
| AddressInfo.SplitField | app/src/main/java/f/cking/software/domain/interactor/BuildExtendedAddressInfoInteractor.kt:18 | a separator-free prefix followed by the separator is split off as the first field |
| AddressInfo.ParseHexInt | app/src/main/java/f/cking/software/domain/interactor/BuildExtendedAddressInfoInteractor.kt:18 | `toIntOrNull(16)`: defined only on an optional sign followed by at least one hex digit; the value lies in the 32-bit Int range and has the sign of the text |
| AddressInfo.HexValueOfHexString | app/src/main/java/f/cking/software/domain/interactor/BuildExtendedAddressInfoInteractor.kt:18 | the digits written for a number read back as that number |
| AddressInfo.ParseHexIntRoundTrip | app/src/main/java/f/cking/software/domain/interactor/BuildExtendedAddressInfoInteractor.kt:18 | every Int is parsed back from its hex text: plain, with a minus sign when negative, with a plus sign when non-negative |
| AddressInfo.ParsedFields | app/src/main/java/f/cking/software/domain/interactor/BuildExtendedAddressInfoInteractor.kt:18 | `mapNotNull`: the values of exactly the fields that parse, each from its own field, in field order |
| AddressInfo.TopBits | app/src/main/java/f/cking/software/domain/interactor/BuildExtendedAddressInfoInteractor.kt:23 | `(msb shr 6) and 0b11` lies in 0..3 |
| AddressInfo.Lower | app/src/main/java/f/cking/software/domain/interactor/BuildExtendedAddressInfoInteractor.kt:43-44 | ASCII lower-casing, character by character, same length |
| AddressInfo.PrivateAddressManufacturers | app/src/main/java/f/cking/software/domain/interactor/BuildExtendedAddressInfoInteractor.kt:42-46 | an id is listed iff it is a company id whose name contains "apple" or "microsoft", ignoring case |
| AddressInfo.IsPublicAddress | app/src/main/java/f/cking/software/domain/interactor/BuildExtendedAddressInfoInteractor.kt:36-41 | true when known for more than 12 hours; otherwise true iff the manufacturer does not rotate addresses and bits 5 and 4 are clear |
| AddressInfo.GetBleAddressType | app/src/main/java/f/cking/software/domain/interactor/BuildExtendedAddressInfoInteractor.kt:17-34 | INVALID unless six fields parse; then top bits 01 resolvable private, 11 static random, 10 invalid, 00 public iff `isPublicAddress` of the first byte, else non-resolvable |
| AddressInfo.BuildExtendedAddressInfo | app/src/main/java/f/cking/software/domain/interactor/BuildExtendedAddressInfoInteractor.kt:12-15 | keeps the address and carries its classified type |
| AddressInfo.OctetValue | app/src/main/java/f/cking/software/domain/interactor/BuildExtendedAddressInfoInteractor.kt:18 | two hex digits denote a byte value |
| AddressInfo.OctetParses | app/src/main/java/f/cking/software/domain/interactor/BuildExtendedAddressInfoInteractor.kt:18 | `toIntOrNull(16)` of two hex digits is their byte value |
| AddressInfo.SplitJoin | app/src/main/java/f/cking/software/domain/interactor/BuildExtendedAddressInfoInteractor.kt:18 | splitting colon-joined colon-free parts gives the parts back |
| AddressInfo.SplitNoSeparator | app/src/main/java/f/cking/software/domain/interactor/BuildExtendedAddressInfoInteractor.kt:18 | a string without a colon splits into itself |
| AddressInfo.OctetsParse | app/src/main/java/f/cking/software/domain/interactor/BuildExtendedAddressInfoInteractor.kt:18 | fields that are all octets parse to their values, none dropped |
| AddressInfo.CanonicalAddressBytes | app/src/main/java/f/cking/software/domain/interactor/BuildExtendedAddressInfoInteractor.kt:18-21 | a canonical address gives six bytes, the first being the first octet |
| AddressInfo.TopBitsOfByte | app/src/main/java/f/cking/software/domain/interactor/BuildExtendedAddressInfoInteractor.kt:23 | the two top bits of a byte as value ranges, each an iff |
| AddressInfo.CanonicalAddressType | app/src/main/java/f/cking/software/domain/interactor/BuildExtendedAddressInfoInteractor.kt:17-34 | for `XX:XX:XX:XX:XX:XX` the type follows the first octet's range: C0-FF static random, 80-BF invalid, 40-7F resolvable private, 00-3F public or non-resolvable |
| DeviceClasses.Major | app/src/main/java/f/cking/software/domain/interactor/BuildDeviceClassFromSystemInfo.kt:8-14 | `and 0x1F00` lies within the mask and is a multiple of 0x100, for negative inputs too |
| DeviceClasses.MajorIsMask | app/src/main/java/f/cking/software/domain/interactor/BuildDeviceClassFromSystemInfo.kt:14 | the major class is the two's-complement bitwise `and` of the class with 0x1F00 |
| DeviceClasses.PhoneFromClass | app/src/main/java/f/cking/software/domain/interactor/BuildDeviceClassFromSystemInfo.kt:16-24 | Uncategorised iff the code is none of the five phone codes; a named kind has the phone major class |
| DeviceClasses.ComputerFromClass | app/src/main/java/f/cking/software/domain/interactor/BuildDeviceClassFromSystemInfo.kt:26-35 | Uncategorised iff the code is none of the six computer codes; Laptop iff hand-held, laptop or palm-size |
| DeviceClasses.AudioVideoFromClass | app/src/main/java/f/cking/software/domain/interactor/BuildDeviceClassFromSystemInfo.kt:37-57 | Uncategorised iff the code is none of the named audio/video codes other than the uncategorised one |
| DeviceClasses.WearableFromClass | app/src/main/java/f/cking/software/domain/interactor/BuildDeviceClassFromSystemInfo.kt:59-67 | Uncategorised iff the code is none of the five wearable codes |
| DeviceClasses.ToyFromClass | app/src/main/java/f/cking/software/domain/interactor/BuildDeviceClassFromSystemInfo.kt:69-77 | Uncategorised iff the code is none of the five toy codes |
| DeviceClasses.HealthFromClass | app/src/main/java/f/cking/software/domain/interactor/BuildDeviceClassFromSystemInfo.kt:79-85 | Uncategorised iff the code is none of the three health codes; only those four kinds occur |
| DeviceClasses.BuildDeviceClass | app/src/main/java/f/cking/software/domain/interactor/BuildDeviceClassFromSystemInfo.kt:13-90 | the family is Phone, Computer, AudioVideo, Wearable, Toy or Health iff the major bits say so, Unknown otherwise, never Peripheral |
| DeviceClasses.PortableComputersAreLaptops | app/src/main/java/f/cking/software/domain/interactor/BuildDeviceClassFromSystemInfo.kt:29-31 | the hand-held, laptop and palm-size codes all decode to Laptop |
| DeviceClasses.UnmatchedMinorIsUncategorised | app/src/main/java/f/cking/software/domain/interactor/BuildDeviceClassFromSystemInfo.kt:16-86 | a minor code no branch names gives the family's Uncategorised |
| DeviceClasses.ServiceBitsKeepFamily | app/src/main/java/f/cking/software/domain/interactor/BuildDeviceClassFromSystemInfo.kt:14-86 | service bits above bit 12 keep the family but make it Uncategorised |
| ScanBuild.BuildDeviceFromScanData | app/src/main/java/f/cking/software/domain/interactor/BuildDeviceFromScanDataInteractor.kt:11-36 | one detection at the scan time, scan fields copied, no user fields or metadata; raw data decoded and encoded iff present |
| ScanBuild.FreshRecordLifetimeAndName | app/src/main/java/f/cking/software/domain/interactor/BuildDeviceFromScanDataInteractor.kt:11-36 | a fresh record has zero lifetime and shows its advertised name or its address |
| ScanBuild.MergeFreshScan | app/src/main/java/f/cking/software/domain/interactor/BuildDeviceFromScanDataInteractor.kt:11-36 | merging a later scan into a stored record adds one detection, moves the last detection to the scan time, keeps first detection and user fields |
| Batches.SplitToBatches | app/src/test/java/f/cking/software/utils/SplitToBatchesTest.kt:11-22 | at least one chunk, even for an empty list |
| Batches.SplitToBatchesFlatten | app/src/test/java/f/cking/software/utils/SplitToBatchesTest.kt:42-84 | concatenating the chunks gives the list back |
| Batches.SplitToBatchesSizes | app/src/test/java/f/cking/software/utils/SplitToBatchesTest.kt:42-84 | every chunk but the last is full; the last holds 1..size elements for a non-empty list |
| Batches.SplitToBatchesSingle | app/src/test/java/f/cking/software/utils/SplitToBatchesTest.kt:24-40 | a non-empty list no longer than the size is one chunk |
| Batches.SplitToBatchesEqual | app/src/test/java/f/cking/software/utils/SplitToBatchesTest.kt:86-127 | exactly k shards |
| Batches.ShardAt | app/src/test/java/f/cking/software/utils/SplitToBatchesTest.kt:103-127 | position m of shard j is the element at index j + m k |
| Batches.ShardLength | app/src/test/java/f/cking/software/utils/SplitToBatchesTest.kt:93-97 | shard j holds the indices j, j + k, ... below the list size |
| Batches.ShardSize | app/src/test/java/f/cking/software/utils/SplitToBatchesTest.kt:113-127 | shard j holds n / k elements, plus one when j < n mod k |
| Batches.SplitToBatchesEqualPlacement | app/src/test/java/f/cking/software/utils/SplitToBatchesTest.kt:103-127 | the element at index i is in shard i mod k at position i / k |
| Batches.SplitToBatchesEqualOrder | app/src/test/java/f/cking/software/utils/SplitToBatchesTest.kt:103-127 | each shard keeps the input order |
| Batches.SplitToBatchesEqualBalanced | app/src/test/java/f/cking/software/utils/SplitToBatchesTest.kt:113-127 | shard sizes differ by at most one |
| Batches.SplitToBatchesEqualTotal | app/src/test/java/f/cking/software/utils/SplitToBatchesTest.kt:86-127 | the shard sizes add up to the list size |
| Batches.SplitToBatchesEqualPermutation | app/src/test/java/f/cking/software/utils/SplitToBatchesTest.kt:86-127 | the shards together are a permutation of the list |
| Batches.NonEmpty | app/src/main/java/f/cking/software/domain/interactor/DeviceServicesFetchingPlanner.kt:92 | `filter { isNotEmpty() }` keeps only non-empty lists |
| Batches.FlattenNonEmpty | app/src/main/java/f/cking/software/domain/interactor/DeviceServicesFetchingPlanner.kt:91-92 | dropping empty shards loses no element |
| DeviceStore.InsertAll | app/src/main/java/f/cking/software/data/repo/DevicesRepository.kt:134-138 | insert-or-replace: the keys are the old ones plus the written addresses; untouched rows stay |
| DeviceStore.InsertAllLastWins | app/src/main/java/f/cking/software/data/repo/DevicesRepository.kt:134-138 | the last record written for an address is the one stored |
| DeviceStore.InsertContacts | app/src/main/java/f/cking/software/data/repo/DevicesRepository.kt:140-148 | contact rows are added under their hashes |
| DeviceStore.InsertDeviceContacts | app/src/main/java/f/cking/software/data/repo/DevicesRepository.kt:140-148 | saving contacts never removes a row |
| DeviceStore.DevicesRepository.constructor | app/src/main/java/f/cking/software/data/repo/DevicesRepository.kt:73-148 | a store holding the given tables |
| DeviceStore.DevicesRepository.ExistingByAddress | app/src/main/java/f/cking/software/data/repo/DevicesRepository.kt:105-111 | exactly the stored records among the addresses, unchanged |
| DeviceStore.DevicesRepository.ExistingBySha | app/src/main/java/f/cking/software/data/repo/DevicesRepository.kt:128-132 | exactly the stored contacts among the hashes, unchanged |
| DeviceStore.DevicesRepository.SaveDevice | app/src/main/java/f/cking/software/data/repo/DevicesRepository.kt:81-86 | replaces one device row; contacts untouched |
| DeviceStore.DevicesRepository.SaveScanBatch | app/src/main/java/f/cking/software/data/repo/DevicesRepository.kt:73-79 | device rows then contact rows, as `InsertAll` and `InsertDeviceContacts` |
| FetchPlanner.CheckIfMetadataUpdateNeeded | app/src/main/java/f/cking/software/domain/interactor/DeviceServicesFetchingPlanner.kt:184-197 | never for a non-connectable device; otherwise iff new, metadata empty, or not seen for 10 minutes |
| FetchPlanner.EligibleDevices | app/src/main/java/f/cking/software/domain/interactor/DeviceServicesFetchingPlanner.kt:53-55 | exactly the devices of the eligible handles |
| FetchPlanner.AscendingCons | app/src/main/java/f/cking/software/domain/interactor/DeviceServicesFetchingPlanner.kt:56 | a lower bound put in front of an ascending run keeps it ascending |
| FetchPlanner.BoundCarriesOver | app/src/main/java/f/cking/software/domain/interactor/DeviceServicesFetchingPlanner.kt:56 | a lower bound of the parts bounds any permutation of them |
| FetchPlanner.HeadIsLowest | app/src/main/java/f/cking/software/domain/interactor/DeviceServicesFetchingPlanner.kt:56 | a bound of the head of an ascending run bounds the run |
| FetchPlanner.InsertByRssi | app/src/main/java/f/cking/software/domain/interactor/DeviceServicesFetchingPlanner.kt:56 | insertion keeps the run ascending (null rssi smallest) and adds exactly the element |
| FetchPlanner.SortByRssi | app/src/main/java/f/cking/software/domain/interactor/DeviceServicesFetchingPlanner.kt:56 | `sortedBy { rssi }`: ascending and a permutation |
| FetchPlanner.SortByRssiStable | app/src/main/java/f/cking/software/domain/interactor/DeviceServicesFetchingPlanner.kt:56 | stable: devices with the same rssi keep their input order |
| FetchPlanner.Reverse | app/src/main/java/f/cking/software/domain/interactor/DeviceServicesFetchingPlanner.kt:57 | element i is element n-1-i of the input |
| FetchPlanner.ReverseMultiset | app/src/main/java/f/cking/software/domain/interactor/DeviceServicesFetchingPlanner.kt:57 | reversing is a permutation |
| FetchPlanner.ByRssiDescending | app/src/main/java/f/cking/software/domain/interactor/DeviceServicesFetchingPlanner.kt:53-57 | strongest signal first, devices without a signal last, and a permutation |
| FetchPlanner.ByRssiDescendingOrder | app/src/main/java/f/cking/software/domain/interactor/DeviceServicesFetchingPlanner.kt:56-57 | devices with the same rssi come out in reverse input order |
| FetchPlanner.MetadataNeeded | app/src/main/java/f/cking/software/domain/interactor/DeviceServicesFetchingPlanner.kt:53-57 | descending by rssi and a permutation of the eligible devices |
| FetchPlanner.FetchOrder | app/src/main/java/f/cking/software/domain/interactor/DeviceServicesFetchingPlanner.kt:85-102 | every eligible device is fetched exactly once: the fetch order is a permutation of the candidates |
| FetchPlanner.FetchedDevicesAreEligible | app/src/main/java/f/cking/software/domain/interactor/DeviceServicesFetchingPlanner.kt:53-60 | only eligible, hence connectable, devices are fetched |
| FetchPlanner.ShardOfDescending | app/src/main/java/f/cking/software/domain/interactor/DeviceServicesFetchingPlanner.kt:91 | a shard of a descending list is descending |
| FetchPlanner.ShardsStrongestFirst | app/src/main/java/f/cking/software/domain/interactor/DeviceServicesFetchingPlanner.kt:91-97 | each parallel shard is worked through strongest signal first |
| FetchPlanner.FetchDevice | app/src/main/java/f/cking/software/domain/interactor/DeviceServicesFetchingPlanner.kt:104-119 | SUCCESS iff finished, with a device iff the fetch returned metadata, and then the device carrying it; ERROR iff connection error; TIMEOUT on a timeout; an abandoned fetch gives no feedback |
| FetchPlanner.Aborts | app/src/main/java/f/cking/software/domain/interactor/DeviceServicesFetchingPlanner.kt:85-119 | the run escapes iff some device of the fetch order hits max connections; an empty order never does |
| FetchPlanner.FetchAllDevices | app/src/main/java/f/cking/software/domain/interactor/DeviceServicesFetchingPlanner.kt:85-102 | at most one feedback per fetch; a device in a feedback is a fetched device with new metadata |
| FetchPlanner.KeptIndices | app/src/main/java/f/cking/software/domain/interactor/DeviceServicesFetchingPlanner.kt:85-119 | exactly the positions of the fetches that were not abandoned, in increasing order |
| FetchPlanner.FetchAllDevicesFeedback | app/src/main/java/f/cking/software/domain/interactor/DeviceServicesFetchingPlanner.kt:85-119 | feedback k is `fetchDevice` of the k-th fetch that was not abandoned, in fetch order, one per such fetch |
| FetchPlanner.SaveOf | app/src/main/java/f/cking/software/domain/interactor/FetchDeviceServiceInfo.kt:36-38 | one record exactly when the fetch finished with metadata other than the device's: the device carrying the fetched metadata |
| FetchPlanner.MetadataSavesSpec | app/src/main/java/f/cking/software/domain/interactor/FetchDeviceServiceInfo.kt:36-38 | a record is written exactly for each fetched device whose fetch finished with different metadata, possibly none, and it carries that metadata |
| FetchPlanner.UntilAbort | app/src/main/java/f/cking/software/domain/interactor/DeviceServicesFetchingPlanner.kt:104-119 | the fetch order up to, not including, the first fetch that hits max connections; the whole order iff none does |
| FetchPlanner.CountsPartitionFeedback | app/src/main/java/f/cking/software/domain/interactor/DeviceServicesFetchingPlanner.kt:61-78 | updated, timeouts, errors and data-less successes partition the feedback |
| FetchPlanner.CountUpdated | app/src/main/java/f/cking/software/domain/interactor/DeviceServicesFetchingPlanner.kt:61-70 | at most one per feedback |
| FetchPlanner.CountEmptySuccess | app/src/main/java/f/cking/software/domain/interactor/DeviceServicesFetchingPlanner.kt:61-70 | at most one per feedback |
| FetchPlanner.CountTimeouts | app/src/main/java/f/cking/software/domain/interactor/DeviceServicesFetchingPlanner.kt:71-73 | at most one per feedback |
| FetchPlanner.CountErrors | app/src/main/java/f/cking/software/domain/interactor/DeviceServicesFetchingPlanner.kt:74-76 | at most one per feedback |
| FetchPlanner.RunsOfKind | app/src/main/java/f/cking/software/domain/interactor/DeviceServicesFetchingPlanner.kt:104-119 | at most one per fetched device |
| FetchPlanner.FetchAllDevicesCounts | app/src/main/java/f/cking/software/domain/interactor/DeviceServicesFetchingPlanner.kt:60-78 | per run: updated counts fetches returning metadata, data-less successes those returning none, timeouts the timed-out ones, errors the connection errors; feedbacks are one per fetched device minus the abandoned ones |
| FetchPlanner.ShouldBackOff | app/src/main/java/f/cking/software/domain/interactor/DeviceServicesFetchingPlanner.kt:140-141 | back off iff more than 5 candidates and errors exceed three times the other outcomes; timeouts alone never trigger it |
| FetchPlanner.Addresses | app/src/main/java/f/cking/software/domain/interactor/DeviceServicesFetchingPlanner.kt:45 | the handles' addresses in order |
| FetchPlanner.Keys | app/src/main/java/f/cking/software/domain/interactor/DeviceServicesFetchingPlanner.kt:43-46 | the LinkedHashMap key order: every address once |
| FetchPlanner.LastByAddress | app/src/main/java/f/cking/software/domain/interactor/DeviceServicesFetchingPlanner.kt:43-46 | one handle per address, drawn from the batch |
| FetchPlanner.ApplyFeedback | app/src/main/java/f/cking/software/domain/interactor/DeviceServicesFetchingPlanner.kt:61-70 | never adds or removes an address |
| FetchPlanner.LastUpdate | app/src/main/java/f/cking/software/domain/interactor/DeviceServicesFetchingPlanner.kt:63-69 | a found device has that address and comes from a successful feedback |
| FetchPlanner.ApplyFeedbackAt | app/src/main/java/f/cking/software/domain/interactor/DeviceServicesFetchingPlanner.kt:61-70 | each address ends with the device of its last successful fetch, else unchanged |
| FetchPlanner.PlannerOutput | app/src/main/java/f/cking/software/domain/interactor/DeviceServicesFetchingPlanner.kt:81 | one handle per distinct address |
| FetchPlanner.PlannerOutputHandles | app/src/main/java/f/cking/software/domain/interactor/DeviceServicesFetchingPlanner.kt:43-81 | output in first-appearance order with the last handle per address; only a successful fetch changes a handle, and only its device |
| FetchPlanner.DistinctKeys | app/src/main/java/f/cking/software/domain/interactor/DeviceServicesFetchingPlanner.kt:43-46 | with distinct addresses the key order is the batch order |
| FetchPlanner.DistinctLast | app/src/main/java/f/cking/software/domain/interactor/DeviceServicesFetchingPlanner.kt:43-46 | with distinct addresses each handle is the one kept |
| FetchPlanner.NoFeedbackNoChange | app/src/main/java/f/cking/software/domain/interactor/DeviceServicesFetchingPlanner.kt:43-81 | distinct devices with no feedback come back unchanged |
| FetchPlanner.Analyze | app/src/main/java/f/cking/software/domain/interactor/DeviceServicesFetchingPlanner.kt:132-148 | the state changes iff the feedback calls for a backoff; the connection limit is kept; at most the one report with the counts is added |
| FetchPlanner.Schedule | app/src/main/java/f/cking/software/domain/interactor/DeviceServicesFetchingPlanner.kt:35-83 | on cooldown the batch comes back and the state is kept; an abort keeps the state; otherwise only the backoff changes it: cooldown from the finish time, one hard reset, at most one journal report |
| FetchPlanner.FetchSaves | app/src/main/java/f/cking/software/domain/interactor/DeviceServicesFetchingPlanner.kt:35-41 | a call on cooldown writes nothing back to the store |
| FetchPlanner.FetchSavesWriteBack | app/src/main/java/f/cking/software/domain/interactor/FetchDeviceServiceInfo.kt:30-43 | every record a call writes is an eligible device of the batch whose fetch finished with different metadata, written with that metadata; timed-out, failed or abandoned fetches write nothing |
| FetchPlanner.DeviceServicesFetchingPlanner.OnCooldown | app/src/main/java/f/cking/software/domain/interactor/DeviceServicesFetchingPlanner.kt:37-38 | on cooldown iff a cooldown started less than a minute before now |
| FetchPlanner.DeviceServicesFetchingPlanner.constructor | app/src/main/java/f/cking/software/domain/interactor/DeviceServicesFetchingPlanner.kt:25-33 | 7 shards, no cooldown, no report yet; fetched metadata goes to the given store |
| FetchPlanner.DeviceServicesFetchingPlanner.ScheduleFetchServiceInfo | app/src/main/java/f/cking/software/domain/interactor/DeviceServicesFetchingPlanner.kt:35-83 | the result and the new planner state are `Schedule` of the old state; on cooldown the batch is returned, an uncaught max-connections failure aborts, else the output is `PlannerOutput` of the feedback; the store receives `FetchSaves`, also when the call aborts |
| FetchPlanner.DeviceServicesFetchingPlanner.FetchAllDevicesAndSave | app/src/main/java/f/cking/software/domain/interactor/DeviceServicesFetchingPlanner.kt:85-102 | aborts iff some fetch hits max connections; otherwise the feedback is `FetchAllDevices`; the store receives the write-backs of the fetches before any abort |
| FetchPlanner.DeviceServicesFetchingPlanner.FetchDeviceAndSave | app/src/main/java/f/cking/software/domain/interactor/DeviceServicesFetchingPlanner.kt:104-119 | the feedback is `FetchDevice`; the device is saved with the fetched metadata iff the fetch finished with different metadata; contacts untouched |
| FetchPlanner.DeviceServicesFetchingPlanner.Complete | app/src/main/java/f/cking/software/domain/interactor/DeviceServicesFetchingPlanner.kt:61-81 | the output is `PlannerOutput` of the feedback and the new state is `Analyze` of the counts |
| FetchPlanner.DeviceServicesFetchingPlanner.CollectFeedback | app/src/main/java/f/cking/software/domain/interactor/DeviceServicesFetchingPlanner.kt:61-78 | the loop computes `ApplyFeedback` and the three counters |
| FetchPlanner.DeviceServicesFetchingPlanner.AnalyzeFeedback | app/src/main/java/f/cking/software/domain/interactor/DeviceServicesFetchingPlanner.kt:132-148 | on backoff: journal report if 30 minutes passed, one hard reset, cooldown from now; otherwise no change |
| FetchPlanner.DeviceServicesFetchingPlanner.ReportJournalEntity | app/src/main/java/f/cking/software/domain/interactor/DeviceServicesFetchingPlanner.kt:150-165 | at most one report per 30 minutes, carrying the counts |
| FetchPlanner.DeviceServicesFetchingPlanner.DecreaseMaxConnections | app/src/main/java/f/cking/software/domain/interactor/DeviceServicesFetchingPlanner.kt:199-201 | one fewer shard, never below 2 |
| FetchPlanner.DeviceServicesFetchingPlanner.IncreaseConnections | app/src/main/java/f/cking/software/domain/interactor/DeviceServicesFetchingPlanner.kt:203-205 | one more shard, never above 15 |
| GattFetch.FilterRelevantCharacteristics | app/src/main/java/f/cking/software/domain/interactor/FetchDeviceServiceInfo.kt:195-197 | exactly the recognised characteristics |
| GattFetch.FindRelevantCharacteristics | app/src/main/java/f/cking/software/domain/interactor/FetchDeviceServiceInfo.kt:184-193 | exactly the recognised characteristics of recognised services |
| GattFetch.DistinctByUuid | app/src/main/java/f/cking/software/domain/interactor/FetchDeviceServiceInfo.kt:89-90 | same characteristics, distinct uuids, first one kept first |
| GattFetch.RemoveUuid | app/src/main/java/f/cking/software/domain/interactor/FetchDeviceServiceInfo.kt:130 | removes exactly the characteristic with that uuid, keeping uuids distinct |
| GattFetch.SignedByte | app/src/main/java/f/cking/software/domain/interactor/FetchDeviceServiceInfo.kt:125 | `Byte.toInt()`: -128..127, congruent to the byte mod 256 |
| GattFetch.BatteryLevel | app/src/main/java/f/cking/software/domain/interactor/FetchDeviceServiceInfo.kt:125 | null iff the value is empty, else the first byte signed |
| GattFetch.ApplyRead | app/src/main/java/f/cking/software/domain/interactor/FetchDeviceServiceInfo.kt:107-129 | an unknown characteristic changes nothing; a battery read sets only the battery level; any other known one sets exactly its own field to the decoded text |
| GattFetch.InitialSession | app/src/main/java/f/cking/software/domain/interactor/FetchDeviceServiceInfo.kt:49-52 | the device's metadata or the empty one, nothing pending, a connect call issued |
| GattFetch.AfterRead | app/src/main/java/f/cking/software/domain/interactor/FetchDeviceServiceInfo.kt:132-138 | with nothing pending, disconnect; otherwise request the first pending characteristic; metadata and pending untouched |
| GattFetch.Step | app/src/main/java/f/cking/software/domain/interactor/FetchDeviceServiceInfo.kt:74-175 | after the end nothing changes; radio calls are only appended; only a read changes the metadata; only disconnects and max connections end the fetch |
| GattFetch.Run | app/src/main/java/f/cking/software/domain/interactor/FetchDeviceServiceInfo.kt:74-175 | the same over an event sequence: radio calls are only appended, and an ended session stays as it is |
| GattFetch.ReadRemovesPending | app/src/main/java/f/cking/software/domain/interactor/FetchDeviceServiceInfo.kt:101-139 | a read folds its value into the metadata by `ApplyRead`, drops its uuid from pending, then reads the next pending characteristic or disconnects; reading the first pending leaves the rest in order |
| GattFetch.StepKeepsValid | app/src/main/java/f/cking/software/domain/interactor/FetchDeviceServiceInfo.kt:74-175 | each event keeps pending uuids distinct and recognised, and every read requested on the radio is of a recognised characteristic |
| GattFetch.RunKeepsValid | app/src/main/java/f/cking/software/domain/interactor/FetchDeviceServiceInfo.kt:74-175 | the whole event sequence keeps the session valid |
| GattFetch.OnlyRelevantReads | app/src/main/java/f/cking/software/domain/interactor/FetchDeviceServiceInfo.kt:83-153 | only recognised characteristics are ever read |
| GattFetch.FailedReadKeepsMetadata | app/src/main/java/f/cking/software/domain/interactor/FetchDeviceServiceInfo.kt:141-153 | a failed read leaves the metadata and only drops that uuid from pending |
| GattFetch.AvailableServicesLoadsPending | app/src/main/java/f/cking/software/domain/interactor/FetchDeviceServiceInfo.kt:83-99 | with nothing pending the relevant characteristics become pending and the first is read, or it disconnects; otherwise it disconnects |
| GattFetch.EndingEvents | app/src/main/java/f/cking/software/domain/interactor/FetchDeviceServiceInfo.kt:155-169 | disconnects emit the current metadata; max connections fails without emitting |
| GattFetch.NoReadsNoChange | app/src/main/java/f/cking/software/domain/interactor/FetchDeviceServiceInfo.kt:50 | without a characteristic read the emitted metadata is the initial one |
| GattFetch.RunAfterEnd | app/src/main/java/f/cking/software/domain/interactor/FetchDeviceServiceInfo.kt:35 | after the first emission or the throw, later events change nothing |
| GattFetch.FetchSession.constructor | app/src/main/java/f/cking/software/domain/interactor/FetchDeviceServiceInfo.kt:49-54 | the state is `InitialSession` |
| GattFetch.FetchSession.Disconnect | app/src/main/java/f/cking/software/domain/interactor/FetchDeviceServiceInfo.kt:63-72 | the state becomes `RequestDisconnect` of the old one |
| GattFetch.FetchSession.SubmitMetadataNow | app/src/main/java/f/cking/software/domain/interactor/FetchDeviceServiceInfo.kt:56-61 | the state becomes `SubmitMetadata` of the old one |
| GattFetch.FetchSession.ContinueAfterRead | app/src/main/java/f/cking/software/domain/interactor/FetchDeviceServiceInfo.kt:132-138 | the state becomes `AfterRead` of the old one |
| GattFetch.FetchSession.HandleEvent | app/src/main/java/f/cking/software/domain/interactor/FetchDeviceServiceInfo.kt:75-175 | the state becomes `Step` of the old one |
| GattFetch.FetchSession.Drive | app/src/main/java/f/cking/software/domain/interactor/FetchDeviceServiceInfo.kt:74-175 | the loop over the events leaves the state `Run` of the old one |
| GattFetch.Execute | app/src/main/java/f/cking/software/domain/interactor/FetchDeviceServiceInfo.kt:30-43 | the outcome and radio calls are those of `Run`; the device is saved with the new metadata iff it returned a changed one; contacts untouched |
| LocationHistory.AnyWithinRadius | app/src/main/java/f/cking/software/domain/interactor/CheckDeviceLocationHistoryInteractor.kt:44-46 | true iff some fix is within the radius |
| LocationHistory.CheckDeviceLocationHistory | app/src/main/java/f/cking/software/domain/interactor/CheckDeviceLocationHistoryInteractor.kt:21-47 | false without a query when the window misses the lifetime; else one query for the device and window, true iff some fix is within the radius |
| LocationHistory.LargerRadiusMonotone | app/src/main/java/f/cking/software/domain/interactor/CheckDeviceLocationHistoryInteractor.kt:44-46 | a larger radius finds whatever a smaller one finds |
| BatchMerge.MergeContact | app/src/main/java/f/cking/software/domain/interactor/SaveOrMergeBatchInteractor.kt:77-81 | a stored contact is merged with the new one, else the new one is kept |
| BatchMerge.MergedContacts | app/src/main/java/f/cking/software/domain/interactor/SaveOrMergeBatchInteractor.kt:76-82 | contact by contact, in order |
| BatchMerge.ContactTimesKeys | app/src/main/java/f/cking/software/domain/interactor/SaveOrMergeBatchInteractor.kt:74-80 | every matched contact's stored row is recorded, and each entry is some stored row's pre-merge time under its own hash |
| BatchMerge.ContactTimesRecordsPreMergeTimes | app/src/main/java/f/cking/software/domain/interactor/SaveOrMergeBatchInteractor.kt:74-80 | exactly the matched stored hashes are recorded, each with its pre-merge detection time |
| BatchMerge.MergeAirdropSpec | app/src/main/java/f/cking/software/domain/interactor/SaveOrMergeBatchInteractor.kt:71-87 | no AirDrop: pass-through and an empty map; else only the contact list changes, stored matches merged and others kept, with the map of matched pre-merge times |
| BatchMerge.MergeWithStored | app/src/main/java/f/cking/software/domain/interactor/SaveOrMergeBatchInteractor.kt:33-34 | a stored record is merged with the new one, else the new one is kept |
| BatchMerge.MergedDevices | app/src/main/java/f/cking/software/domain/interactor/SaveOrMergeBatchInteractor.kt:32-39 | one merged record per discovered device, in order |
| BatchMerge.MergedPrefixStep | app/src/main/java/f/cking/software/domain/interactor/SaveOrMergeBatchInteractor.kt:32-39 | one more device extends the merged list by its record and the map by its own entries |
| BatchMerge.BatchContactTimesKeys | app/src/main/java/f/cking/software/domain/interactor/SaveOrMergeBatchInteractor.kt:30-36 | the batch-wide map holds exactly the hashes of the devices' own maps |
| BatchMerge.BatchContactTimesLastWins | app/src/main/java/f/cking/software/domain/interactor/SaveOrMergeBatchInteractor.kt:36 | `putAll` in batch order: each entry comes from the last device whose map holds the hash |
| BatchMerge.OverlayLastWins | app/src/main/java/f/cking/software/domain/interactor/SaveOrMergeBatchInteractor.kt:36 | an overlay of maps takes each key from the last map holding it |
| BatchMerge.Handles | app/src/main/java/f/cking/software/domain/interactor/SaveOrMergeBatchInteractor.kt:43-51 | one handle per merged record |
| BatchMerge.KnownCount | app/src/main/java/f/cking/software/domain/interactor/SaveOrMergeBatchInteractor.kt:29 | at most the number of stored records |
| BatchMerge.HandlesDescribeBatch | app/src/main/java/f/cking/software/domain/interactor/SaveOrMergeBatchInteractor.kt:27-51 | handles in scan order; stored devices get their stored last detection and one more detection; new ones their scan time; AirDrop map absent iff empty |
| BatchMerge.BatchContactTimesFromStore | app/src/main/java/f/cking/software/domain/interactor/SaveOrMergeBatchInteractor.kt:30-36 | the batch-wide map holds only stored hashes with their stored times |
| BatchMerge.Discovered | app/src/main/java/f/cking/software/domain/interactor/SaveOrMergeBatchInteractor.kt:27 | one fresh record per scan, in order, with the scans' addresses |
| BatchMerge.PlanBatch | app/src/main/java/f/cking/software/domain/interactor/SaveOrMergeBatchInteractor.kt:27-39 | the stored records are exactly those at the batch's addresses, unchanged; one merged record per scan |
| BatchMerge.SaveOrMergeBatch.constructor | app/src/main/java/f/cking/software/domain/interactor/SaveOrMergeBatchInteractor.kt:15-23 | wired to the store and planner, no location saved |
| BatchMerge.SaveOrMergeBatch.MergeAirdropContactsWithExisting | app/src/main/java/f/cking/software/domain/interactor/SaveOrMergeBatchInteractor.kt:71-87 | the loop computes `MergeAirdrop` against the stored contacts |
| BatchMerge.SaveOrMergeBatch.MergeBatch | app/src/main/java/f/cking/software/domain/interactor/SaveOrMergeBatchInteractor.kt:32-39 | the loop computes `MergedDevices` and the batch-wide map |
| BatchMerge.SaveOrMergeBatch.PlanIfEnabled | app/src/main/java/f/cking/software/domain/interactor/SaveOrMergeBatchInteractor.kt:53-55 | the planner runs only with deep analysis, and then its new state is `Schedule` of the old one; the call aborts iff that schedule aborts; with deep analysis the store receives `FetchSaves`, without it nothing |
| BatchMerge.SaveOrMergeBatch.Execute | app/src/main/java/f/cking/software/domain/interactor/SaveOrMergeBatchInteractor.kt:25-69 | the store receives the merged batch and, with deep analysis, then the planner's `FetchSaves` of the handles; the result is the known count and the handles; no result iff deep analysis is on and the planner's `Schedule` of the handles aborts; the planner state follows `Schedule`; a location is saved at the first scan time iff there is a location, the batch is not empty and there is a result |
| RadarMatch.AdjustContact | app/src/main/java/f/cking/software/domain/interactor/CheckBatchForRadarMatchesInteractor.kt:39-42 | hash kept; time is the pre-merge time of the hash, else the device's previous time |
| RadarMatch.AdjustContacts | app/src/main/java/f/cking/software/domain/interactor/CheckBatchForRadarMatchesInteractor.kt:39-42 | contact by contact |
| RadarMatch.AdjustDevice | app/src/main/java/f/cking/software/domain/interactor/CheckBatchForRadarMatchesInteractor.kt:32-48 | only the last detection time and contact times change: the device time becomes the pre-merge time, each contact keeps its hash and gets its pre-merge time |
| RadarMatch.AdjustBatch | app/src/main/java/f/cking/software/domain/interactor/CheckBatchForRadarMatchesInteractor.kt:32-48 | device by device |
| RadarMatch.LatestTrigger | app/src/main/java/f/cking/software/data/repo/RadarProfilesRepository.kt:62-66 | null iff the profile has no rows; else the largest trigger time of its rows, attained by one |
| RadarMatch.IsCooledDown | app/src/main/java/f/cking/software/domain/interactor/CheckBatchForRadarMatchesInteractor.kt:75-87 | cooled down without a positive cooldown or an id; otherwise iff every earlier detect of the profile is more than the cooldown old |
| RadarMatch.MatchDevices | app/src/main/java/f/cking/software/domain/interactor/CheckBatchForRadarMatchesInteractor.kt:67-69 | the passing devices, in batch order; none without a filter |
| RadarMatch.CheckProfile | app/src/main/java/f/cking/software/domain/interactor/CheckBatchForRadarMatchesInteractor.kt:64-73 | a result iff active, cooled down and some device matches; it carries the matches |
| RadarMatch.ProfileResults | app/src/main/java/f/cking/software/domain/interactor/CheckBatchForRadarMatchesInteractor.kt:50-54 | exactly the non-null profile checks |
| RadarMatch.DetectRows | app/src/main/java/f/cking/software/domain/interactor/CheckBatchForRadarMatchesInteractor.kt:93-105 | one row per match at the detect time; none without a profile id |
| RadarMatch.ReportFor | app/src/main/java/f/cking/software/domain/interactor/CheckBatchForRadarMatchesInteractor.kt:112-117 | no report iff no profile id; else the id, the addresses and the location |
| RadarMatch.ReportStartsCooldown | app/src/main/java/f/cking/software/domain/interactor/CheckBatchForRadarMatchesInteractor.kt:75-118 | after a report the profile is not cooled down within its cooldown |
| RadarMatch.AllDetectRowsCoverMatches | app/src/main/java/f/cking/software/domain/interactor/CheckBatchForRadarMatchesInteractor.kt:56 | every match of every result with an id has a row, and nothing else does |
| RadarMatch.ReportsPrefixStep | app/src/main/java/f/cking/software/domain/interactor/CheckBatchForRadarMatchesInteractor.kt:56 | one more result extends rows, locations and reports by its own |
| RadarMatch.CheckBatchForRadarMatches.constructor | app/src/main/java/f/cking/software/domain/interactor/CheckBatchForRadarMatchesInteractor.kt:18-24 | given detect rows, nothing saved yet |
| RadarMatch.CheckBatchForRadarMatches.SaveReport | app/src/main/java/f/cking/software/domain/interactor/CheckBatchForRadarMatchesInteractor.kt:89-118 | appends its rows, its location and its report |
| RadarMatch.CheckBatchForRadarMatches.Execute | app/src/main/java/f/cking/software/domain/interactor/CheckBatchForRadarMatchesInteractor.kt:26-62 | the results are `ProfileResults` of the rewound batch; rows, locations and reports of all results are appended |
| RadarMatch.CheckBatchForRadarMatches.SaveReports | app/src/main/java/f/cking/software/domain/interactor/CheckBatchForRadarMatchesInteractor.kt:56 | the loop appends exactly `AllDetectRows`, `ReportLocations` and `Reports` |

## Left out

- Concurrency.
  - `mapParallel` and the coroutine dispatchers are not modelled.
  - The planner's shards are collected shard after shard. The order matters
    when one address is fetched twice. It also decides which fetches have
    written their metadata back when a max-connections failure aborts the
    call; in the app, fetches of other shards may still finish first.
  - The profile checks run in profile order.
- Timeouts.
  - The 8-second per-device and 30-second total soft timeouts are not
    modelled; each device's outcome is a parameter.
  - In the GATT fetch, the 100 ms forced-close job is only a flag set by
    `disconnect` and cleared by `submitMetadata`. The close it would run
    later is not modelled.
- GattFetch.Execute: the flow never ends by itself. A finite event list that
  ends before any emission is `StillWaiting`, not the `null` of
  `firstOrNull`.
- Errors.
  - `MaxConnectionsReached` is not caught by `fetchDevice`. It aborts the
    planner call (`Aborted`), and `SaveOrMergeBatch.Execute` then ends after
    saving the batch, with no location and no result.
  - Other exceptions are not modelled.
- Integer widths.
  - Int/Long overflow is not modelled. The counters, detect counts and
    times are unbounded.
  - The Float error rate is compared by exact integer cross-multiplication.
    Float rounding near 0.75 is not modelled.
- AddressInfo.ParseHexInt: only ASCII digits and letters are hex digits.
  Kotlin's `Character.digit` also accepts other Unicode digits, such as
  full-width ones; those fields parse here as null.
- AddressInfo.Lower: only ASCII letters are folded. Kotlin's `ignoreCase`
  compares Unicode case, so a company name that matches "apple" or
  "microsoft" only through a non-ASCII letter is not listed by
  `PrivateAddressManufacturers`.
- FetchPlanner.CountUpdated, CountEmptySuccess, CountTimeouts and
  CountErrors: their own contracts only bound the count; what they count is
  stated by `FetchAllDevicesCounts` and `CountsPartitionFeedback`.
- Devices.Distance: `Math.pow` is a parameter. The Float conversion and the
  double arithmetic are real arithmetic.
- The record's `isConnectable` field is read by the scan builder and the
  planner but is missing from the record declaration in `DeviceData.kt`. The
  model gives the record that field.
- Store queries.
  - `getAllByAddresses` splits the addresses into chunks but queries the
    whole address list once per chunk; `associateBy` then collapses the
    repeated rows. The model does one lookup, which gives the same map.
  - `getLatestProfileDetect` is the row with the largest trigger time.
  - Contact rows are assumed keyed by their own hash (`KeyedBySha`) where a
    lemma needs it.
- RadarMatch.CheckBatchForRadarMatches.Execute: every clock read of one check
  is the same `now`. `getFreshLocation` is one location parameter, not a
  read per report.
- UI, Room entities, the journal UI and the shader code are not part of this
  model.
- The company-name table `BluetoothSIG.bluetoothSIG` and the Android
  `BluetoothClass` constants are not part of this model. The constants are
  restated from the Assigned Numbers.
- `isKnown`, `mergeWithNewContact`, the filter checker, `distanceTo`, the
  manufacturer-data decoder, base64 and UTF-8 decoding, and `extract16BitUuid`
  are parameters, so no property of them is assumed.
