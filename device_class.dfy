/**
 * Class-of-Device decoding: the 13-bit major/minor device class reported by
 * the platform is turned into a closed family of device categories. The
 * constants are the Class-of-Device major and minor numbers of the Bluetooth
 * SIG Assigned Numbers, section 2.8 "Class of Device", as Android exposes them.
 */
module DeviceClasses {

  datatype PhoneKind = PhoneUncategorised | Smartphone | Cellular | ModemOrGateway | Isdn | Cordless
  datatype ComputerKind = ComputerUncategorised | Laptop | Desktop | Server | ComputerWearable
  datatype AudioVideoKind =
    | AudioVideoUncategorised | WearableHeadset | HandsFree | Microphone | Loudspeaker
    | Headphones | PortableAudio | CarAudio | SetTopBox | HifiAudio | Vcr | VideoCamera
    | Camcorder | VideoMonitor | VideoDisplayAndLoudspeaker | VideoConferencing | VideoGamingToy
  datatype WearableKind = WearableUncategorised | WristWatch | Pager | Jacket | Helmet | Glasses
  datatype ToyKind = ToyUncategorised | Robot | Vehicle | Doll | Controller | Game
  datatype HealthKind =
    | HealthUncategorised | BloodPressure | Thermometer | Weighing | Glucose
    | PulseOximeter | HeartPulseRate | HealthDataDisplay
  datatype PeripheralKind = PeripheralUncategorised | Keyboard | Pointing | KeyboardPointing

  /** The sealed `DeviceClass` hierarchy: one constructor per family. */
  datatype DeviceClass =
    | Unknown
    | Phone(phone: PhoneKind)
    | Computer(computer: ComputerKind)
    | AudioVideo(audioVideo: AudioVideoKind)
    | Wearable(wearable: WearableKind)
    | Toy(toy: ToyKind)
    | Health(health: HealthKind)
    | Peripheral(peripheral: PeripheralKind)

  const MAJOR_BIT_MASK: int := 0x1F00

  // Major device classes
  const MAJOR_COMPUTER: int := 0x0100
  const MAJOR_PHONE: int := 0x0200
  const MAJOR_AUDIO_VIDEO: int := 0x0400
  const MAJOR_WEARABLE: int := 0x0700
  const MAJOR_TOY: int := 0x0800
  const MAJOR_HEALTH: int := 0x0900

  // Full device classes (major | minor)
  const COMPUTER_DESKTOP: int := 0x0104
  const COMPUTER_SERVER: int := 0x0108
  const COMPUTER_LAPTOP: int := 0x010C
  const COMPUTER_HANDHELD_PC_PDA: int := 0x0110
  const COMPUTER_PALM_SIZE_PC_PDA: int := 0x0114
  const COMPUTER_WEARABLE: int := 0x0118

  const PHONE_CELLULAR: int := 0x0204
  const PHONE_CORDLESS: int := 0x0208
  const PHONE_SMART: int := 0x020C
  const PHONE_MODEM_OR_GATEWAY: int := 0x0210
  const PHONE_ISDN: int := 0x0214

  const AUDIO_VIDEO_UNCATEGORIZED: int := 0x0400
  const AUDIO_VIDEO_WEARABLE_HEADSET: int := 0x0404
  const AUDIO_VIDEO_HANDSFREE: int := 0x0408
  const AUDIO_VIDEO_MICROPHONE: int := 0x0410
  const AUDIO_VIDEO_LOUDSPEAKER: int := 0x0414
  const AUDIO_VIDEO_HEADPHONES: int := 0x0418
  const AUDIO_VIDEO_PORTABLE_AUDIO: int := 0x041C
  const AUDIO_VIDEO_CAR_AUDIO: int := 0x0420
  const AUDIO_VIDEO_SET_TOP_BOX: int := 0x0424
  const AUDIO_VIDEO_HIFI_AUDIO: int := 0x0428
  const AUDIO_VIDEO_VCR: int := 0x042C
  const AUDIO_VIDEO_VIDEO_CAMERA: int := 0x0430
  const AUDIO_VIDEO_CAMCORDER: int := 0x0434
  const AUDIO_VIDEO_VIDEO_MONITOR: int := 0x0438
  const AUDIO_VIDEO_VIDEO_DISPLAY_AND_LOUDSPEAKER: int := 0x043C
  const AUDIO_VIDEO_VIDEO_CONFERENCING: int := 0x0440
  const AUDIO_VIDEO_VIDEO_GAMING_TOY: int := 0x0448

  const WEARABLE_WRIST_WATCH: int := 0x0704
  const WEARABLE_PAGER: int := 0x0708
  const WEARABLE_JACKET: int := 0x070C
  const WEARABLE_HELMET: int := 0x0710
  const WEARABLE_GLASSES: int := 0x0714

  const TOY_ROBOT: int := 0x0804
  const TOY_VEHICLE: int := 0x0808
  const TOY_DOLL_ACTION_FIGURE: int := 0x080C
  const TOY_CONTROLLER: int := 0x0810
  const TOY_GAME: int := 0x0814

  const HEALTH_BLOOD_PRESSURE: int := 0x0904
  const HEALTH_THERMOMETER: int := 0x0908
  const HEALTH_WEIGHING: int := 0x090C

  /**
   * Kotlin's `and` on two's-complement integers, taken bit by bit from the
   * least significant: Euclidean `/ 2` is the arithmetic shift and `% 2` the
   * low bit, also for negative `a`. The mask `b` is non-negative, so the
   * result does not depend on the integer width.
   */
  function BitAnd(a: int, b: int): int
    requires b >= 0
    decreases b
  {
    if b == 0 then 0 else 2 * BitAnd(a / 2, b / 2) + (if a % 2 == 1 && b % 2 == 1 then 1 else 0)
  }

  lemma ClearBit(a: int, m: int)
    requires m >= 0
    ensures BitAnd(a, 2 * m) == 2 * BitAnd(a / 2, m)
  {
    if m > 0 {
      assert (2 * m) / 2 == m && (2 * m) % 2 == 0;
    }
  }

  lemma SetBit(a: int, m: int)
    requires m >= 0
    ensures BitAnd(a, 2 * m + 1) == 2 * BitAnd(a / 2, m) + a % 2
  {
    assert (2 * m + 1) / 2 == m && (2 * m + 1) % 2 == 1;
  }

  /** Masking with 0x1F00 keeps bits 8 to 12: eight cleared bits, then five kept ones. */
  lemma MaskBits(x: int)
    ensures ((x / 0x100) % 0x20) * 0x100 == BitAnd(x, MAJOR_BIT_MASK)
  {
    ClearLowByte(x);
    KeepFiveBits(x / 0x100);
  }

  /** The eight low bits of the mask are clear. */
  lemma ClearLowByte(x: int)
    ensures BitAnd(x, 0x1F00) == 0x100 * BitAnd(x / 0x100, 0x1F)
  {
    var x1 := x / 2; var x2 := x1 / 2; var x3 := x2 / 2; var x4 := x3 / 2;
    var x5 := x4 / 2; var x6 := x5 / 2; var x7 := x6 / 2; var x8 := x7 / 2;
    ClearBit(x, 0xF80); ClearBit(x1, 0x7C0); ClearBit(x2, 0x3E0); ClearBit(x3, 0x1F0);
    ClearBit(x4, 0xF8); ClearBit(x5, 0x7C); ClearBit(x6, 0x3E); ClearBit(x7, 0x1F);
    assert x8 == x / 0x100;
  }

  /** Five set bits keep the five low bits. */
  lemma KeepFiveBits(y: int)
    ensures BitAnd(y, 0x1F) == y % 0x20
  {
    var y1 := y / 2; var y2 := y1 / 2; var y3 := y2 / 2; var y4 := y3 / 2; var y5 := y4 / 2;
    SetBit(y, 0xF); SetBit(y1, 0x7); SetBit(y2, 0x3); SetBit(y3, 0x1); SetBit(y4, 0);
    assert BitAnd(y5, 0) == 0;
    assert y5 == y / 0x20;
  }

  /** `systemClass and MAJOR_BIT_MASK`: bits 8 to 12 of the class. */
  function Major(systemClass: int): (m: int)
    ensures 0 <= m <= MAJOR_BIT_MASK && m % 0x100 == 0
  {
    ((systemClass / 0x100) % 0x20) * 0x100
  }

  /** The major class is the class masked with `MAJOR_BIT_MASK`, for every Int. */
  lemma MajorIsMask(systemClass: int)
    ensures Major(systemClass) == BitAnd(systemClass, MAJOR_BIT_MASK)
  {
    MaskBits(systemClass);
  }

  /** A phone minor code decodes to its kind; any other value to `PhoneUncategorised`. */
  function PhoneFromClass(systemClass: int): (r: PhoneKind)
    ensures r == PhoneUncategorised <==>
      systemClass !in {PHONE_CELLULAR, PHONE_CORDLESS, PHONE_ISDN, PHONE_MODEM_OR_GATEWAY, PHONE_SMART}
    ensures r != PhoneUncategorised ==> Major(systemClass) == MAJOR_PHONE
  {
    if systemClass == PHONE_CELLULAR then Cellular
    else if systemClass == PHONE_CORDLESS then Cordless
    else if systemClass == PHONE_ISDN then Isdn
    else if systemClass == PHONE_MODEM_OR_GATEWAY then ModemOrGateway
    else if systemClass == PHONE_SMART then Smartphone
    else PhoneUncategorised
  }

  /** The three portable codes share `Laptop`; an unnamed value is `ComputerUncategorised`. */
  function ComputerFromClass(systemClass: int): (r: ComputerKind)
    ensures r == Laptop <==> systemClass in {COMPUTER_HANDHELD_PC_PDA, COMPUTER_LAPTOP, COMPUTER_PALM_SIZE_PC_PDA}
    ensures r == ComputerUncategorised <==>
      systemClass !in {COMPUTER_DESKTOP, COMPUTER_HANDHELD_PC_PDA, COMPUTER_LAPTOP,
                       COMPUTER_PALM_SIZE_PC_PDA, COMPUTER_SERVER, COMPUTER_WEARABLE}
    ensures r != ComputerUncategorised ==> Major(systemClass) == MAJOR_COMPUTER
  {
    if systemClass == COMPUTER_DESKTOP then Desktop
    else if systemClass == COMPUTER_HANDHELD_PC_PDA then Laptop
    else if systemClass == COMPUTER_LAPTOP then Laptop
    else if systemClass == COMPUTER_PALM_SIZE_PC_PDA then Laptop
    else if systemClass == COMPUTER_SERVER then Server
    else if systemClass == COMPUTER_WEARABLE then ComputerWearable
    else ComputerUncategorised
  }

  /** Sixteen named audio/video codes; the uncategorised code and any other value give `AudioVideoUncategorised`. */
  function AudioVideoFromClass(systemClass: int): (r: AudioVideoKind)
    ensures r == AudioVideoUncategorised <==>
      systemClass !in {AUDIO_VIDEO_CAMCORDER, AUDIO_VIDEO_CAR_AUDIO, AUDIO_VIDEO_HANDSFREE,
                       AUDIO_VIDEO_HEADPHONES, AUDIO_VIDEO_HIFI_AUDIO, AUDIO_VIDEO_LOUDSPEAKER,
                       AUDIO_VIDEO_MICROPHONE, AUDIO_VIDEO_PORTABLE_AUDIO, AUDIO_VIDEO_SET_TOP_BOX,
                       AUDIO_VIDEO_VCR, AUDIO_VIDEO_VIDEO_CAMERA, AUDIO_VIDEO_VIDEO_CONFERENCING,
                       AUDIO_VIDEO_VIDEO_DISPLAY_AND_LOUDSPEAKER, AUDIO_VIDEO_VIDEO_GAMING_TOY,
                       AUDIO_VIDEO_VIDEO_MONITOR, AUDIO_VIDEO_WEARABLE_HEADSET}
    ensures r != AudioVideoUncategorised ==> Major(systemClass) == MAJOR_AUDIO_VIDEO
  {
    if systemClass == AUDIO_VIDEO_CAMCORDER then Camcorder
    else if systemClass == AUDIO_VIDEO_CAR_AUDIO then CarAudio
    else if systemClass == AUDIO_VIDEO_HANDSFREE then HandsFree
    else if systemClass == AUDIO_VIDEO_HEADPHONES then Headphones
    else if systemClass == AUDIO_VIDEO_HIFI_AUDIO then HifiAudio
    else if systemClass == AUDIO_VIDEO_LOUDSPEAKER then Loudspeaker
    else if systemClass == AUDIO_VIDEO_MICROPHONE then Microphone
    else if systemClass == AUDIO_VIDEO_PORTABLE_AUDIO then PortableAudio
    else if systemClass == AUDIO_VIDEO_SET_TOP_BOX then SetTopBox
    else if systemClass == AUDIO_VIDEO_UNCATEGORIZED then AudioVideoUncategorised
    else if systemClass == AUDIO_VIDEO_VCR then Vcr
    else if systemClass == AUDIO_VIDEO_VIDEO_CAMERA then VideoCamera
    else if systemClass == AUDIO_VIDEO_VIDEO_CONFERENCING then VideoConferencing
    else if systemClass == AUDIO_VIDEO_VIDEO_DISPLAY_AND_LOUDSPEAKER then VideoDisplayAndLoudspeaker
    else if systemClass == AUDIO_VIDEO_VIDEO_GAMING_TOY then VideoGamingToy
    else if systemClass == AUDIO_VIDEO_VIDEO_MONITOR then VideoMonitor
    else if systemClass == AUDIO_VIDEO_WEARABLE_HEADSET then WearableHeadset
    else AudioVideoUncategorised
  }

  /** A wearable minor code decodes to its kind; any other value to `WearableUncategorised`. */
  function WearableFromClass(systemClass: int): (r: WearableKind)
    ensures r == WearableUncategorised <==>
      systemClass !in {WEARABLE_GLASSES, WEARABLE_HELMET, WEARABLE_JACKET, WEARABLE_PAGER, WEARABLE_WRIST_WATCH}
    ensures r != WearableUncategorised ==> Major(systemClass) == MAJOR_WEARABLE
  {
    if systemClass == WEARABLE_GLASSES then Glasses
    else if systemClass == WEARABLE_HELMET then Helmet
    else if systemClass == WEARABLE_JACKET then Jacket
    else if systemClass == WEARABLE_PAGER then Pager
    else if systemClass == WEARABLE_WRIST_WATCH then WristWatch
    else WearableUncategorised
  }

  /** A toy minor code decodes to its kind; any other value to `ToyUncategorised`. */
  function ToyFromClass(systemClass: int): (r: ToyKind)
    ensures r == ToyUncategorised <==>
      systemClass !in {TOY_CONTROLLER, TOY_DOLL_ACTION_FIGURE, TOY_GAME, TOY_ROBOT, TOY_VEHICLE}
    ensures r != ToyUncategorised ==> Major(systemClass) == MAJOR_TOY
  {
    if systemClass == TOY_CONTROLLER then Controller
    else if systemClass == TOY_DOLL_ACTION_FIGURE then Doll
    else if systemClass == TOY_GAME then Game
    else if systemClass == TOY_ROBOT then Robot
    else if systemClass == TOY_VEHICLE then Vehicle
    else ToyUncategorised
  }

  /** Only three health kinds are ever produced; any other value is `HealthUncategorised`. */
  function HealthFromClass(systemClass: int): (r: HealthKind)
    ensures r in {HealthUncategorised, BloodPressure, Thermometer, Weighing}
    ensures r == HealthUncategorised <==>
      systemClass !in {HEALTH_BLOOD_PRESSURE, HEALTH_THERMOMETER, HEALTH_WEIGHING}
    ensures r != HealthUncategorised ==> Major(systemClass) == MAJOR_HEALTH
  {
    if systemClass == HEALTH_BLOOD_PRESSURE then BloodPressure
    else if systemClass == HEALTH_THERMOMETER then Thermometer
    else if systemClass == HEALTH_WEIGHING then Weighing
    else HealthUncategorised
  }

  /**
   * `BuildDeviceClassFromSystemInfo.execute`: the family is chosen by the
   * major bits alone, and a major class outside the six handled families
   * gives `Unknown`.
   */
  function BuildDeviceClass(systemClass: int): (r: DeviceClass)
    ensures r.Phone? <==> Major(systemClass) == MAJOR_PHONE
    ensures r.Computer? <==> Major(systemClass) == MAJOR_COMPUTER
    ensures r.AudioVideo? <==> Major(systemClass) == MAJOR_AUDIO_VIDEO
    ensures r.Wearable? <==> Major(systemClass) == MAJOR_WEARABLE
    ensures r.Toy? <==> Major(systemClass) == MAJOR_TOY
    ensures r.Health? <==> Major(systemClass) == MAJOR_HEALTH
    ensures r == Unknown <==>
      Major(systemClass) !in {MAJOR_PHONE, MAJOR_COMPUTER, MAJOR_AUDIO_VIDEO, MAJOR_WEARABLE, MAJOR_TOY, MAJOR_HEALTH}
    ensures !r.Peripheral?
    ensures r.Health? ==> r.health in {HealthUncategorised, BloodPressure, Thermometer, Weighing}
  {
    var major := Major(systemClass);
    if major == MAJOR_PHONE then Phone(PhoneFromClass(systemClass))
    else if major == MAJOR_COMPUTER then Computer(ComputerFromClass(systemClass))
    else if major == MAJOR_AUDIO_VIDEO then AudioVideo(AudioVideoFromClass(systemClass))
    else if major == MAJOR_WEARABLE then Wearable(WearableFromClass(systemClass))
    else if major == MAJOR_TOY then Toy(ToyFromClass(systemClass))
    else if major == MAJOR_HEALTH then Health(HealthFromClass(systemClass))
    else Unknown
  }

  /** The three hand-held and portable computer codes all decode to `Computer.Laptop`. */
  lemma PortableComputersAreLaptops()
    ensures BuildDeviceClass(COMPUTER_HANDHELD_PC_PDA) == Computer(Laptop)
    ensures BuildDeviceClass(COMPUTER_LAPTOP) == Computer(Laptop)
    ensures BuildDeviceClass(COMPUTER_PALM_SIZE_PC_PDA) == Computer(Laptop)
  {
  }

  /**
   * A minor code that none of a family's branches names gives that family's
   * `Uncategorised` member.
   */
  lemma UnmatchedMinorIsUncategorised(systemClass: int)
    ensures Major(systemClass) == MAJOR_PHONE
      && systemClass !in {PHONE_CELLULAR, PHONE_CORDLESS, PHONE_ISDN, PHONE_MODEM_OR_GATEWAY, PHONE_SMART}
      ==> BuildDeviceClass(systemClass) == Phone(PhoneUncategorised)
    ensures Major(systemClass) == MAJOR_COMPUTER
      && systemClass !in {COMPUTER_DESKTOP, COMPUTER_HANDHELD_PC_PDA, COMPUTER_LAPTOP,
                          COMPUTER_PALM_SIZE_PC_PDA, COMPUTER_SERVER, COMPUTER_WEARABLE}
      ==> BuildDeviceClass(systemClass) == Computer(ComputerUncategorised)
    ensures Major(systemClass) == MAJOR_AUDIO_VIDEO
      && systemClass !in {AUDIO_VIDEO_CAMCORDER, AUDIO_VIDEO_CAR_AUDIO, AUDIO_VIDEO_HANDSFREE,
                          AUDIO_VIDEO_HEADPHONES, AUDIO_VIDEO_HIFI_AUDIO, AUDIO_VIDEO_LOUDSPEAKER,
                          AUDIO_VIDEO_MICROPHONE, AUDIO_VIDEO_PORTABLE_AUDIO, AUDIO_VIDEO_SET_TOP_BOX,
                          AUDIO_VIDEO_VCR, AUDIO_VIDEO_VIDEO_CAMERA, AUDIO_VIDEO_VIDEO_CONFERENCING,
                          AUDIO_VIDEO_VIDEO_DISPLAY_AND_LOUDSPEAKER, AUDIO_VIDEO_VIDEO_GAMING_TOY,
                          AUDIO_VIDEO_VIDEO_MONITOR, AUDIO_VIDEO_WEARABLE_HEADSET}
      ==> BuildDeviceClass(systemClass) == AudioVideo(AudioVideoUncategorised)
    ensures Major(systemClass) == MAJOR_WEARABLE
      && systemClass !in {WEARABLE_GLASSES, WEARABLE_HELMET, WEARABLE_JACKET, WEARABLE_PAGER, WEARABLE_WRIST_WATCH}
      ==> BuildDeviceClass(systemClass) == Wearable(WearableUncategorised)
    ensures Major(systemClass) == MAJOR_TOY
      && systemClass !in {TOY_CONTROLLER, TOY_DOLL_ACTION_FIGURE, TOY_GAME, TOY_ROBOT, TOY_VEHICLE}
      ==> BuildDeviceClass(systemClass) == Toy(ToyUncategorised)
    ensures Major(systemClass) == MAJOR_HEALTH
      && systemClass !in {HEALTH_BLOOD_PRESSURE, HEALTH_THERMOMETER, HEALTH_WEIGHING}
      ==> BuildDeviceClass(systemClass) == Health(HealthUncategorised)
  {
  }

  /**
   * Service-class bits above the major/minor field do not change the family,
   * but they make every exact minor comparison fail.
   */
  lemma ServiceBitsKeepFamily(systemClass: int, service: nat)
    requires 0 <= systemClass < 0x2000 && service > 0
    ensures Major(systemClass + service * 0x2000) == Major(systemClass)
    ensures BuildDeviceClass(systemClass + service * 0x2000)
      == match BuildDeviceClass(systemClass)
         case Phone(_) => Phone(PhoneUncategorised)
         case Computer(_) => Computer(ComputerUncategorised)
         case AudioVideo(_) => AudioVideo(AudioVideoUncategorised)
         case Wearable(_) => Wearable(WearableUncategorised)
         case Toy(_) => Toy(ToyUncategorised)
         case Health(_) => Health(HealthUncategorised)
         case other => other
  {
    var x := systemClass + service * 0x2000;
    assert x == (systemClass / 0x100 + service * 0x20) * 0x100 + systemClass % 0x100;
    assert x / 0x100 == systemClass / 0x100 + service * 0x20;
    assert (x / 0x100) % 0x20 == (systemClass / 0x100) % 0x20;
    assert x >= 0x2000;
  }
}
