/**
 * The data the controller engine depends on: the unit's status, mode and button
 * codes, the error threshold and the fuel-sensor calibration, and the snapshot
 * records the acquisition passes fill in.
 */
module D300Types {
  import opened Words

  /** Operating state of the unit (register 10604). */
  datatype UniteDurumu =
    | JeneratorDinlenme | YakitOncesiBekleme | MotorOnIsitma | YagFlashBekleme
    | MarsDinlenmesi | MarsAtma | MotorRolantiHizi | MotorIsinmasi | YuksuzCalisma
    | SebekeyeSenkronizasyon | YukTransferiJeneratoreL | GenCBAktivasyonu
    | JeneratorCBZamanlayici | MasterJeneratorYuklu | PeakLopping | PowerExporting
    | SlaveJeneratorYuklu | SenkronizasyonSebekey | YukTransferiSebekey
    | MainsCBAktivasyonu | MainsCBZamanlayici | SogutmaliDurdurma | Soguyor
    | MotorStopRolanti | AcilDurdurma | MotorDuruyor

  function DurumKodu(d: UniteDurumu): uint16 {
    match d
    case JeneratorDinlenme => 0
    case YakitOncesiBekleme => 1
    case MotorOnIsitma => 2
    case YagFlashBekleme => 3
    case MarsDinlenmesi => 4
    case MarsAtma => 5
    case MotorRolantiHizi => 6
    case MotorIsinmasi => 7
    case YuksuzCalisma => 8
    case SebekeyeSenkronizasyon => 9
    case YukTransferiJeneratoreL => 10
    case GenCBAktivasyonu => 11
    case JeneratorCBZamanlayici => 12
    case MasterJeneratorYuklu => 13
    case PeakLopping => 14
    case PowerExporting => 15
    case SlaveJeneratorYuklu => 16
    case SenkronizasyonSebekey => 17
    case YukTransferiSebekey => 18
    case MainsCBAktivasyonu => 19
    case MainsCBZamanlayici => 20
    case SogutmaliDurdurma => 21
    case Soguyor => 22
    case MotorStopRolanti => 23
    case AcilDurdurma => 24
    case MotorDuruyor => 25
  }

  /**
   * The checked counterpart of the source's unchecked cast from a register value:
   * a code that names no state gives `None`.
   */
  function DurumFromKod(k: int): (r: Option<UniteDurumu>)
    ensures r.Some? ==> DurumKodu(r.value) == k
  {
    match k
    case 0 => Some(JeneratorDinlenme)
    case 1 => Some(YakitOncesiBekleme)
    case 2 => Some(MotorOnIsitma)
    case 3 => Some(YagFlashBekleme)
    case 4 => Some(MarsDinlenmesi)
    case 5 => Some(MarsAtma)
    case 6 => Some(MotorRolantiHizi)
    case 7 => Some(MotorIsinmasi)
    case 8 => Some(YuksuzCalisma)
    case 9 => Some(SebekeyeSenkronizasyon)
    case 10 => Some(YukTransferiJeneratoreL)
    case 11 => Some(GenCBAktivasyonu)
    case 12 => Some(JeneratorCBZamanlayici)
    case 13 => Some(MasterJeneratorYuklu)
    case 14 => Some(PeakLopping)
    case 15 => Some(PowerExporting)
    case 16 => Some(SlaveJeneratorYuklu)
    case 17 => Some(SenkronizasyonSebekey)
    case 18 => Some(YukTransferiSebekey)
    case 19 => Some(MainsCBAktivasyonu)
    case 20 => Some(MainsCBZamanlayici)
    case 21 => Some(SogutmaliDurdurma)
    case 22 => Some(Soguyor)
    case 23 => Some(MotorStopRolanti)
    case 24 => Some(AcilDurdurma)
    case 25 => Some(MotorDuruyor)
    case _ => None
  }

  /** The state codes are exactly 0 through 25, one per state. */
  lemma DurumCodesContiguous(k: int)
    ensures DurumFromKod(k).Some? <==> 0 <= k <= 25
  {
  }

  lemma DurumRoundTrip(d: UniteDurumu)
    ensures DurumFromKod(DurumKodu(d)) == Some(d)
  {
  }

  /** The states in which the engine turns: idle speed through slave-generator loaded. */
  predicate IsRunState(d: UniteDurumu) {
    match d
    case MotorRolantiHizi | MotorIsinmasi | YuksuzCalisma | SebekeyeSenkronizasyon
       | YukTransferiJeneratoreL | GenCBAktivasyonu | JeneratorCBZamanlayici
       | MasterJeneratorYuklu | PeakLopping | PowerExporting | SlaveJeneratorYuklu => true
    case _ => false
  }

  /** Operating mode (register 10605). */
  datatype UniteModu = STOP | MANUEL | AUTO | TEST

  function ModKodu(m: UniteModu): uint16 {
    match m
    case STOP => 1
    case MANUEL => 2
    case AUTO => 4
    case TEST => 8
  }

  function ModFromKod(k: int): (r: Option<UniteModu>)
    ensures r.Some? ==> ModKodu(r.value) == k
  {
    match k
    case 1 => Some(STOP)
    case 2 => Some(MANUEL)
    case 4 => Some(AUTO)
    case 8 => Some(TEST)
    case _ => None
  }

  lemma ModCodes(k: int)
    ensures ModFromKod(k).Some? <==> k in {1, 2, 4, 8}
  {
  }

  lemma ModRoundTrip(m: UniteModu)
    ensures ModFromKod(ModKodu(m)) == Some(m)
  {
  }

  datatype AlarmTipi = Kapatma | YukAtma | Uyari

  /** Bits of the button-simulation register (8193). */
  datatype ButonMaski =
    | STOP_BUTON | MANUEL_RUN | AUTO_BUTON | TEST_BUTON | RUN_D700 | GCB | MCB
    | MENU_PLUS | MENU_MINUS | UP | DOWN | LONG_PRESS | VERY_LONG_PRESS

  /** The bit each button occupies in the register. */
  function BitIndex(b: ButonMaski): nat {
    match b
    case STOP_BUTON => 0
    case MANUEL_RUN => 1
    case AUTO_BUTON => 2
    case TEST_BUTON => 3
    case RUN_D700 => 4
    case GCB => 5
    case MCB => 6
    case MENU_PLUS => 7
    case MENU_MINUS => 8
    case UP => 9
    case DOWN => 10
    case LONG_PRESS => 14
    case VERY_LONG_PRESS => 15
  }

  function Mask(b: ButonMaski): bv16 {
    match b
    case STOP_BUTON => 0x0001
    case MANUEL_RUN => 0x0002
    case AUTO_BUTON => 0x0004
    case TEST_BUTON => 0x0008
    case RUN_D700 => 0x0010
    case GCB => 0x0020
    case MCB => 0x0040
    case MENU_PLUS => 0x0080
    case MENU_MINUS => 0x0100
    case UP => 0x0200
    case DOWN => 0x0400
    case LONG_PRESS => 0x4000
    case VERY_LONG_PRESS => 0x8000
  }

  /** `static_cast<uint16_t>(buton)`: the mask as the register value written. */
  function MaskValue(b: ButonMaski): uint16 {
    Mask(b) as int
  }

  /** Each button is one bit of the register. */
  lemma MaskIsSingleBit(b: ButonMaski)
    ensures BitIndex(b) < 16 && Mask(b) == 1 << BitIndex(b)
  {
  }

  /** Distinct buttons have disjoint bits, so any two combine by `|` without overlap. */
  lemma MasksDisjoint(a: ButonMaski, b: ButonMaski)
    requires a != b
    ensures Mask(a) & Mask(b) == 0
    ensures BitIndex(a) != BitIndex(b)
  {
  }

  /** `STOP | LONG_PRESS`, the emergency-stop combination. */
  const EMERGENCY_MASK: uint16 := 0x4001

  lemma EmergencyMaskIsStopWithLongPress()
    ensures Mask(STOP_BUTON) | Mask(LONG_PRESS) == 0x4001
    ensures Mask(STOP_BUTON) & Mask(LONG_PRESS) == 0
    ensures EMERGENCY_MASK == (Mask(STOP_BUTON) | Mask(LONG_PRESS)) as int
    ensures EMERGENCY_MASK == MaskValue(STOP_BUTON) + MaskValue(LONG_PRESS)
  {
  }

  const MAX_ERRORS: uint8 := 5

  // Addresses of the control and identity registers and the reset command value.
  const BUTTON_REGISTER: uint16 := 8193
  const HARMONIC_CHANNEL_REGISTER: uint16 := 8194
  const RESET_REGISTER: uint16 := 8210
  const RESET_MAGIC: uint16 := 14536
  const IDENTITY_REGISTER: uint16 := 10609

  // Inclusive address ranges of the three alarm classes.
  const SHUTDOWN_FIRST: uint16 := 10504
  const SHUTDOWN_LAST: uint16 := 10519
  const LOAD_DUMP_FIRST: uint16 := 10520
  const LOAD_DUMP_LAST: uint16 := 10535
  const WARNING_FIRST: uint16 := 10536
  const WARNING_LAST: uint16 := 10551

  // Fuel-sensor divider and calibration (ohms, volts).
  const R1: real := 680.0
  const R2: real := 4700.0
  const ESP32_VREF: real := 3.3
  const FUEL_EMPTY_RESISTANCE: real := 10.0
  const FUEL_FULL_RESISTANCE: real := 180.0

  // The snapshot records. Physical quantities are reals; counters and raw
  // registers keep their C width.

  datatype FazVerisi = FazVerisi(
    Voltaj: real, Akim: real, AktifGuc: real, ReaktifGuc: real,
    GorunurGuc: real, GucFaktoru: real)

  const FAZ_SIFIR := FazVerisi(0.0, 0.0, 0.0, 0.0, 0.0, 0.0)

  datatype ToplamVerisi = ToplamVerisi(
    AktifGuc: real, ReaktifGuc: real, GorunurGuc: real, GucFaktoru: real,
    OrtalamaVoltaj: real, OrtalamaAkim: real)

  const TOPLAM_SIFIR := ToplamVerisi(0.0, 0.0, 0.0, 0.0, 0.0, 0.0)

  datatype ElektrikselSistem = ElektrikselSistem(
    L1: FazVerisi, L2: FazVerisi, L3: FazVerisi, Toplam: ToplamVerisi,
    Frekans: real, FazVoltajL1L2: real, FazVoltajL2L3: real, FazVoltajL3L1: real,
    NeutralAkim: real)

  const ELEKTRIK_SIFIR := ElektrikselSistem(FAZ_SIFIR, FAZ_SIFIR, FAZ_SIFIR, TOPLAM_SIFIR,
                                            0.0, 0.0, 0.0, 0.0, 0.0)

  /** The two measured sides: mains (`Sebeke`) and generator (`Jenerator`). */
  datatype ElektrikSistemiVerisi = ElektrikSistemiVerisi(Sebeke: ElektrikselSistem, Jenerator: ElektrikselSistem)

  const ELEKTRIK_SISTEMI_SIFIR := ElektrikSistemiVerisi(ELEKTRIK_SIFIR, ELEKTRIK_SIFIR)

  /** Engine data; `HariciYakitSeviyesi` exists in the split variant only. */
  datatype MotorVerileri = MotorVerileri(
    RPM: real, Sicaklik: real, YagBasinci: real, YakitSeviyesi: real,
    HariciYakitSeviyesi: real, YagSicakligi: real, KanopyicSicaklik: real,
    OrtamSicakligi: real, BataryaVoltaji: real, MinBataryaVoltaji: real,
    SarjVoltaji: real, SarjAkimi: real)

  const MOTOR_SIFIR := MotorVerileri(0.0, 0.0, 0.0, 0.0, 0.0, 0.0, 0.0, 0.0, 0.0, 0.0, 0.0, 0.0)

  /** System status; `Durum` and `Mod` hold the raw register value, unchecked as in the source. */
  datatype SistemDurumu = SistemDurumu(
    Durum: uint16, Mod: uint16, OperasyonZamanlayici: uint16,
    GOVKontrolCikis: real, AVRKontrolCikis: real,
    KapatmaAlarmi: bool, YukAtmaAlarmi: bool, UyariAlarmi: bool,
    CihazKimlik: uint16, DonanimVersiyon: uint16, YazilimVersiyon: uint16)

  const SISTEM_BASLANGIC := SistemDurumu(DurumKodu(JeneratorDinlenme), ModKodu(STOP), 0,
                                         0.0, 0.0, false, false, false, 0, 0, 0)

  /** Counters; `FlowMeter` exists in the single-file variant only. */
  datatype Sayaclar = Sayaclar(
    JeneratorCalismaAdedi: uint32, JeneratorMarsAdedi: uint32, JeneratorYukluCalisma: uint32,
    MotorCalismaSaati: real, SonServistenBeriSaat: real, SonServistenBeriGun: real,
    ToplamAktifEnerji: real, ToplamReaktifEnerjiInd: real, ToplamReaktifEnerjiCap: real,
    YakitSayaci: real, FlowMeter: real)

  const SAYAC_SIFIR := Sayaclar(0, 0, 0, 0.0, 0.0, 0.0, 0.0, 0.0, 0.0, 0.0, 0.0)

  datatype AnalogGirisler = AnalogGirisler(
    Analog1Ohm: uint16, Analog2Ohm: uint16, Analog3Ohm: uint16, Analog4Ohm: uint16,
    Analog5Ohm: uint16, Analog6Ohm: uint16, Analog7Deger: uint16, Analog8Deger: uint16)

  const ANALOG_SIFIR := AnalogGirisler(0, 0, 0, 0, 0, 0, 0, 0)

  /** Harmonic data (single-file variant); `SeciliKanal` keeps the low byte of the register. */
  datatype HarmonikVerileri = HarmonikVerileri(
    THD: real, Fundamental: real, H3: real, H5: real, H7: real, H9: real,
    H11: real, H13: real, H15: real, H17: real, H19: real, H21: real, H23: real,
    H25: real, H27: real, H29: real, H31: real, SeciliKanal: uint8)

  const HARMONIK_BASLANGIC := HarmonikVerileri(0.0, 0.0, 0.0, 0.0, 0.0, 0.0, 0.0, 0.0, 0.0, 0.0,
                                               0.0, 0.0, 0.0, 0.0, 0.0, 0.0, 0.0, 3)

  /** GPS position (single-file variant), kept as the raw 32-bit patterns the registers hold. */
  datatype GPSVeriler = GPSVeriler(EnlemBits: uint32, BoylamBits: uint32, YukseklikBits: uint32)

  const GPS_SIFIR := GPSVeriler(0, 0, 0)

  /** Communication data (single-file variant); the MAC address is kept as its text. */
  datatype IletisimVerileri = IletisimVerileri(
    EthernetResetSayaci: uint16, EthernetTCPPaketSayaci: uint16, MAC_Adresi: string,
    CihazKimlikNo: string, ModemIMEI: string, GPRS_IP: uint32)

  const ILETISIM_BOS := IletisimVerileri(0, 0, "", "", "", 0)
}
