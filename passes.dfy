/**
 * The acquisition passes both variants share, as functions of the bus's replies: the
 * requests each pass issues, in order, and the snapshot record it leaves behind.
 * A pass whose replies start at request number `c` reads its k-th register from
 * reply `c + k`; a field whose read fails keeps its previous value.
 */
module Passes {
  import opened Words
  import opened Bus
  import opened RegisterDecode
  import opened LinkHealth
  import opened AlarmScan
  import opened D300Types

  /** `static_cast<HarmonikKanal>(kanal)`: the enum is 8 bits wide, so the low byte is kept. */
  function KanalByte(w: uint16): (b: uint8)
    ensures b < 0x100 && (w < 0x100 ==> b == w)
    ensures b == w - (w / 0x100) * 0x100
  {
    w % 0x100
  }

  /** The harmonic-channel read: the low byte of the word on success, else the previous channel. */
  function KanalRead(reply: Reply, previous: uint8): uint8 {
    if ReadOk(reply, 1) then KanalByte(reply.words[0]) else previous
  }

  /** No request from `from` on, for `n` requests, gets any response. */
  ghost predicate Silent(rs: seq<Reply>, from: nat, n: nat) {
    forall i :: from <= i < from + n ==> ReplyAt(rs, i) == NoResponse
  }

  /** The first seven reads of `updateMotorVerileri`: speed, then temperatures, pressure and level. */
  const MOTOR_ISIL_REQUESTS: seq<Request> := [
    ReadHolding(10376, 1), ReadHolding(10362, 1), ReadHolding(10361, 1), ReadHolding(10363, 1),
    ReadHolding(10364, 1), ReadHolding(10365, 1), ReadHolding(10366, 1)]

  /** The last four reads of `updateMotorVerileri`: battery, minimum battery, charge voltage and current. */
  const MOTOR_BATARYA_REQUESTS: seq<Request> := [
    ReadHolding(10341, 1), ReadHolding(10385, 1), ReadHolding(10340, 1), ReadHolding(11173, 1)]

  /** The D-300 reads of `updateMotorVerileri`, in order. */
  const MOTOR_REQUESTS: seq<Request> :=
    MOTOR_ISIL_REQUESTS + MOTOR_BATARYA_REQUESTS

  /** The engine record after its speed, temperature, pressure and level reads. */
  function MotorIsilPass(rs: seq<Reply>, c: nat, m: MotorVerileri): MotorVerileri {
    m.(
      RPM := Float16(ReplyAt(rs, c), 1, m.RPM),
      Sicaklik := Float16(ReplyAt(rs, c + 1), 10, m.Sicaklik),
      YagBasinci := Float16(ReplyAt(rs, c + 2), 10, m.YagBasinci),
      YakitSeviyesi := Float16(ReplyAt(rs, c + 3), 10, m.YakitSeviyesi),
      YagSicakligi := Float16(ReplyAt(rs, c + 4), 10, m.YagSicakligi),
      KanopyicSicaklik := Float16(ReplyAt(rs, c + 5), 10, m.KanopyicSicaklik),
      OrtamSicakligi := Float16(ReplyAt(rs, c + 6), 10, m.OrtamSicakligi))
  }

  /** The engine record after its battery and charger reads. */
  function MotorBataryaPass(rs: seq<Reply>, c: nat, m: MotorVerileri): MotorVerileri {
    m.(
      BataryaVoltaji := Float16(ReplyAt(rs, c), 100, m.BataryaVoltaji),
      MinBataryaVoltaji := Float16(ReplyAt(rs, c + 1), 100, m.MinBataryaVoltaji),
      SarjVoltaji := Float16(ReplyAt(rs, c + 2), 100, m.SarjVoltaji),
      SarjAkimi := Float16(ReplyAt(rs, c + 3), 10, m.SarjAkimi))
  }

  /** The engine record after the D-300 reads of `updateMotorVerileri`. */
  function MotorVerileriPass(rs: seq<Reply>, c: nat, m: MotorVerileri): MotorVerileri {
    MotorBataryaPass(rs, c + 7, MotorIsilPass(rs, c, m))
  }

  /** The state and mode reads that open `updateSistemDurumu`. */
  const DURUM_MOD_REQUESTS: seq<Request> := [
    ReadHolding(10604, 1), ReadHolding(10605, 1)]

  /** The remaining reads of `updateSistemDurumu`: timer, governor and AVR outputs, identity and versions. */
  const SISTEM_BILGI_REQUESTS: seq<Request> := [
    ReadHolding(10606, 1), ReadHolding(10607, 1), ReadHolding(10608, 1), ReadHolding(10609, 1),
    ReadHolding(10610, 1), ReadHolding(10611, 1)]

  /** The reads of `updateSistemDurumu`, in order. */
  const SISTEM_REQUESTS: seq<Request> :=
    DURUM_MOD_REQUESTS + SISTEM_BILGI_REQUESTS

  /** The status record after the state and mode words are stored as read. */
  function DurumModPass(rs: seq<Reply>, c: nat, st: SistemDurumu): SistemDurumu {
    st.(
      Durum := Raw16(ReplyAt(rs, c), st.Durum),
      Mod := Raw16(ReplyAt(rs, c + 1), st.Mod))
  }

  /** The status record after the timer, the two controller outputs, the identity and the versions. */
  function SistemBilgiPass(rs: seq<Reply>, c: nat, st: SistemDurumu): SistemDurumu {
    st.(
      OperasyonZamanlayici := Raw16(ReplyAt(rs, c), st.OperasyonZamanlayici),
      GOVKontrolCikis := Float16(ReplyAt(rs, c + 1), 10, st.GOVKontrolCikis),
      AVRKontrolCikis := Float16(ReplyAt(rs, c + 2), 10, st.AVRKontrolCikis),
      CihazKimlik := Raw16(ReplyAt(rs, c + 3), st.CihazKimlik),
      DonanimVersiyon := Raw16(ReplyAt(rs, c + 4), st.DonanimVersiyon),
      YazilimVersiyon := Raw16(ReplyAt(rs, c + 5), st.YazilimVersiyon))
  }

  /** The status record after `updateSistemDurumu`; state and mode keep the raw word read. */
  function SistemDurumuPass(rs: seq<Reply>, c: nat, st: SistemDurumu): SistemDurumu {
    SistemBilgiPass(rs, c + 2, DurumModPass(rs, c, st))
  }

  /** The first six reads of `updateSayaclar`: three run counts, then three hour meters. */
  const SAYAC_CALISMA_REQUESTS: seq<Request> := [
    ReadHolding(10616, 2), ReadHolding(10618, 2), ReadHolding(10620, 2), ReadHolding(10622, 2),
    ReadHolding(10624, 2), ReadHolding(10626, 2)]

  /** The energy-meter and fuel-counter reads of `updateSayaclar` the two variants share. */
  const SAYAC_ENERJI_REQUESTS: seq<Request> := [
    ReadHolding(10628, 2), ReadHolding(10630, 2), ReadHolding(10632, 2), ReadHolding(11577, 2)]

  /** The reads of `updateSayaclar` the two variants share, in order. */
  const SAYAC_REQUESTS: seq<Request> :=
    SAYAC_CALISMA_REQUESTS + SAYAC_ENERJI_REQUESTS

  /** The counter record after the run counts and the hour meters. */
  function SayacCalismaPass(rs: seq<Reply>, c: nat, sy: Sayaclar): Sayaclar {
    sy.(
      JeneratorCalismaAdedi := Raw32(ReplyAt(rs, c), sy.JeneratorCalismaAdedi),
      JeneratorMarsAdedi := Raw32(ReplyAt(rs, c + 1), sy.JeneratorMarsAdedi),
      JeneratorYukluCalisma := Raw32(ReplyAt(rs, c + 2), sy.JeneratorYukluCalisma),
      MotorCalismaSaati := Float32(ReplyAt(rs, c + 3), 100, sy.MotorCalismaSaati),
      SonServistenBeriSaat := Float32(ReplyAt(rs, c + 4), 100, sy.SonServistenBeriSaat),
      SonServistenBeriGun := Float32(ReplyAt(rs, c + 5), 100, sy.SonServistenBeriGun))
  }

  /** The counter record after the energy meters and the fuel counter. */
  function SayacEnerjiPass(rs: seq<Reply>, c: nat, sy: Sayaclar): Sayaclar {
    sy.(
      ToplamAktifEnerji := Float32(ReplyAt(rs, c), 10, sy.ToplamAktifEnerji),
      ToplamReaktifEnerjiInd := Float32(ReplyAt(rs, c + 1), 10, sy.ToplamReaktifEnerjiInd),
      ToplamReaktifEnerjiCap := Float32(ReplyAt(rs, c + 2), 10, sy.ToplamReaktifEnerjiCap),
      YakitSayaci := Float32(ReplyAt(rs, c + 3), 10, sy.YakitSayaci))
  }

  /** The counter record after the shared reads of `updateSayaclar`. */
  function SayaclarPass(rs: seq<Reply>, c: nat, sy: Sayaclar): Sayaclar {
    SayacEnerjiPass(rs, c + 6, SayacCalismaPass(rs, c, sy))
  }

  /** The reads of `updateAnalogGirisler`, in order. */
  const ANALOG_REQUESTS: seq<Request> := [
    ReadHolding(10345, 1), ReadHolding(10346, 1), ReadHolding(10347, 1), ReadHolding(10348, 1),
    ReadHolding(10349, 1), ReadHolding(10350, 1), ReadHolding(10351, 1), ReadHolding(10352, 1)]


  /** The analog-input record after `updateAnalogGirisler`. */
  function AnalogGirislerPass(rs: seq<Reply>, c: nat, an: AnalogGirisler): AnalogGirisler {
    an.(
      Analog1Ohm := Raw16(ReplyAt(rs, c), an.Analog1Ohm),
      Analog2Ohm := Raw16(ReplyAt(rs, c + 1), an.Analog2Ohm),
      Analog3Ohm := Raw16(ReplyAt(rs, c + 2), an.Analog3Ohm),
      Analog4Ohm := Raw16(ReplyAt(rs, c + 3), an.Analog4Ohm),
      Analog5Ohm := Raw16(ReplyAt(rs, c + 4), an.Analog5Ohm),
      Analog6Ohm := Raw16(ReplyAt(rs, c + 5), an.Analog6Ohm),
      Analog7Deger := Raw16(ReplyAt(rs, c + 6), an.Analog7Deger),
      Analog8Deger := Raw16(ReplyAt(rs, c + 7), an.Analog8Deger))
  }

  /** The voltage reads that open `updateElektrikselVeriler` in both variants. */
  const VOLTAJ_REQUESTS: seq<Request> := [
    ReadHolding(10240, 2), ReadHolding(10242, 2), ReadHolding(10244, 2), ReadHolding(10246, 2),
    ReadHolding(10248, 2), ReadHolding(10250, 2)]

  /** The phase voltages after the voltage reads: mains L1..L3, then generator L1..L3. */
  function VoltajlarPass(rs: seq<Reply>, c: nat, e: ElektrikSistemiVerisi): ElektrikSistemiVerisi {
    e.(
      Sebeke := e.Sebeke.(
        L1 := e.Sebeke.L1.(
          Voltaj := Float32(ReplyAt(rs, c), 10, e.Sebeke.L1.Voltaj)),
        L2 := e.Sebeke.L2.(
          Voltaj := Float32(ReplyAt(rs, c + 1), 10, e.Sebeke.L2.Voltaj)),
        L3 := e.Sebeke.L3.(
          Voltaj := Float32(ReplyAt(rs, c + 2), 10, e.Sebeke.L3.Voltaj))),
      Jenerator := e.Jenerator.(
        L1 := e.Jenerator.L1.(
          Voltaj := Float32(ReplyAt(rs, c + 3), 10, e.Jenerator.L1.Voltaj)),
        L2 := e.Jenerator.L2.(
          Voltaj := Float32(ReplyAt(rs, c + 4), 10, e.Jenerator.L2.Voltaj)),
        L3 := e.Jenerator.L3.(
          Voltaj := Float32(ReplyAt(rs, c + 5), 10, e.Jenerator.L3.Voltaj))))
  }

  /** The two frequency reads of `updateElektrikselVeriler`. */
  const FREKANS_REQUESTS: seq<Request> := [
    ReadHolding(10338, 1), ReadHolding(10339, 1)]

  /** Both frequencies after the frequency reads, in hundredths of a hertz on the wire. */
  function FrekanslarPass(rs: seq<Reply>, c: nat, e: ElektrikSistemiVerisi): ElektrikSistemiVerisi {
    e.(
      Sebeke := e.Sebeke.(
        Frekans := Float16(ReplyAt(rs, c), 100, e.Sebeke.Frekans)),
      Jenerator := e.Jenerator.(
        Frekans := Float16(ReplyAt(rs, c + 1), 100, e.Jenerator.Frekans)))
  }

  /** The average-value reads that close `updateElektrikselVeriler`. */
  const ORTALAMA_REQUESTS: seq<Request> := [
    ReadHolding(10377, 2), ReadHolding(10379, 2), ReadHolding(10381, 2), ReadHolding(10383, 2)]

  /** The average voltage and current of both sides after the reads that close the pass. */
  function OrtalamaDegerlerPass(rs: seq<Reply>, c: nat, e: ElektrikSistemiVerisi): ElektrikSistemiVerisi {
    e.(
      Jenerator := e.Jenerator.(
        Toplam := e.Jenerator.Toplam.(
          OrtalamaVoltaj := Float32(ReplyAt(rs, c), 10, e.Jenerator.Toplam.OrtalamaVoltaj),
          OrtalamaAkim := Float32(ReplyAt(rs, c + 1), 10, e.Jenerator.Toplam.OrtalamaAkim))),
      Sebeke := e.Sebeke.(
        Toplam := e.Sebeke.Toplam.(
          OrtalamaVoltaj := Float32(ReplyAt(rs, c + 2), 10, e.Sebeke.Toplam.OrtalamaVoltaj),
          OrtalamaAkim := Float32(ReplyAt(rs, c + 3), 10, e.Sebeke.Toplam.OrtalamaAkim))))
  }

  /** Registers per alarm range: 10504..10519, 10520..10535 and 10536..10551 each hold 16. */
  const ALARM_RANGE: nat := 16

  /** Where the load-dump scan's replies start, after the shutdown scan from `c`. */
  function YukAtmaStart(rs: seq<Reply>, c: nat): nat {
    c + ScanLength(rs, c, ALARM_RANGE)
  }

  /** Where the warning scan's replies start. */
  function UyariStart(rs: seq<Reply>, c: nat): nat {
    YukAtmaStart(rs, c) + ScanLength(rs, YukAtmaStart(rs, c), ALARM_RANGE)
  }

  /** The reads of `updateAlarmDurumlari`: the three scans, each up to its first hit. */
  function AlarmRequests(rs: seq<Reply>, c: nat): seq<Request> {
    ScanRequests(SHUTDOWN_FIRST, ScanLength(rs, c, ALARM_RANGE)) +
    ScanRequests(LOAD_DUMP_FIRST, ScanLength(rs, YukAtmaStart(rs, c), ALARM_RANGE)) +
    ScanRequests(WARNING_FIRST, ScanLength(rs, UyariStart(rs, c), ALARM_RANGE))
  }

  /** The status record after `updateAlarmDurumlari`: each flag is its range's scan verdict. */
  function AlarmDurumlariPass(rs: seq<Reply>, c: nat, st: SistemDurumu): SistemDurumu {
    st.(KapatmaAlarmi := ScanActive(rs, c, ALARM_RANGE),
        YukAtmaAlarmi := ScanActive(rs, YukAtmaStart(rs, c), ALARM_RANGE),
        UyariAlarmi := ScanActive(rs, UyariStart(rs, c), ALARM_RANGE))
  }
}
