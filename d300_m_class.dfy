/**
 * The single-file variant of the controller (`esp32_d300_modbus.c`): the full
 * electrical pass, the extended passes (counters with the flow meter, analog inputs,
 * harmonics and GPS), button combinations and the harmonic-channel command. The
 * current `millis()` value is a parameter of the operations that use it.
 */
module D300MClass {
  import opened Words
  import opened Bus
  import opened RegisterDecode
  import opened LinkHealth
  import opened AlarmScan
  import opened D300Types
  import opened Modbus
  import opened Passes
  import opened MacFormat

  /** The line-to-line voltage reads of `updateElektrikselVeriler`. */
  const FAZ_VOLTAJ_REQUESTS: seq<Request> := [
    ReadHolding(10252, 2), ReadHolding(10254, 2), ReadHolding(10256, 2), ReadHolding(10258, 2),
    ReadHolding(10260, 2), ReadHolding(10262, 2)]

  /** The current reads of `updateElektrikselVeriler`, neutrals included. */
  const AKIM_REQUESTS: seq<Request> := [
    ReadHolding(10264, 2), ReadHolding(10266, 2), ReadHolding(10268, 2), ReadHolding(10270, 2),
    ReadHolding(10272, 2), ReadHolding(10274, 2), ReadHolding(10276, 2), ReadHolding(10278, 2)]

  /** The power reads of `updateElektrikselVeriler`. */
  const GUC_REQUESTS: seq<Request> := [
    ReadHolding(10292, 2), ReadHolding(10294, 2), ReadHolding(10308, 2), ReadHolding(10310, 2),
    ReadHolding(10324, 2), ReadHolding(10326, 2)]

  /** The power-factor reads of `updateElektrikselVeriler`. */
  const GUC_FAKTOR_REQUESTS: seq<Request> := [
    ReadHolding(10334, 1), ReadHolding(10335, 1)]

  /** The 34 reads of `updateElektrikselVeriler`, group by group. */
  const ELEKTRIK_REQUESTS: seq<Request> :=
    VOLTAJ_REQUESTS + FAZ_VOLTAJ_REQUESTS + AKIM_REQUESTS + GUC_REQUESTS + GUC_FAKTOR_REQUESTS + FREKANS_REQUESTS + ORTALAMA_REQUESTS

  /** The line-to-line voltages after their reads: mains L1-L2, L2-L3, L3-L1, then generator. */
  function FazVoltajlariPass(rs: seq<Reply>, c: nat, e: ElektrikSistemiVerisi): ElektrikSistemiVerisi {
    e.(
      Sebeke := e.Sebeke.(
        FazVoltajL1L2 := Float32(ReplyAt(rs, c), 10, e.Sebeke.FazVoltajL1L2),
        FazVoltajL2L3 := Float32(ReplyAt(rs, c + 1), 10, e.Sebeke.FazVoltajL2L3),
        FazVoltajL3L1 := Float32(ReplyAt(rs, c + 2), 10, e.Sebeke.FazVoltajL3L1)),
      Jenerator := e.Jenerator.(
        FazVoltajL1L2 := Float32(ReplyAt(rs, c + 3), 10, e.Jenerator.FazVoltajL1L2),
        FazVoltajL2L3 := Float32(ReplyAt(rs, c + 4), 10, e.Jenerator.FazVoltajL2L3),
        FazVoltajL3L1 := Float32(ReplyAt(rs, c + 5), 10, e.Jenerator.FazVoltajL3L1)))
  }

  /** The currents after the current reads: mains L1..L3, generator L1..L3, then both neutrals. */
  function AkimlarPass(rs: seq<Reply>, c: nat, e: ElektrikSistemiVerisi): ElektrikSistemiVerisi {
    e.(
      Sebeke := e.Sebeke.(
        L1 := e.Sebeke.L1.(
          Akim := Float32(ReplyAt(rs, c), 10, e.Sebeke.L1.Akim)),
        L2 := e.Sebeke.L2.(
          Akim := Float32(ReplyAt(rs, c + 1), 10, e.Sebeke.L2.Akim)),
        L3 := e.Sebeke.L3.(
          Akim := Float32(ReplyAt(rs, c + 2), 10, e.Sebeke.L3.Akim)),
        NeutralAkim := Float32(ReplyAt(rs, c + 6), 10, e.Sebeke.NeutralAkim)),
      Jenerator := e.Jenerator.(
        L1 := e.Jenerator.L1.(
          Akim := Float32(ReplyAt(rs, c + 3), 10, e.Jenerator.L1.Akim)),
        L2 := e.Jenerator.L2.(
          Akim := Float32(ReplyAt(rs, c + 4), 10, e.Jenerator.L2.Akim)),
        L3 := e.Jenerator.L3.(
          Akim := Float32(ReplyAt(rs, c + 5), 10, e.Jenerator.L3.Akim)),
        NeutralAkim := Float32(ReplyAt(rs, c + 7), 10, e.Jenerator.NeutralAkim)))
  }

  /** The power totals after the power reads: active, reactive, then apparent, mains before generator. */
  function GucVerileriPass(rs: seq<Reply>, c: nat, e: ElektrikSistemiVerisi): ElektrikSistemiVerisi {
    e.(
      Sebeke := e.Sebeke.(
        Toplam := e.Sebeke.Toplam.(
          AktifGuc := Float32(ReplyAt(rs, c), 10, e.Sebeke.Toplam.AktifGuc),
          ReaktifGuc := Float32(ReplyAt(rs, c + 2), 10, e.Sebeke.Toplam.ReaktifGuc),
          GorunurGuc := Float32(ReplyAt(rs, c + 4), 10, e.Sebeke.Toplam.GorunurGuc))),
      Jenerator := e.Jenerator.(
        Toplam := e.Jenerator.Toplam.(
          AktifGuc := Float32(ReplyAt(rs, c + 1), 10, e.Jenerator.Toplam.AktifGuc),
          ReaktifGuc := Float32(ReplyAt(rs, c + 3), 10, e.Jenerator.Toplam.ReaktifGuc),
          GorunurGuc := Float32(ReplyAt(rs, c + 5), 10, e.Jenerator.Toplam.GorunurGuc))))
  }

  /** Both power factors after their one-word reads, in tenths on the wire. */
  function GucFaktorleriPass(rs: seq<Reply>, c: nat, e: ElektrikSistemiVerisi): ElektrikSistemiVerisi {
    e.(
      Sebeke := e.Sebeke.(
        Toplam := e.Sebeke.Toplam.(
          GucFaktoru := Float16(ReplyAt(rs, c), 10, e.Sebeke.Toplam.GucFaktoru))),
      Jenerator := e.Jenerator.(
        Toplam := e.Jenerator.Toplam.(
          GucFaktoru := Float16(ReplyAt(rs, c + 1), 10, e.Jenerator.Toplam.GucFaktoru))))
  }

  /** The measurement record after `updateElektrikselVeriler`: its groups in turn. */
  function ElektrikselVerilerPass(rs: seq<Reply>, c: nat, e: ElektrikSistemiVerisi): ElektrikSistemiVerisi {
    OrtalamaDegerlerPass(rs, c + 30, FrekanslarPass(rs, c + 28, GucFaktorleriPass(rs, c + 26, GucVerileriPass(rs, c + 20, AkimlarPass(rs, c + 12, FazVoltajlariPass(rs, c + 6, VoltajlarPass(rs, c, e)))))))
  }

  /** The flow-meter read that closes `updateSayaclar` in this variant. */
  const FLOW_REQUESTS: seq<Request> := [
    ReadHolding(11680, 2)]

  /** The counter record after the flow-meter read that closes `updateSayaclar` here. */
  function FlowMeterPass(rs: seq<Reply>, c: nat, sy: Sayaclar): Sayaclar {
    sy.(
      FlowMeter := Float32(ReplyAt(rs, c), 10, sy.FlowMeter))
  }

  /** The counter reads of `updateSayaclar`: the shared ten, then the flow meter. */
  const TUM_SAYAC_REQUESTS: seq<Request> := SAYAC_REQUESTS + FLOW_REQUESTS

  /** The counter record after `updateSayaclar`: the shared counter reads, then the flow meter. */
  function TumSayaclarPass(rs: seq<Reply>, c: nat, sy: Sayaclar): Sayaclar {
    FlowMeterPass(rs, c + 10, SayaclarPass(rs, c, sy))
  }

  /** The value reads of `updateHarmonikVeriler`: distortion, fundamental, then the odd harmonics 3..13. */
  const HARMONIK_DEGER_REQUESTS: seq<Request> := [
    ReadHolding(10386, 1), ReadHolding(10387, 1), ReadHolding(10388, 1), ReadHolding(10389, 1),
    ReadHolding(10390, 1), ReadHolding(10391, 1), ReadHolding(10392, 1), ReadHolding(10393, 1)]

  /** The channel read that closes `updateHarmonikVeriler`. */
  const KANAL_REQUESTS: seq<Request> := [
    ReadHolding(10403, 1)]

  /** The reads of `updateHarmonikVeriler`. */
  const HARMONIK_REQUESTS: seq<Request> :=
    HARMONIK_DEGER_REQUESTS + KANAL_REQUESTS

  /** The harmonic record after the eight one-word values, in hundredths on the wire. */
  function HarmonikDegerlerPass(rs: seq<Reply>, c: nat, h: HarmonikVerileri): HarmonikVerileri {
    h.(
      THD := Float16(ReplyAt(rs, c), 100, h.THD),
      Fundamental := Float16(ReplyAt(rs, c + 1), 100, h.Fundamental),
      H3 := Float16(ReplyAt(rs, c + 2), 100, h.H3),
      H5 := Float16(ReplyAt(rs, c + 3), 100, h.H5),
      H7 := Float16(ReplyAt(rs, c + 4), 100, h.H7),
      H9 := Float16(ReplyAt(rs, c + 5), 100, h.H9),
      H11 := Float16(ReplyAt(rs, c + 6), 100, h.H11),
      H13 := Float16(ReplyAt(rs, c + 7), 100, h.H13))
  }

  /** The harmonic record after the channel read; only the low byte of the word is kept. */
  function SeciliKanalPass(rs: seq<Reply>, c: nat, h: HarmonikVerileri): HarmonikVerileri {
    h.(
      SeciliKanal := KanalRead(ReplyAt(rs, c), h.SeciliKanal))
  }

  /** The harmonic record after `updateHarmonikVeriler`: the values, then the channel. */
  function HarmonikPass(rs: seq<Reply>, c: nat, h: HarmonikVerileri): HarmonikVerileri {
    SeciliKanalPass(rs, c + 8, HarmonikDegerlerPass(rs, c, h))
  }

  /** The reads of `updateGPSVeriler`: latitude, longitude and altitude, two words each. */
  const GPS_REQUESTS: seq<Request> := [
    ReadHolding(10594, 2), ReadHolding(10596, 2), ReadHolding(10598, 2)]

  /** The position record after `updateGPSVeriler`: each field keeps the raw 32-bit pattern read. */
  function GPSPass(rs: seq<Reply>, c: nat, g: GPSVeriler): GPSVeriler {
    g.(
      EnlemBits := Raw32(ReplyAt(rs, c), g.EnlemBits),
      BoylamBits := Raw32(ReplyAt(rs, c + 1), g.BoylamBits),
      YukseklikBits := Raw32(ReplyAt(rs, c + 2), g.YukseklikBits))
  }

  /** The requests of `updateExtendedData`, in order: counters, analog inputs, harmonics, position. */
  const EXTENDED_REQUESTS: seq<Request> := TUM_SAYAC_REQUESTS + ANALOG_REQUESTS + HARMONIK_REQUESTS + GPS_REQUESTS

  /**
   * The records `updateExtendedData` leaves when it starts after transcript `s0`:
   * each pass reads the replies that follow the requests before it.
   */
  ghost predicate ExtendedSnapshot(rs: seq<Reply>, s0: seq<Request>, sy0: Sayaclar, an0: AnalogGirisler,
                                   h0: HarmonikVerileri, g0: GPSVeriler,
                                   sy: Sayaclar, an: AnalogGirisler, h: HarmonikVerileri, g: GPSVeriler)
  {
    sy == TumSayaclarPass(rs, |s0|, sy0) &&
    an == AnalogGirislerPass(rs, |s0 + TUM_SAYAC_REQUESTS|, an0) &&
    h == HarmonikPass(rs, |s0 + TUM_SAYAC_REQUESTS + ANALOG_REQUESTS|, h0) &&
    g == GPSPass(rs, |s0 + TUM_SAYAC_REQUESTS + ANALOG_REQUESTS + HARMONIK_REQUESTS|, g0)
  }

  /** The reads that open `updateIletisimVeriler`: the two Ethernet counters, then the GPRS address. */
  const ILETISIM_SAYAC_REQUESTS: seq<Request> := [
    ReadHolding(11682, 1), ReadHolding(11683, 1), ReadHolding(10646, 2)]

  /** The communication record after the two Ethernet counters and the GPRS address. */
  function IletisimSayaclariPass(rs: seq<Reply>, c: nat, il: IletisimVerileri): IletisimVerileri {
    il.(
      EthernetResetSayaci := Raw16(ReplyAt(rs, c), il.EthernetResetSayaci),
      EthernetTCPPaketSayaci := Raw16(ReplyAt(rs, c + 1), il.EthernetTCPPaketSayaci),
      GPRS_IP := Raw32(ReplyAt(rs, c + 2), il.GPRS_IP))
  }

  /** The buffer read of `updateIletisimVeriler`: the three MAC address registers at once. */
  const MAC_REQUEST: Request := ReadHolding(11684, 3)

  /** The requests of `updateIletisimVeriler`, in order. */
  const ILETISIM_REQUESTS: seq<Request> := ILETISIM_SAYAC_REQUESTS + [MAC_REQUEST]

  /** The communication record after the MAC read: its text when all three words came back, else as before. */
  function MacPass(rs: seq<Reply>, c: nat, il: IletisimVerileri): IletisimVerileri {
    var reply := ReplyAt(rs, c);
    if ReadOk(reply, 3) then il.(MAC_Adresi := MacString(reply.words)) else il
  }

  /** The communication record after `updateIletisimVeriler`. */
  function IletisimPass(rs: seq<Reply>, c: nat, il: IletisimVerileri): IletisimVerileri {
    MacPass(rs, c + 3, IletisimSayaclariPass(rs, c, il))
  }

  /**
   * The stored MAC text is the colon-separated hex form of the three registers and
   * gives them back; a failed buffer read keeps the previous text.
   */
  lemma IletisimMacMeaning(rs: seq<Reply>, c: nat, il: IletisimVerileri)
    ensures var reply, p := ReplyAt(rs, c + 3), IletisimPass(rs, c, il);
            if ReadOk(reply, 3) then
              |p.MAC_Adresi| == 17 && ParseMac(p.MAC_Adresi) == reply.words &&
              forall k :: 0 <= k < 5 ==> p.MAC_Adresi[3 * k + 2] == ':'
            else p.MAC_Adresi == il.MAC_Adresi
  {
    var reply := ReplyAt(rs, c + 3);
    if ReadOk(reply, 3) {
      MacStringRoundTrip(reply.words);
      MacStringShape(reply.words);
    }
  }


  /** The fixed part of `updateBasicData`: the electrical, engine and status passes. */
  const BASIC_FIXED: seq<Request> := ELEKTRIK_REQUESTS + MOTOR_REQUESTS + SISTEM_REQUESTS

  /**
   * The requests of `updateBasicData` when it starts after transcript `s0`, in
   * order: the fixed passes, then the alarm scans, whose length depends on the replies.
   */
  function BasicRequests(rs: seq<Reply>, s0: seq<Request>): seq<Request> {
    BASIC_FIXED + AlarmRequests(rs, |s0 + BASIC_FIXED|)
  }

  /**
   * The snapshot fields `updateBasicData` leaves when it starts after transcript
   * `s0`: each pass reads the replies that follow the requests before it.
   */
  ghost predicate BasicSnapshot(rs: seq<Reply>, s0: seq<Request>, e0: ElektrikSistemiVerisi, m0: MotorVerileri,
                                st0: SistemDurumu,
                                e: ElektrikSistemiVerisi, m: MotorVerileri, st: SistemDurumu)
  {
    e == ElektrikselVerilerPass(rs, |s0|, e0) &&
    m == MotorVerileriPass(rs, |s0 + ELEKTRIK_REQUESTS|, m0) &&
    st == AlarmDurumlariPass(rs, |s0 + BASIC_FIXED|,
                             SistemDurumuPass(rs, |s0 + ELEKTRIK_REQUESTS + MOTOR_REQUESTS|, st0))
  }

  class D300Controller {
    /** The Modbus link: `node`, the serial port and the link-health fields. */
    const link: Port
    var slaveID: uint8
    var lastUpdateTime: uint32
    var updateInterval: uint32
    var autoUpdate: bool

    var ElektrikSistemi: ElektrikSistemiVerisi
    var Motor: MotorVerileri
    var Sistem: SistemDurumu
    var Sayac: Sayaclar
    var AnalogGiris: AnalogGirisler
    var Harmonik: HarmonikVerileri
    var GPS: GPSVeriler
    var Iletisim: IletisimVerileri

    ghost predicate Valid()
      reads link
    {
      link.Valid()
    }

    /** A controller for slave `slaveID` on a link whose device answers with `replies`. */
    constructor (slaveID: uint8, replies: seq<Reply>)
      ensures Valid() && fresh(link)
      ensures link.replies == replies && link.sent == [] && link.State() == INITIAL
      ensures this.slaveID == slaveID && lastUpdateTime == 0 && updateInterval == 5000 && autoUpdate
      ensures ElektrikSistemi == ELEKTRIK_SISTEMI_SIFIR && Motor == MOTOR_SIFIR && Sistem == SISTEM_BASLANGIC
      ensures Sayac == SAYAC_SIFIR && AnalogGiris == ANALOG_SIFIR && Harmonik == HARMONIK_BASLANGIC && GPS == GPS_SIFIR
      ensures Iletisim == ILETISIM_BOS
    {
      link := new Port(replies);
      this.slaveID := slaveID;
      lastUpdateTime := 0;
      updateInterval := 5000;
      autoUpdate := true;
      ElektrikSistemi := ELEKTRIK_SISTEMI_SIFIR;
      Motor := MOTOR_SIFIR;
      Sistem := SISTEM_BASLANGIC;
      Sayac := SAYAC_SIFIR;
      AnalogGiris := ANALOG_SIFIR;
      Harmonik := HARMONIK_BASLANGIC;
      GPS := GPS_SIFIR;
      Iletisim := ILETISIM_BOS;
    }

    /** The voltage reads of `updateElektrikselVeriler`: mains phases, then generator phases. */
    method UpdateVoltajlar()
      requires Valid()
      modifies this`ElektrikSistemi, link
      ensures Valid()
      ensures link.Advanced(old(link.sent), old(link.State()), VOLTAJ_REQUESTS)
      ensures ElektrikSistemi == VoltajlarPass(link.replies, |old(link.sent)|, old(ElektrikSistemi))
    {
      ghost var t := Stretch(link.sent, link.State(), VOLTAJ_REQUESTS);
      link.StartTracking(t.plan);
      ghost var i := 0;
      var s, j := ElektrikSistemi.Sebeke, ElektrikSistemi.Jenerator;
      var ok: bool;
      var fv: real;
      ok, fv := link.ReadFloat32(t, i, 10240, s.L1.Voltaj, 10);
      s := s.(L1 := s.L1.(Voltaj := fv));
      i := i + 1;
      ok, fv := link.ReadFloat32(t, i, 10242, s.L2.Voltaj, 10);
      s := s.(L2 := s.L2.(Voltaj := fv));
      i := i + 1;
      ok, fv := link.ReadFloat32(t, i, 10244, s.L3.Voltaj, 10);
      s := s.(L3 := s.L3.(Voltaj := fv));
      i := i + 1;
      ok, fv := link.ReadFloat32(t, i, 10246, j.L1.Voltaj, 10);
      j := j.(L1 := j.L1.(Voltaj := fv));
      i := i + 1;
      ok, fv := link.ReadFloat32(t, i, 10248, j.L2.Voltaj, 10);
      j := j.(L2 := j.L2.(Voltaj := fv));
      i := i + 1;
      ok, fv := link.ReadFloat32(t, i, 10250, j.L3.Voltaj, 10);
      j := j.(L3 := j.L3.(Voltaj := fv));
      i := i + 1;
      ElektrikSistemi := ElektrikSistemiVerisi(s, j);
      link.Finish(t);
    }

    /** The line-to-line voltage reads of `updateElektrikselVeriler`. */
    method UpdateFazVoltajlari()
      requires Valid()
      modifies this`ElektrikSistemi, link
      ensures Valid()
      ensures link.Advanced(old(link.sent), old(link.State()), FAZ_VOLTAJ_REQUESTS)
      ensures ElektrikSistemi == FazVoltajlariPass(link.replies, |old(link.sent)|, old(ElektrikSistemi))
    {
      ghost var t := Stretch(link.sent, link.State(), FAZ_VOLTAJ_REQUESTS);
      link.StartTracking(t.plan);
      ghost var i := 0;
      var s, j := ElektrikSistemi.Sebeke, ElektrikSistemi.Jenerator;
      var ok: bool;
      var fv: real;
      ok, fv := link.ReadFloat32(t, i, 10252, s.FazVoltajL1L2, 10);
      s := s.(FazVoltajL1L2 := fv);
      i := i + 1;
      ok, fv := link.ReadFloat32(t, i, 10254, s.FazVoltajL2L3, 10);
      s := s.(FazVoltajL2L3 := fv);
      i := i + 1;
      ok, fv := link.ReadFloat32(t, i, 10256, s.FazVoltajL3L1, 10);
      s := s.(FazVoltajL3L1 := fv);
      i := i + 1;
      ok, fv := link.ReadFloat32(t, i, 10258, j.FazVoltajL1L2, 10);
      j := j.(FazVoltajL1L2 := fv);
      i := i + 1;
      ok, fv := link.ReadFloat32(t, i, 10260, j.FazVoltajL2L3, 10);
      j := j.(FazVoltajL2L3 := fv);
      i := i + 1;
      ok, fv := link.ReadFloat32(t, i, 10262, j.FazVoltajL3L1, 10);
      j := j.(FazVoltajL3L1 := fv);
      i := i + 1;
      ElektrikSistemi := ElektrikSistemiVerisi(s, j);
      link.Finish(t);
    }

    /** The current reads of `updateElektrikselVeriler`, neutrals included. */
    method UpdateAkimlar()
      requires Valid()
      modifies this`ElektrikSistemi, link
      ensures Valid()
      ensures link.Advanced(old(link.sent), old(link.State()), AKIM_REQUESTS)
      ensures ElektrikSistemi == AkimlarPass(link.replies, |old(link.sent)|, old(ElektrikSistemi))
    {
      ghost var t := Stretch(link.sent, link.State(), AKIM_REQUESTS);
      link.StartTracking(t.plan);
      ghost var i := 0;
      var s, j := ElektrikSistemi.Sebeke, ElektrikSistemi.Jenerator;
      var ok: bool;
      var fv: real;
      ok, fv := link.ReadFloat32(t, i, 10264, s.L1.Akim, 10);
      s := s.(L1 := s.L1.(Akim := fv));
      i := i + 1;
      ok, fv := link.ReadFloat32(t, i, 10266, s.L2.Akim, 10);
      s := s.(L2 := s.L2.(Akim := fv));
      i := i + 1;
      ok, fv := link.ReadFloat32(t, i, 10268, s.L3.Akim, 10);
      s := s.(L3 := s.L3.(Akim := fv));
      i := i + 1;
      ok, fv := link.ReadFloat32(t, i, 10270, j.L1.Akim, 10);
      j := j.(L1 := j.L1.(Akim := fv));
      i := i + 1;
      ok, fv := link.ReadFloat32(t, i, 10272, j.L2.Akim, 10);
      j := j.(L2 := j.L2.(Akim := fv));
      i := i + 1;
      ok, fv := link.ReadFloat32(t, i, 10274, j.L3.Akim, 10);
      j := j.(L3 := j.L3.(Akim := fv));
      i := i + 1;
      ok, fv := link.ReadFloat32(t, i, 10276, s.NeutralAkim, 10);
      s := s.(NeutralAkim := fv);
      i := i + 1;
      ok, fv := link.ReadFloat32(t, i, 10278, j.NeutralAkim, 10);
      j := j.(NeutralAkim := fv);
      i := i + 1;
      ElektrikSistemi := ElektrikSistemiVerisi(s, j);
      link.Finish(t);
    }

    /** The power reads of `updateElektrikselVeriler`. */
    method UpdateGucVerileri()
      requires Valid()
      modifies this`ElektrikSistemi, link
      ensures Valid()
      ensures link.Advanced(old(link.sent), old(link.State()), GUC_REQUESTS)
      ensures ElektrikSistemi == GucVerileriPass(link.replies, |old(link.sent)|, old(ElektrikSistemi))
    {
      ghost var t := Stretch(link.sent, link.State(), GUC_REQUESTS);
      link.StartTracking(t.plan);
      ghost var i := 0;
      var s, j := ElektrikSistemi.Sebeke, ElektrikSistemi.Jenerator;
      var ok: bool;
      var fv: real;
      ok, fv := link.ReadFloat32(t, i, 10292, s.Toplam.AktifGuc, 10);
      s := s.(Toplam := s.Toplam.(AktifGuc := fv));
      i := i + 1;
      ok, fv := link.ReadFloat32(t, i, 10294, j.Toplam.AktifGuc, 10);
      j := j.(Toplam := j.Toplam.(AktifGuc := fv));
      i := i + 1;
      ok, fv := link.ReadFloat32(t, i, 10308, s.Toplam.ReaktifGuc, 10);
      s := s.(Toplam := s.Toplam.(ReaktifGuc := fv));
      i := i + 1;
      ok, fv := link.ReadFloat32(t, i, 10310, j.Toplam.ReaktifGuc, 10);
      j := j.(Toplam := j.Toplam.(ReaktifGuc := fv));
      i := i + 1;
      ok, fv := link.ReadFloat32(t, i, 10324, s.Toplam.GorunurGuc, 10);
      s := s.(Toplam := s.Toplam.(GorunurGuc := fv));
      i := i + 1;
      ok, fv := link.ReadFloat32(t, i, 10326, j.Toplam.GorunurGuc, 10);
      j := j.(Toplam := j.Toplam.(GorunurGuc := fv));
      i := i + 1;
      ElektrikSistemi := ElektrikSistemiVerisi(s, j);
      link.Finish(t);
    }

    /** The power-factor reads of `updateElektrikselVeriler`. */
    method UpdateGucFaktorleri()
      requires Valid()
      modifies this`ElektrikSistemi, link
      ensures Valid()
      ensures link.Advanced(old(link.sent), old(link.State()), GUC_FAKTOR_REQUESTS)
      ensures ElektrikSistemi == GucFaktorleriPass(link.replies, |old(link.sent)|, old(ElektrikSistemi))
    {
      ghost var t := Stretch(link.sent, link.State(), GUC_FAKTOR_REQUESTS);
      link.StartTracking(t.plan);
      ghost var i := 0;
      var s, j := ElektrikSistemi.Sebeke, ElektrikSistemi.Jenerator;
      var ok: bool;
      var fv: real;
      ok, fv := link.ReadFloat16(t, i, 10334, s.Toplam.GucFaktoru, 10);
      s := s.(Toplam := s.Toplam.(GucFaktoru := fv));
      i := i + 1;
      ok, fv := link.ReadFloat16(t, i, 10335, j.Toplam.GucFaktoru, 10);
      j := j.(Toplam := j.Toplam.(GucFaktoru := fv));
      i := i + 1;
      ElektrikSistemi := ElektrikSistemiVerisi(s, j);
      link.Finish(t);
    }

    /** The frequency reads of `updateElektrikselVeriler`. */
    method UpdateFrekanslar()
      requires Valid()
      modifies this`ElektrikSistemi, link
      ensures Valid()
      ensures link.Advanced(old(link.sent), old(link.State()), FREKANS_REQUESTS)
      ensures ElektrikSistemi == FrekanslarPass(link.replies, |old(link.sent)|, old(ElektrikSistemi))
    {
      ghost var t := Stretch(link.sent, link.State(), FREKANS_REQUESTS);
      link.StartTracking(t.plan);
      ghost var i := 0;
      var s, j := ElektrikSistemi.Sebeke, ElektrikSistemi.Jenerator;
      var ok: bool;
      var fv: real;
      ok, fv := link.ReadFloat16(t, i, 10338, s.Frekans, 100);
      s := s.(Frekans := fv);
      i := i + 1;
      ok, fv := link.ReadFloat16(t, i, 10339, j.Frekans, 100);
      j := j.(Frekans := fv);
      i := i + 1;
      ElektrikSistemi := ElektrikSistemiVerisi(s, j);
      link.Finish(t);
    }

    /** The average-value reads of `updateElektrikselVeriler`: generator first, then mains. */
    method UpdateOrtalamaDegerler()
      requires Valid()
      modifies this`ElektrikSistemi, link
      ensures Valid()
      ensures link.Advanced(old(link.sent), old(link.State()), ORTALAMA_REQUESTS)
      ensures ElektrikSistemi == OrtalamaDegerlerPass(link.replies, |old(link.sent)|, old(ElektrikSistemi))
    {
      ghost var t := Stretch(link.sent, link.State(), ORTALAMA_REQUESTS);
      link.StartTracking(t.plan);
      ghost var i := 0;
      var s, j := ElektrikSistemi.Sebeke, ElektrikSistemi.Jenerator;
      var ok: bool;
      var fv: real;
      ok, fv := link.ReadFloat32(t, i, 10377, j.Toplam.OrtalamaVoltaj, 10);
      j := j.(Toplam := j.Toplam.(OrtalamaVoltaj := fv));
      i := i + 1;
      ok, fv := link.ReadFloat32(t, i, 10379, j.Toplam.OrtalamaAkim, 10);
      j := j.(Toplam := j.Toplam.(OrtalamaAkim := fv));
      i := i + 1;
      ok, fv := link.ReadFloat32(t, i, 10381, s.Toplam.OrtalamaVoltaj, 10);
      s := s.(Toplam := s.Toplam.(OrtalamaVoltaj := fv));
      i := i + 1;
      ok, fv := link.ReadFloat32(t, i, 10383, s.Toplam.OrtalamaAkim, 10);
      s := s.(Toplam := s.Toplam.(OrtalamaAkim := fv));
      i := i + 1;
      ElektrikSistemi := ElektrikSistemiVerisi(s, j);
      link.Finish(t);
    }

    /** `updateElektrikselVeriler`: phase and line voltages, currents, powers, power factors, frequencies and averages. */
    method UpdateElektrikselVeriler()
      requires Valid()
      modifies this`ElektrikSistemi, link
      ensures Valid()
      ensures link.Advanced(old(link.sent), old(link.State()), ELEKTRIK_REQUESTS)
      ensures ElektrikSistemi == ElektrikselVerilerPass(link.replies, |old(link.sent)|, old(ElektrikSistemi))
    {
      ghost var s0, l0, c := link.sent, link.State(), |link.sent|;
      UpdateVoltajlar();
      assert |link.sent| == c + |VOLTAJ_REQUESTS|;
      UpdateFazVoltajlari();
      assert |link.sent| == c + |VOLTAJ_REQUESTS| + |FAZ_VOLTAJ_REQUESTS|;
      link.AdvanceCompose(s0, l0, VOLTAJ_REQUESTS, FAZ_VOLTAJ_REQUESTS);
      UpdateAkimlar();
      assert |link.sent| == c + |VOLTAJ_REQUESTS| + |FAZ_VOLTAJ_REQUESTS| + |AKIM_REQUESTS|;
      link.AdvanceCompose(s0, l0, VOLTAJ_REQUESTS + FAZ_VOLTAJ_REQUESTS, AKIM_REQUESTS);
      UpdateGucVerileri();
      assert |link.sent| == c + |VOLTAJ_REQUESTS| + |FAZ_VOLTAJ_REQUESTS| + |AKIM_REQUESTS| + |GUC_REQUESTS|;
      link.AdvanceCompose(s0, l0, VOLTAJ_REQUESTS + FAZ_VOLTAJ_REQUESTS + AKIM_REQUESTS, GUC_REQUESTS);
      UpdateGucFaktorleri();
      assert |link.sent| == c + |VOLTAJ_REQUESTS| + |FAZ_VOLTAJ_REQUESTS| + |AKIM_REQUESTS| + |GUC_REQUESTS| + |GUC_FAKTOR_REQUESTS|;
      link.AdvanceCompose(s0, l0, VOLTAJ_REQUESTS + FAZ_VOLTAJ_REQUESTS + AKIM_REQUESTS + GUC_REQUESTS, GUC_FAKTOR_REQUESTS);
      UpdateFrekanslar();
      assert |link.sent| == c + |VOLTAJ_REQUESTS| + |FAZ_VOLTAJ_REQUESTS| + |AKIM_REQUESTS| + |GUC_REQUESTS| + |GUC_FAKTOR_REQUESTS| + |FREKANS_REQUESTS|;
      link.AdvanceCompose(s0, l0, VOLTAJ_REQUESTS + FAZ_VOLTAJ_REQUESTS + AKIM_REQUESTS + GUC_REQUESTS + GUC_FAKTOR_REQUESTS, FREKANS_REQUESTS);
      UpdateOrtalamaDegerler();
      assert |link.sent| == c + |VOLTAJ_REQUESTS| + |FAZ_VOLTAJ_REQUESTS| + |AKIM_REQUESTS| + |GUC_REQUESTS| + |GUC_FAKTOR_REQUESTS| + |FREKANS_REQUESTS| + |ORTALAMA_REQUESTS|;
      link.AdvanceCompose(s0, l0, VOLTAJ_REQUESTS + FAZ_VOLTAJ_REQUESTS + AKIM_REQUESTS + GUC_REQUESTS + GUC_FAKTOR_REQUESTS + FREKANS_REQUESTS, ORTALAMA_REQUESTS);
    }

    /** The speed, temperature, pressure and level reads of `updateMotorVerileri`. */
    method UpdateMotorIsil()
      requires Valid()
      modifies this`Motor, link
      ensures Valid()
      ensures link.Advanced(old(link.sent), old(link.State()), MOTOR_ISIL_REQUESTS)
      ensures Motor == MotorIsilPass(link.replies, |old(link.sent)|, old(Motor))
    {
      ghost var t := Stretch(link.sent, link.State(), MOTOR_ISIL_REQUESTS);
      link.StartTracking(t.plan);
      ghost var i := 0;
      var m := Motor;
      var ok: bool;
      var fv: real;
      ok, fv := link.ReadFloat16(t, i, 10376, m.RPM, 1);
      m := m.(RPM := fv);
      i := i + 1;
      ok, fv := link.ReadFloat16(t, i, 10362, m.Sicaklik, 10);
      m := m.(Sicaklik := fv);
      i := i + 1;
      ok, fv := link.ReadFloat16(t, i, 10361, m.YagBasinci, 10);
      m := m.(YagBasinci := fv);
      i := i + 1;
      ok, fv := link.ReadFloat16(t, i, 10363, m.YakitSeviyesi, 10);
      m := m.(YakitSeviyesi := fv);
      i := i + 1;
      ok, fv := link.ReadFloat16(t, i, 10364, m.YagSicakligi, 10);
      m := m.(YagSicakligi := fv);
      i := i + 1;
      ok, fv := link.ReadFloat16(t, i, 10365, m.KanopyicSicaklik, 10);
      m := m.(KanopyicSicaklik := fv);
      i := i + 1;
      ok, fv := link.ReadFloat16(t, i, 10366, m.OrtamSicakligi, 10);
      m := m.(OrtamSicakligi := fv);
      i := i + 1;
      Motor := m;
      link.Finish(t);
    }

    /** The battery and charger reads of `updateMotorVerileri`. */
    method UpdateMotorBatarya()
      requires Valid()
      modifies this`Motor, link
      ensures Valid()
      ensures link.Advanced(old(link.sent), old(link.State()), MOTOR_BATARYA_REQUESTS)
      ensures Motor == MotorBataryaPass(link.replies, |old(link.sent)|, old(Motor))
    {
      ghost var t := Stretch(link.sent, link.State(), MOTOR_BATARYA_REQUESTS);
      link.StartTracking(t.plan);
      ghost var i := 0;
      var m := Motor;
      var ok: bool;
      var fv: real;
      ok, fv := link.ReadFloat16(t, i, 10341, m.BataryaVoltaji, 100);
      m := m.(BataryaVoltaji := fv);
      i := i + 1;
      ok, fv := link.ReadFloat16(t, i, 10385, m.MinBataryaVoltaji, 100);
      m := m.(MinBataryaVoltaji := fv);
      i := i + 1;
      ok, fv := link.ReadFloat16(t, i, 10340, m.SarjVoltaji, 100);
      m := m.(SarjVoltaji := fv);
      i := i + 1;
      ok, fv := link.ReadFloat16(t, i, 11173, m.SarjAkimi, 10);
      m := m.(SarjAkimi := fv);
      i := i + 1;
      Motor := m;
      link.Finish(t);
    }

    /** `updateMotorVerileri`: the D-300 engine registers only. */
    method UpdateMotorVerileri()
      requires Valid()
      modifies this`Motor, link
      ensures Valid()
      ensures link.Advanced(old(link.sent), old(link.State()), MOTOR_REQUESTS)
      ensures Motor == MotorVerileriPass(link.replies, |old(link.sent)|, old(Motor))
    {
      ghost var s0, l0, c := link.sent, link.State(), |link.sent|;
      UpdateMotorIsil();
      assert |link.sent| == c + |MOTOR_ISIL_REQUESTS|;
      UpdateMotorBatarya();
      assert |link.sent| == c + |MOTOR_ISIL_REQUESTS| + |MOTOR_BATARYA_REQUESTS|;
      link.AdvanceCompose(s0, l0, MOTOR_ISIL_REQUESTS, MOTOR_BATARYA_REQUESTS);
    }

    /** The state and mode reads of `updateSistemDurumu`: each word is stored as read when its read succeeds. */
    method UpdateDurumMod()
      requires Valid()
      modifies this`Sistem, link
      ensures Valid()
      ensures link.Advanced(old(link.sent), old(link.State()), DURUM_MOD_REQUESTS)
      ensures Sistem == DurumModPass(link.replies, |old(link.sent)|, old(Sistem))
    {
      ghost var t := Stretch(link.sent, link.State(), DURUM_MOD_REQUESTS);
      link.StartTracking(t.plan);
      ghost var i := 0;
      var st := Sistem;
      var ok: bool;
      var w16: uint16;
      ok, w16 := link.Read16BitInto(t, i, 10604, st.Durum);
      st := st.(Durum := w16);
      i := i + 1;
      ok, w16 := link.Read16BitInto(t, i, 10605, st.Mod);
      st := st.(Mod := w16);
      i := i + 1;
      Sistem := st;
      link.Finish(t);
    }

    /** The timer, controller-output, identity and version reads of `updateSistemDurumu`. */
    method UpdateSistemBilgi()
      requires Valid()
      modifies this`Sistem, link
      ensures Valid()
      ensures link.Advanced(old(link.sent), old(link.State()), SISTEM_BILGI_REQUESTS)
      ensures Sistem == SistemBilgiPass(link.replies, |old(link.sent)|, old(Sistem))
    {
      ghost var t := Stretch(link.sent, link.State(), SISTEM_BILGI_REQUESTS);
      link.StartTracking(t.plan);
      ghost var i := 0;
      var st := Sistem;
      var ok: bool;
      var fv: real;
      var w16: uint16;
      ok, w16 := link.Read16BitValue(t, i, 10606, st.OperasyonZamanlayici);
      st := st.(OperasyonZamanlayici := w16);
      i := i + 1;
      ok, fv := link.ReadFloat16(t, i, 10607, st.GOVKontrolCikis, 10);
      st := st.(GOVKontrolCikis := fv);
      i := i + 1;
      ok, fv := link.ReadFloat16(t, i, 10608, st.AVRKontrolCikis, 10);
      st := st.(AVRKontrolCikis := fv);
      i := i + 1;
      ok, w16 := link.Read16BitValue(t, i, 10609, st.CihazKimlik);
      st := st.(CihazKimlik := w16);
      i := i + 1;
      ok, w16 := link.Read16BitValue(t, i, 10610, st.DonanimVersiyon);
      st := st.(DonanimVersiyon := w16);
      i := i + 1;
      ok, w16 := link.Read16BitValue(t, i, 10611, st.YazilimVersiyon);
      st := st.(YazilimVersiyon := w16);
      i := i + 1;
      Sistem := st;
      link.Finish(t);
    }

    /** `updateSistemDurumu`: state and mode are stored as read, without validation. */
    method UpdateSistemDurumu()
      requires Valid()
      modifies this`Sistem, link
      ensures Valid()
      ensures link.Advanced(old(link.sent), old(link.State()), SISTEM_REQUESTS)
      ensures Sistem == SistemDurumuPass(link.replies, |old(link.sent)|, old(Sistem))
    {
      ghost var s0, l0, c := link.sent, link.State(), |link.sent|;
      UpdateDurumMod();
      assert |link.sent| == c + |DURUM_MOD_REQUESTS|;
      UpdateSistemBilgi();
      assert |link.sent| == c + |DURUM_MOD_REQUESTS| + |SISTEM_BILGI_REQUESTS|;
      link.AdvanceCompose(s0, l0, DURUM_MOD_REQUESTS, SISTEM_BILGI_REQUESTS);
    }

    /** The run-count and hour-meter reads of `updateSayaclar`. */
    method UpdateSayacCalisma()
      requires Valid()
      modifies this`Sayac, link
      ensures Valid()
      ensures link.Advanced(old(link.sent), old(link.State()), SAYAC_CALISMA_REQUESTS)
      ensures Sayac == SayacCalismaPass(link.replies, |old(link.sent)|, old(Sayac))
    {
      ghost var t := Stretch(link.sent, link.State(), SAYAC_CALISMA_REQUESTS);
      link.StartTracking(t.plan);
      ghost var i := 0;
      var sy := Sayac;
      var ok: bool;
      var fv: real;
      var w32: uint32;
      ok, w32 := link.Read32BitValue(t, i, 10616, sy.JeneratorCalismaAdedi);
      sy := sy.(JeneratorCalismaAdedi := w32);
      i := i + 1;
      ok, w32 := link.Read32BitValue(t, i, 10618, sy.JeneratorMarsAdedi);
      sy := sy.(JeneratorMarsAdedi := w32);
      i := i + 1;
      ok, w32 := link.Read32BitValue(t, i, 10620, sy.JeneratorYukluCalisma);
      sy := sy.(JeneratorYukluCalisma := w32);
      i := i + 1;
      ok, fv := link.ReadFloat32(t, i, 10622, sy.MotorCalismaSaati, 100);
      sy := sy.(MotorCalismaSaati := fv);
      i := i + 1;
      ok, fv := link.ReadFloat32(t, i, 10624, sy.SonServistenBeriSaat, 100);
      sy := sy.(SonServistenBeriSaat := fv);
      i := i + 1;
      ok, fv := link.ReadFloat32(t, i, 10626, sy.SonServistenBeriGun, 100);
      sy := sy.(SonServistenBeriGun := fv);
      i := i + 1;
      Sayac := sy;
      link.Finish(t);
    }

    /** The energy-meter and fuel-counter reads of `updateSayaclar`. */
    method UpdateSayacEnerji()
      requires Valid()
      modifies this`Sayac, link
      ensures Valid()
      ensures link.Advanced(old(link.sent), old(link.State()), SAYAC_ENERJI_REQUESTS)
      ensures Sayac == SayacEnerjiPass(link.replies, |old(link.sent)|, old(Sayac))
    {
      ghost var t := Stretch(link.sent, link.State(), SAYAC_ENERJI_REQUESTS);
      link.StartTracking(t.plan);
      ghost var i := 0;
      var sy := Sayac;
      var ok: bool;
      var fv: real;
      ok, fv := link.ReadFloat32(t, i, 10628, sy.ToplamAktifEnerji, 10);
      sy := sy.(ToplamAktifEnerji := fv);
      i := i + 1;
      ok, fv := link.ReadFloat32(t, i, 10630, sy.ToplamReaktifEnerjiInd, 10);
      sy := sy.(ToplamReaktifEnerjiInd := fv);
      i := i + 1;
      ok, fv := link.ReadFloat32(t, i, 10632, sy.ToplamReaktifEnerjiCap, 10);
      sy := sy.(ToplamReaktifEnerjiCap := fv);
      i := i + 1;
      ok, fv := link.ReadFloat32(t, i, 11577, sy.YakitSayaci, 10);
      sy := sy.(YakitSayaci := fv);
      i := i + 1;
      Sayac := sy;
      link.Finish(t);
    }

    /** The flow-meter read of `updateSayaclar`. */
    method UpdateFlowMeter()
      requires Valid()
      modifies this`Sayac, link
      ensures Valid()
      ensures link.Advanced(old(link.sent), old(link.State()), FLOW_REQUESTS)
      ensures Sayac == FlowMeterPass(link.replies, |old(link.sent)|, old(Sayac))
    {
      ghost var t := Stretch(link.sent, link.State(), FLOW_REQUESTS);
      link.StartTracking(t.plan);
      ghost var i := 0;
      var sy := Sayac;
      var ok: bool;
      var fv: real;
      ok, fv := link.ReadFloat32(t, i, 11680, sy.FlowMeter, 10);
      sy := sy.(FlowMeter := fv);
      i := i + 1;
      Sayac := sy;
      link.Finish(t);
    }

    /** `updateSayaclar`: the shared counters, then the flow meter. */
    method UpdateSayaclar()
      requires Valid()
      modifies this`Sayac, link
      ensures Valid()
      ensures link.Advanced(old(link.sent), old(link.State()), TUM_SAYAC_REQUESTS)
      ensures Sayac == TumSayaclarPass(link.replies, |old(link.sent)|, old(Sayac))
    {
      ghost var s0, l0, c := link.sent, link.State(), |link.sent|;
      UpdateSayacCalisma();
      assert |link.sent| == c + |SAYAC_CALISMA_REQUESTS|;
      UpdateSayacEnerji();
      assert |link.sent| == c + |SAYAC_CALISMA_REQUESTS| + |SAYAC_ENERJI_REQUESTS|;
      link.AdvanceCompose(s0, l0, SAYAC_CALISMA_REQUESTS, SAYAC_ENERJI_REQUESTS);
      UpdateFlowMeter();
      assert |link.sent| == c + |SAYAC_CALISMA_REQUESTS| + |SAYAC_ENERJI_REQUESTS| + |FLOW_REQUESTS|;
      link.AdvanceCompose(s0, l0, SAYAC_CALISMA_REQUESTS + SAYAC_ENERJI_REQUESTS, FLOW_REQUESTS);
    }

    /** `updateAnalogGirisler`. */
    method UpdateAnalogGirisler()
      requires Valid()
      modifies this`AnalogGiris, link
      ensures Valid()
      ensures link.Advanced(old(link.sent), old(link.State()), ANALOG_REQUESTS)
      ensures AnalogGiris == AnalogGirislerPass(link.replies, |old(link.sent)|, old(AnalogGiris))
    {
      ghost var t := Stretch(link.sent, link.State(), ANALOG_REQUESTS);
      link.StartTracking(t.plan);
      ghost var i := 0;
      var an := AnalogGiris;
      var ok: bool;
      var w16: uint16;
      ok, w16 := link.Read16BitValue(t, i, 10345, an.Analog1Ohm);
      an := an.(Analog1Ohm := w16);
      i := i + 1;
      ok, w16 := link.Read16BitValue(t, i, 10346, an.Analog2Ohm);
      an := an.(Analog2Ohm := w16);
      i := i + 1;
      ok, w16 := link.Read16BitValue(t, i, 10347, an.Analog3Ohm);
      an := an.(Analog3Ohm := w16);
      i := i + 1;
      ok, w16 := link.Read16BitValue(t, i, 10348, an.Analog4Ohm);
      an := an.(Analog4Ohm := w16);
      i := i + 1;
      ok, w16 := link.Read16BitValue(t, i, 10349, an.Analog5Ohm);
      an := an.(Analog5Ohm := w16);
      i := i + 1;
      ok, w16 := link.Read16BitValue(t, i, 10350, an.Analog6Ohm);
      an := an.(Analog6Ohm := w16);
      i := i + 1;
      ok, w16 := link.Read16BitValue(t, i, 10351, an.Analog7Deger);
      an := an.(Analog7Deger := w16);
      i := i + 1;
      ok, w16 := link.Read16BitValue(t, i, 10352, an.Analog8Deger);
      an := an.(Analog8Deger := w16);
      i := i + 1;
      AnalogGiris := an;
      link.Finish(t);
    }

    /** The value reads of `updateHarmonikVeriler`. */
    method UpdateHarmonikDegerler()
      requires Valid()
      modifies this`Harmonik, link
      ensures Valid()
      ensures link.Advanced(old(link.sent), old(link.State()), HARMONIK_DEGER_REQUESTS)
      ensures Harmonik == HarmonikDegerlerPass(link.replies, |old(link.sent)|, old(Harmonik))
    {
      ghost var t := Stretch(link.sent, link.State(), HARMONIK_DEGER_REQUESTS);
      link.StartTracking(t.plan);
      ghost var i := 0;
      var h := Harmonik;
      var ok: bool;
      var fv: real;
      ok, fv := link.ReadFloat16(t, i, 10386, h.THD, 100);
      h := h.(THD := fv);
      i := i + 1;
      ok, fv := link.ReadFloat16(t, i, 10387, h.Fundamental, 100);
      h := h.(Fundamental := fv);
      i := i + 1;
      ok, fv := link.ReadFloat16(t, i, 10388, h.H3, 100);
      h := h.(H3 := fv);
      i := i + 1;
      ok, fv := link.ReadFloat16(t, i, 10389, h.H5, 100);
      h := h.(H5 := fv);
      i := i + 1;
      ok, fv := link.ReadFloat16(t, i, 10390, h.H7, 100);
      h := h.(H7 := fv);
      i := i + 1;
      ok, fv := link.ReadFloat16(t, i, 10391, h.H9, 100);
      h := h.(H9 := fv);
      i := i + 1;
      ok, fv := link.ReadFloat16(t, i, 10392, h.H11, 100);
      h := h.(H11 := fv);
      i := i + 1;
      ok, fv := link.ReadFloat16(t, i, 10393, h.H13, 100);
      h := h.(H13 := fv);
      i := i + 1;
      Harmonik := h;
      link.Finish(t);
    }

    /** The channel read of `updateHarmonikVeriler`: the word is cast to its low byte when the read succeeds. */
    method UpdateSeciliKanal()
      requires Valid()
      modifies this`Harmonik, link
      ensures Valid()
      ensures link.Advanced(old(link.sent), old(link.State()), KANAL_REQUESTS)
      ensures Harmonik == SeciliKanalPass(link.replies, |old(link.sent)|, old(Harmonik))
    {
      ghost var t := Stretch(link.sent, link.State(), KANAL_REQUESTS);
      link.StartTracking(t.plan);
      ghost var i := 0;
      var h := Harmonik;
      var ok: bool;
      var kanal: uint16 := 0;
      ok, kanal := link.Read16BitValue(t, i, 10403, kanal);
      i := i + 1;
      h := h.(SeciliKanal := if ok then KanalByte(kanal) else h.SeciliKanal);
      Harmonik := h;
      link.Finish(t);
    }

    /** `updateHarmonikVeriler`: the eight values, then the selected channel. */
    method UpdateHarmonikVeriler()
      requires Valid()
      modifies this`Harmonik, link
      ensures Valid()
      ensures link.Advanced(old(link.sent), old(link.State()), HARMONIK_REQUESTS)
      ensures Harmonik == HarmonikPass(link.replies, |old(link.sent)|, old(Harmonik))
    {
      ghost var s0, l0, c := link.sent, link.State(), |link.sent|;
      UpdateHarmonikDegerler();
      assert |link.sent| == c + |HARMONIK_DEGER_REQUESTS|;
      UpdateSeciliKanal();
      assert |link.sent| == c + |HARMONIK_DEGER_REQUESTS| + |KANAL_REQUESTS|;
      link.AdvanceCompose(s0, l0, HARMONIK_DEGER_REQUESTS, KANAL_REQUESTS);
    }

    /** `updateGPSVeriler`: three raw 32-bit reads. */
    method UpdateGPSVeriler()
      requires Valid()
      modifies this`GPS, link
      ensures Valid()
      ensures link.Advanced(old(link.sent), old(link.State()), GPS_REQUESTS)
      ensures GPS == GPSPass(link.replies, |old(link.sent)|, old(GPS))
    {
      ghost var t := Stretch(link.sent, link.State(), GPS_REQUESTS);
      link.StartTracking(t.plan);
      ghost var i := 0;
      var g := GPS;
      var ok: bool;
      var w32: uint32;
      ok, w32 := link.Read32BitValue(t, i, 10594, g.EnlemBits);
      g := g.(EnlemBits := w32);
      i := i + 1;
      ok, w32 := link.Read32BitValue(t, i, 10596, g.BoylamBits);
      g := g.(BoylamBits := w32);
      i := i + 1;
      ok, w32 := link.Read32BitValue(t, i, 10598, g.YukseklikBits);
      g := g.(YukseklikBits := w32);
      i := i + 1;
      GPS := g;
      link.Finish(t);
    }

    /** The counter and address reads of `updateIletisimVeriler`. */
    method UpdateIletisimSayaclari()
      requires Valid()
      modifies this`Iletisim, link
      ensures Valid()
      ensures link.Advanced(old(link.sent), old(link.State()), ILETISIM_SAYAC_REQUESTS)
      ensures Iletisim == IletisimSayaclariPass(link.replies, |old(link.sent)|, old(Iletisim))
    {
      ghost var t := Stretch(link.sent, link.State(), ILETISIM_SAYAC_REQUESTS);
      link.StartTracking(t.plan);
      ghost var i := 0;
      var il := Iletisim;
      var ok: bool;
      var w32: uint32;
      var w16: uint16;
      ok, w16 := link.Read16BitValue(t, i, 11682, il.EthernetResetSayaci);
      il := il.(EthernetResetSayaci := w16);
      i := i + 1;
      ok, w16 := link.Read16BitValue(t, i, 11683, il.EthernetTCPPaketSayaci);
      il := il.(EthernetTCPPaketSayaci := w16);
      i := i + 1;
      ok, w32 := link.Read32BitValue(t, i, 10646, il.GPRS_IP);
      il := il.(GPRS_IP := w32);
      i := i + 1;
      Iletisim := il;
      link.Finish(t);
    }

    /**
     * `updateIletisimVeriler`: the two Ethernet counters and the GPRS address, then
     * the three MAC registers into a buffer, stored as text only when that read succeeds.
     */
    method UpdateIletisimVeriler()
      requires Valid()
      modifies this`Iletisim, link
      ensures Valid()
      ensures link.Advanced(old(link.sent), old(link.State()), ILETISIM_REQUESTS)
      ensures Iletisim == IletisimPass(link.replies, |old(link.sent)|, old(Iletisim))
    {
      ghost var s0, l0 := link.sent, link.State();
      UpdateIletisimSayaclari();
      ghost var s1 := link.sent;
      var macRegs := new uint16[3];
      var ok := link.ReadMultipleRegisters(11684, 3, macRegs);
      if ok {
        assert macRegs[..] == macRegs[..3];
        Iletisim := Iletisim.(MAC_Adresi := MacString(macRegs[..]));
      }
      assert Outcomes(link.replies, [MAC_REQUEST], |s1|) == [ok];
      link.AdvanceCompose(s0, l0, ILETISIM_SAYAC_REQUESTS, [MAC_REQUEST]);
    }


    /**
     * `updateAlarmDurumlari`: each flag is cleared, then set by the scan of its range,
     * which stops at the first register answering with a non-zero word.
     */
    method UpdateAlarmDurumlari()
      requires Valid()
      modifies this`Sistem, link
      ensures Valid()
      ensures link.Advanced(old(link.sent), old(link.State()), AlarmRequests(link.replies, |old(link.sent)|))
      ensures Sistem == AlarmDurumlariPass(link.replies, |old(link.sent)|, old(Sistem))
    {
      ghost var s0, l0, rs := link.sent, link.State(), link.replies;
      ghost var a := ScanRequests(SHUTDOWN_FIRST, ScanLength(rs, |s0|, ALARM_RANGE));
      ghost var b := ScanRequests(LOAD_DUMP_FIRST, ScanLength(rs, YukAtmaStart(rs, |s0|), ALARM_RANGE));
      ghost var w := ScanRequests(WARNING_FIRST, ScanLength(rs, UyariStart(rs, |s0|), ALARM_RANGE));
      var st := Sistem;
      var active: bool;
      st := st.(KapatmaAlarmi := false);
      active := link.ScanAlarmRange(SHUTDOWN_FIRST, SHUTDOWN_LAST);
      st := st.(KapatmaAlarmi := active);
      assert |link.sent| == YukAtmaStart(rs, |s0|);
      st := st.(YukAtmaAlarmi := false);
      active := link.ScanAlarmRange(LOAD_DUMP_FIRST, LOAD_DUMP_LAST);
      link.AdvanceCompose(s0, l0, a, b);
      st := st.(YukAtmaAlarmi := active);
      assert |link.sent| == UyariStart(rs, |s0|);
      st := st.(UyariAlarmi := false);
      active := link.ScanAlarmRange(WARNING_FIRST, WARNING_LAST);
      link.AdvanceCompose(s0, l0, a + b, w);
      st := st.(UyariAlarmi := active);
      Sistem := st;
    }

    /**
     * `updateBasicData`: the electrical, engine, status and alarm passes in turn; the
     * result is the link flag they leave.
     */
    method UpdateBasicData(now: uint32) returns (r: bool)
      requires Valid()
      modifies this`ElektrikSistemi, this`Motor, this`Sistem, this`lastUpdateTime, link
      ensures Valid()
      ensures link.Advanced(old(link.sent), old(link.State()), BasicRequests(link.replies, old(link.sent)))
      ensures BasicSnapshot(link.replies, old(link.sent), old(ElektrikSistemi), old(Motor), old(Sistem),
                            ElektrikSistemi, Motor, Sistem)
      ensures lastUpdateTime == now && r == link.connectionStatus
    {
      ghost var s0, l0 := link.sent, link.State();
      UpdateElektrikselVeriler();
      UpdateMotorVerileri();
      link.AdvanceCompose(s0, l0, ELEKTRIK_REQUESTS, MOTOR_REQUESTS);
      UpdateSistemDurumu();
      link.AdvanceCompose(s0, l0, ELEKTRIK_REQUESTS + MOTOR_REQUESTS, SISTEM_REQUESTS);
      UpdateAlarmDurumlari();
      link.AdvanceCompose(s0, l0, BASIC_FIXED, AlarmRequests(link.replies, |s0 + BASIC_FIXED|));
      lastUpdateTime := now;
      r := link.connectionStatus;
    }

    /**
     * `updateExtendedData`: the counter, analog, harmonic and position passes in
     * turn; the result is the link flag they leave.
     */
    method UpdateExtendedData() returns (r: bool)
      requires Valid()
      modifies this`Sayac, this`AnalogGiris, this`Harmonik, this`GPS, link
      ensures Valid()
      ensures link.Advanced(old(link.sent), old(link.State()), EXTENDED_REQUESTS)
      ensures ExtendedSnapshot(link.replies, old(link.sent), old(Sayac), old(AnalogGiris), old(Harmonik), old(GPS),
                               Sayac, AnalogGiris, Harmonik, GPS)
      ensures r == link.connectionStatus
    {
      ghost var s0, l0 := link.sent, link.State();
      UpdateSayaclar();
      UpdateAnalogGirisler();
      link.AdvanceCompose(s0, l0, TUM_SAYAC_REQUESTS, ANALOG_REQUESTS);
      UpdateHarmonikVeriler();
      link.AdvanceCompose(s0, l0, TUM_SAYAC_REQUESTS + ANALOG_REQUESTS, HARMONIK_REQUESTS);
      UpdateGPSVeriler();
      link.AdvanceCompose(s0, l0, TUM_SAYAC_REQUESTS + ANALOG_REQUESTS + HARMONIK_REQUESTS, GPS_REQUESTS);
      r := link.connectionStatus;
    }

    /**
     * `updateData`: the basic data, then the extended data; the result holds only
     * when the link flag is set both after the basic and after the extended passes.
     */
    method UpdateData(now: uint32) returns (r: bool)
      requires Valid()
      modifies this`ElektrikSistemi, this`Motor, this`Sistem, this`Sayac, this`AnalogGiris, this`Harmonik, this`GPS,
               this`lastUpdateTime, link
      ensures Valid()
      ensures var basic := BasicRequests(link.replies, old(link.sent));
              link.Advanced(old(link.sent), old(link.State()), basic + EXTENDED_REQUESTS) &&
              r == (Replay(old(link.State()), Outcomes(link.replies, basic, |old(link.sent)|)).connectionStatus &&
                    link.connectionStatus)
      ensures BasicSnapshot(link.replies, old(link.sent), old(ElektrikSistemi), old(Motor), old(Sistem),
                            ElektrikSistemi, Motor, Sistem)
      ensures ExtendedSnapshot(link.replies, old(link.sent) + BasicRequests(link.replies, old(link.sent)),
                               old(Sayac), old(AnalogGiris), old(Harmonik), old(GPS), Sayac, AnalogGiris, Harmonik, GPS)
      ensures lastUpdateTime == now
    {
      ghost var s0, l0 := link.sent, link.State();
      var basicResult := UpdateBasicData(now);
      ghost var basic := BasicRequests(link.replies, s0);
      var extendedResult := UpdateExtendedData();
      link.AdvanceCompose(s0, l0, basic, EXTENDED_REQUESTS);
      r := basicResult && extendedResult;
    }

    /** Whether `handle` refreshes at time `now`: auto-update on and the interval elapsed, modulo 2^32. */
    predicate Due(now: uint32)
      reads this`autoUpdate, this`lastUpdateTime, this`updateInterval
    {
      autoUpdate && Elapsed32(now, lastUpdateTime) >= updateInterval
    }

    /**
     * `handle`: the basic data when due, otherwise nothing at all. `now` is the clock
     * reading taken for the due test; `done` is the later reading `updateBasicData`
     * stores once its passes are over.
     */
    method Handle(now: uint32, done: uint32)
      requires Valid()
      modifies this`ElektrikSistemi, this`Motor, this`Sistem, this`lastUpdateTime, link
      ensures Valid()
      ensures old(Due(now)) ==>
                link.Advanced(old(link.sent), old(link.State()), BasicRequests(link.replies, old(link.sent))) &&
                BasicSnapshot(link.replies, old(link.sent), old(ElektrikSistemi), old(Motor), old(Sistem),
                              ElektrikSistemi, Motor, Sistem) &&
                lastUpdateTime == done
      ensures !old(Due(now)) ==>
                link.sent == old(link.sent) && link.State() == old(link.State()) &&
                ElektrikSistemi == old(ElektrikSistemi) && Motor == old(Motor) && Sistem == old(Sistem) &&
                lastUpdateTime == old(lastUpdateTime)
    {
      if autoUpdate && Elapsed32(now, lastUpdateTime) >= updateInterval {
        var basic := UpdateBasicData(done);
      }
    }

    /**
     * `begin`: stores the interval, probes the identity register, and on a D-300
     * family answer resets the error counter and returns the first basic update's
     * result; otherwise the link flag is cleared and the result is false.
     */
    method Begin(interval: uint32, now: uint32) returns (r: bool)
      requires Valid()
      modifies this`updateInterval, this`ElektrikSistemi, this`Motor, this`Sistem, this`lastUpdateTime, link
      ensures Valid() && updateInterval == interval
      ensures var c := |old(link.sent)|;
              var probe := old(link.sent) + [ReadHolding(IDENTITY_REGISTER, 1)];
              if IdentityMatches(ReplyAt(link.replies, c)) then
                link.Advanced(probe, LinkState(0, true), BasicRequests(link.replies, probe)) &&
                BasicSnapshot(link.replies, probe, old(ElektrikSistemi), old(Motor), old(Sistem),
                              ElektrikSistemi, Motor, Sistem) &&
                lastUpdateTime == now && r == link.connectionStatus
              else
                link.sent == probe && !r &&
                link.State() == LinkState(Step(old(link.State()), ReadOk(ReplyAt(link.replies, c), 1)).consecutiveErrors, false) &&
                ElektrikSistemi == old(ElektrikSistemi) && Motor == old(Motor) && Sistem == old(Sistem) &&
                lastUpdateTime == old(lastUpdateTime)
    {
      updateInterval := interval;
      var connected := link.IsConnected();
      link.AssignConnectionStatus(connected);
      if connected {
        link.ResetErrorCounter();
        r := UpdateBasicData(now);
      } else {
        r := false;
      }
    }

    /** `simulateButton`: one write of the button's mask to the button register. */
    method SimulateButton(buton: ButonMaski) returns (ok: bool)
      requires Valid()
      modifies link
      ensures Valid()
      ensures link.sent == old(link.sent) + [WriteSingle(BUTTON_REGISTER, MaskValue(buton))]
      ensures ok == ReplyAt(link.replies, |old(link.sent)|).Response?
      ensures link.State() == Step(old(link.State()), ok)
    {
      ok := link.WriteRegister(BUTTON_REGISTER, MaskValue(buton));
    }

    /** `startGenerator`: the AUTO button, which starts the set in automatic mode. */
    method StartGenerator() returns (ok: bool)
      requires Valid()
      modifies link
      ensures Valid()
      ensures link.sent == old(link.sent) + [WriteSingle(BUTTON_REGISTER, MaskValue(AUTO_BUTON))]
      ensures ok == ReplyAt(link.replies, |old(link.sent)|).Response?
      ensures link.State() == Step(old(link.State()), ok)
    {
      ok := SimulateButton(AUTO_BUTON);
    }

    /** `stopGenerator`: the STOP button. */
    method StopGenerator() returns (ok: bool)
      requires Valid()
      modifies link
      ensures Valid()
      ensures link.sent == old(link.sent) + [WriteSingle(BUTTON_REGISTER, MaskValue(STOP_BUTON))]
      ensures ok == ReplyAt(link.replies, |old(link.sent)|).Response?
      ensures link.State() == Step(old(link.State()), ok)
    {
      ok := SimulateButton(STOP_BUTON);
    }

    /** `setAutoMode`: the AUTO button, the same write as `startGenerator`. */
    method SetAutoMode() returns (ok: bool)
      requires Valid()
      modifies link
      ensures Valid()
      ensures link.sent == old(link.sent) + [WriteSingle(BUTTON_REGISTER, MaskValue(AUTO_BUTON))]
      ensures ok == ReplyAt(link.replies, |old(link.sent)|).Response?
      ensures link.State() == Step(old(link.State()), ok)
    {
      ok := SimulateButton(AUTO_BUTON);
    }

    /** `setManualMode`: the MANUEL_RUN button. */
    method SetManualMode() returns (ok: bool)
      requires Valid()
      modifies link
      ensures Valid()
      ensures link.sent == old(link.sent) + [WriteSingle(BUTTON_REGISTER, MaskValue(MANUEL_RUN))]
      ensures ok == ReplyAt(link.replies, |old(link.sent)|).Response?
      ensures link.State() == Step(old(link.State()), ok)
    {
      ok := SimulateButton(MANUEL_RUN);
    }

    /** `setTestMode`: the TEST button. */
    method SetTestMode() returns (ok: bool)
      requires Valid()
      modifies link
      ensures Valid()
      ensures link.sent == old(link.sent) + [WriteSingle(BUTTON_REGISTER, MaskValue(TEST_BUTON))]
      ensures ok == ReplyAt(link.replies, |old(link.sent)|).Response?
      ensures link.State() == Step(old(link.State()), ok)
    {
      ok := SimulateButton(TEST_BUTON);
    }

    /** `simulateButtonCombination`: one write of an arbitrary mask to the button register. */
    method SimulateButtonCombination(buttonMask: uint16) returns (ok: bool)
      requires Valid()
      modifies link
      ensures Valid()
      ensures link.sent == old(link.sent) + [WriteSingle(BUTTON_REGISTER, buttonMask)]
      ensures ok == ReplyAt(link.replies, |old(link.sent)|).Response?
      ensures link.State() == Step(old(link.State()), ok)
    {
      ok := link.WriteRegister(BUTTON_REGISTER, buttonMask);
    }

    /** `emergencyStop`: STOP held long, written as the combination of the two masks. */
    method EmergencyStop() returns (ok: bool)
      requires Valid()
      modifies link
      ensures Valid()
      ensures link.sent == old(link.sent) + [WriteSingle(BUTTON_REGISTER, EMERGENCY_MASK)]
      ensures ok == ReplyAt(link.replies, |old(link.sent)|).Response?
      ensures link.State() == Step(old(link.State()), ok)
    {
      ok := SimulateButtonCombination(EMERGENCY_MASK);
    }

    /**
     * `setHarmonicChannel`: the channel, as a byte, written to the channel register.
     * The parameter is the enum's underlying `uint8_t`, so a value cast to the enum
     * from outside the named channels 0..19 is covered as well.
     */
    method SetHarmonicChannel(kanal: uint8) returns (ok: bool)
      requires Valid()
      modifies link
      ensures Valid()
      ensures link.sent == old(link.sent) + [WriteSingle(HARMONIC_CHANNEL_REGISTER, kanal as uint16)]
      ensures ok == ReplyAt(link.replies, |old(link.sent)|).Response?
      ensures link.State() == Step(old(link.State()), ok)
    {
      ok := link.WriteRegister(HARMONIC_CHANNEL_REGISTER, kanal as uint16);
    }

    /** `resetUnit`: the reset code written to the reset register. */
    method ResetUnit() returns (ok: bool)
      requires Valid()
      modifies link
      ensures Valid()
      ensures link.sent == old(link.sent) + [WriteSingle(RESET_REGISTER, RESET_MAGIC)]
      ensures ok == ReplyAt(link.replies, |old(link.sent)|).Response?
      ensures link.State() == Step(old(link.State()), ok)
    {
      ok := link.WriteRegister(RESET_REGISTER, RESET_MAGIC);
    }

    /** `setSlaveID`: only addresses 1..240 are taken; any other leaves the address as it was. */
    method SetSlaveID(newSlaveID: uint8)
      modifies this`slaveID
      ensures slaveID == (if 1 <= newSlaveID <= 240 then newSlaveID else old(slaveID))
    {
      if newSlaveID >= 1 && newSlaveID <= 240 {
        slaveID := newSlaveID;
      }
    }

    /** `enableAutoUpdate`. */
    method EnableAutoUpdate(enable: bool)
      modifies this`autoUpdate
      ensures autoUpdate == enable
    {
      autoUpdate := enable;
    }

    /** `setUpdateInterval`. */
    method SetUpdateInterval(interval: uint32)
      modifies this`updateInterval
      ensures updateInterval == interval
    {
      updateInterval := interval;
    }
  }
}
