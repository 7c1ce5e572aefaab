/**
 * The controller's status predicates, the same in both variants: whether the
 * generator is running, whether mains is present, whether the system is healthy,
 * and which alarm kind is active. They read only the snapshot and the link flag.
 */
module Classifier {
  import opened Words
  import opened D300Types

  /** `isJeneratorCalisir`: the raw state code lies from idle speed to slave-generator loaded. */
  predicate IsJeneratorCalisir(durum: uint16) {
    DurumKodu(MotorRolantiHizi) <= durum <= DurumKodu(SlaveJeneratorYuklu)
  }

  /** The raw range is exactly the codes of the running states, in both directions. */
  lemma {:induction false} JeneratorCalisirIffRunState(durum: uint16)
    ensures IsJeneratorCalisir(durum) ==>
              DurumFromKod(durum).Some? && IsRunState(DurumFromKod(durum).value)
    ensures (DurumFromKod(durum).Some? && IsRunState(DurumFromKod(durum).value)) ==>
              IsJeneratorCalisir(durum)
    ensures IsJeneratorCalisir(durum) <==> 6 <= durum <= 16
  {
    DurumCodesContiguous(durum);
    if DurumFromKod(durum).Some? {
      RunStateCodes(DurumFromKod(durum).value);
    }
  }

  /** The running states are the ones coded 6 through 16. */
  lemma RunStateCodes(d: UniteDurumu)
    ensures IsRunState(d) <==> 6 <= DurumKodu(d) <= 16
  {
  }

  /** `isSebekeMevcut`: mains average voltage above 100 V and frequency strictly within 45..65 Hz. */
  predicate IsSebekeMevcut(sebeke: ElektrikselSistem) {
    sebeke.Toplam.OrtalamaVoltaj > 100.0 && sebeke.Frekans > 45.0 && sebeke.Frekans < 65.0
  }

  /** 150 V at 50 Hz is mains present; 150 V at 70 Hz or 100 V at 50 Hz is not. */
  lemma SebekeMevcutScenarios(sebeke: ElektrikselSistem)
    ensures sebeke.Toplam.OrtalamaVoltaj == 150.0 && sebeke.Frekans == 50.0 ==> IsSebekeMevcut(sebeke)
    ensures sebeke.Frekans == 70.0 ==> !IsSebekeMevcut(sebeke)
    ensures sebeke.Toplam.OrtalamaVoltaj == 100.0 ==> !IsSebekeMevcut(sebeke)
  {
  }

  /**
   * `isSystemHealthy`: connected, no shutdown alarm, battery above 10 V, and oil
   * pressure above 0.5 bar unless the generator is not running.
   */
  predicate IsSystemHealthy(connected: bool, motor: MotorVerileri, sistem: SistemDurumu) {
    connected &&
    !sistem.KapatmaAlarmi &&
    motor.BataryaVoltaji > 10.0 &&
    (motor.YagBasinci > 0.5 || !IsJeneratorCalisir(sistem.Durum))
  }

  /**
   * What health rules out: a lost link, a shutdown alarm, a flat battery, and a
   * running engine without oil pressure.
   */
  lemma UnhealthyCases(connected: bool, motor: MotorVerileri, sistem: SistemDurumu)
    ensures !connected ==> !IsSystemHealthy(connected, motor, sistem)
    ensures sistem.KapatmaAlarmi ==> !IsSystemHealthy(connected, motor, sistem)
    ensures motor.BataryaVoltaji <= 10.0 ==> !IsSystemHealthy(connected, motor, sistem)
    ensures 6 <= sistem.Durum <= 16 && motor.YagBasinci <= 0.5 ==>
              !IsSystemHealthy(connected, motor, sistem)
  {
  }

  /**
   * A generator that is not running needs no oil pressure: with the link up, no
   * shutdown alarm and the battery in order, health holds at any pressure. That
   * covers the named stopped states and the undefined codes alike.
   */
  lemma StoppedEngineIgnoresOilPressure(motor: MotorVerileri, sistem: SistemDurumu)
    requires !sistem.KapatmaAlarmi && motor.BataryaVoltaji > 10.0
    requires !IsJeneratorCalisir(sistem.Durum)
    ensures forall p: real :: IsSystemHealthy(true, motor.(YagBasinci := p), sistem)
    ensures DurumFromKod(sistem.Durum).None? || !IsRunState(DurumFromKod(sistem.Durum).value)
  {
    JeneratorCalisirIffRunState(sistem.Durum);
  }

  /** `isAlarmActive`: the flag of the given alarm kind. */
  predicate IsAlarmActive(sistem: SistemDurumu, tip: AlarmTipi) {
    match tip
    case Kapatma => sistem.KapatmaAlarmi
    case YukAtma => sistem.YukAtmaAlarmi
    case Uyari => sistem.UyariAlarmi
  }

  /** The `"alarms"` field of the basic JSON report: any of the three flags. */
  predicate AnyAlarm(sistem: SistemDurumu) {
    sistem.KapatmaAlarmi || sistem.YukAtmaAlarmi || sistem.UyariAlarmi
  }

  /** The report's summary flag is set iff some alarm kind is active. */
  lemma AnyAlarmIffSomeKind(sistem: SistemDurumu)
    ensures AnyAlarm(sistem) <==> exists tip :: IsAlarmActive(sistem, tip)
  {
    if sistem.KapatmaAlarmi {
      assert IsAlarmActive(sistem, Kapatma);
    } else if sistem.YukAtmaAlarmi {
      assert IsAlarmActive(sistem, YukAtma);
    } else if sistem.UyariAlarmi {
      assert IsAlarmActive(sistem, Uyari);
    }
  }
}
