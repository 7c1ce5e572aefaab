/**
 * What the two variants' update operations promise over whole stretches of replies:
 * how long the basic update is, what a silent device leaves behind, and how the two
 * `updateData` results differ when the device stops answering after the basic passes.
 */
module VariantFacts {
  import opened Words
  import opened Bus
  import opened LinkHealth
  import opened AlarmScan
  import opened D300Types
  import opened Passes
  import opened PassFacts
  import Modbus
  import D300M
  import D300MClass

  /** A stretch whose last request succeeds leaves the link connected with no errors counted. */
  lemma LastSuccessConnects(l: LinkState, rs: seq<Reply>, reqs: seq<Request>, c: nat)
    requires |reqs| > 0 && Succeeds(reqs[|reqs| - 1], ReplyAt(rs, c + |reqs| - 1))
    ensures Replay(l, Outcomes(rs, reqs, c)) == LinkState(0, true)
  {
    var init := Outcomes(rs, reqs[..|reqs| - 1], c);
    assert Outcomes(rs, reqs, c) == init + [true];
    SuccessResets(l, init);
  }

  /** The tracker run over two stretches in turn, from a consistent state, through a consistent midpoint. */
  lemma ReplayInTwo(l0: LinkState, rs: seq<Reply>, a: seq<Request>, b: seq<Request>, c: nat)
    requires Consistent(l0)
    ensures Consistent(Replay(l0, Outcomes(rs, a, c)))
    ensures Replay(l0, Outcomes(rs, a + b, c)) == Replay(Replay(l0, Outcomes(rs, a, c)), Outcomes(rs, b, c + |a|))
  {
    ReplayConsistent(l0, Outcomes(rs, a, c));
    Modbus.ReplayCompose(l0, rs, a, b, c, c + |a|);
  }

  /**
   * A stretch whose last request succeeds, followed by at least five requests that
   * go unanswered: connected after the first, disconnected after both.
   */
  lemma ConnectedThenSilent(l0: LinkState, rs: seq<Reply>, a: seq<Request>, b: seq<Request>, c: nat)
    requires Consistent(l0) && |a| > 0 && Succeeds(a[|a| - 1], ReplyAt(rs, c + |a| - 1))
    requires |b| >= MAX_ERRORS && Silent(rs, c + |a|, |b|)
    ensures Replay(l0, Outcomes(rs, a, c)).connectionStatus
    ensures !Replay(l0, Outcomes(rs, a + b, c)).connectionStatus
  {
    LastSuccessConnects(l0, rs, a, c);
    ReplayInTwo(l0, rs, a, b, c);
    SilentStretchDisconnects(rs, b, c + |a|, Replay(l0, Outcomes(rs, a, c)));
  }

  /** The split variant's basic update issues 41 fixed reads, then between 3 and 48 alarm reads. */
  lemma SplitBasicLength(rs: seq<Reply>, s0: seq<Request>)
    ensures |D300M.BASIC_FIXED| == 41
    ensures 41 + 3 <= |D300M.BasicRequests(rs, s0)| <= 41 + 3 * ALARM_RANGE
  {
    AlarmScanLengths(rs, |s0 + D300M.BASIC_FIXED|);
  }

  /** The single-file variant's basic update issues 53 fixed reads, then between 3 and 48 alarm reads. */
  lemma SingleBasicLength(rs: seq<Reply>, s0: seq<Request>)
    ensures |D300MClass.BASIC_FIXED| == 53
    ensures 53 + 3 <= |D300MClass.BasicRequests(rs, s0)| <= 53 + 3 * ALARM_RANGE
    ensures |D300MClass.EXTENDED_REQUESTS| == 31
  {
    AlarmScanLengths(rs, |s0 + D300MClass.BASIC_FIXED|);
  }

  /** The split variant's electrical pass keeps every measurement when nothing answers. */
  lemma SplitSilentElektrik(rs: seq<Reply>, c: nat, e: ElektrikSistemiVerisi)
    requires Silent(rs, c, |D300M.ELEKTRIK_REQUESTS|)
    ensures D300M.ElektrikselVerilerPass(rs, c, e) == e
  {
    assert |D300M.ELEKTRIK_REQUESTS| == 22;
  }

  /** The single-file variant's electrical pass keeps every measurement when nothing answers. */
  lemma SingleSilentElektrik(rs: seq<Reply>, c: nat, e: ElektrikSistemiVerisi)
    requires Silent(rs, c, |D300MClass.ELEKTRIK_REQUESTS|)
    ensures D300MClass.ElektrikselVerilerPass(rs, c, e) == e
  {
    assert |D300MClass.ELEKTRIK_REQUESTS| == 34;
  }

  /**
   * A split-variant basic update during which the device says nothing: every
   * reading is kept, the external fuel level is still stored, all three alarm flags
   * are cleared after full scans, and the link ends disconnected.
   */
  lemma SplitSilentBasicUpdate(rs: seq<Reply>, s0: seq<Request>, l0: LinkState,
                               e: ElektrikSistemiVerisi, m: MotorVerileri, st: SistemDurumu, harici: real)
    requires Consistent(l0) && Silent(rs, |s0|, 41 + 3 * ALARM_RANGE)
    ensures D300M.BasicRequests(rs, s0) == D300M.BASIC_FIXED + ScanRequests(SHUTDOWN_FIRST, ALARM_RANGE) +
              ScanRequests(LOAD_DUMP_FIRST, ALARM_RANGE) + ScanRequests(WARNING_FIRST, ALARM_RANGE)
    ensures D300M.BasicSnapshot(rs, s0, e, m, st, harici, e, m.(HariciYakitSeviyesi := harici),
                                st.(KapatmaAlarmi := false, YukAtmaAlarmi := false, UyariAlarmi := false))
    ensures !Replay(l0, Outcomes(rs, D300M.BasicRequests(rs, s0), |s0|)).connectionStatus
  {
    var c := |s0|;
    assert |D300M.ELEKTRIK_REQUESTS| == 22 && |D300M.BASIC_FIXED| == 41;
    SplitSilentElektrik(rs, c, e);
    SilentPassesKeepReadings(rs, c + 22, m, st, SAYAC_SIFIR, ANALOG_SIFIR);
    SilentPassesKeepReadings(rs, c + 33, m, st, SAYAC_SIFIR, ANALOG_SIFIR);
    assert |s0 + D300M.ELEKTRIK_REQUESTS| == c + 22;
    assert |s0 + D300M.ELEKTRIK_REQUESTS + MOTOR_REQUESTS| == c + 33;
    assert |s0 + D300M.BASIC_FIXED| == c + 41;
    SilentAlarms(rs, c + 41, st);
    SplitBasicLength(rs, s0);
    SilentStretchDisconnects(rs, D300M.BasicRequests(rs, s0), c, l0);
  }

  /**
   * A single-file-variant basic update during which the device says nothing: every
   * reading is kept, all three alarm flags are cleared after full scans, and the
   * link ends disconnected.
   */
  lemma SingleSilentBasicUpdate(rs: seq<Reply>, s0: seq<Request>, l0: LinkState,
                                e: ElektrikSistemiVerisi, m: MotorVerileri, st: SistemDurumu)
    requires Consistent(l0) && Silent(rs, |s0|, 53 + 3 * ALARM_RANGE)
    ensures D300MClass.BasicRequests(rs, s0) == D300MClass.BASIC_FIXED + ScanRequests(SHUTDOWN_FIRST, ALARM_RANGE) +
              ScanRequests(LOAD_DUMP_FIRST, ALARM_RANGE) + ScanRequests(WARNING_FIRST, ALARM_RANGE)
    ensures D300MClass.BasicSnapshot(rs, s0, e, m, st, e, m,
                                     st.(KapatmaAlarmi := false, YukAtmaAlarmi := false, UyariAlarmi := false))
    ensures !Replay(l0, Outcomes(rs, D300MClass.BasicRequests(rs, s0), |s0|)).connectionStatus
  {
    var c := |s0|;
    assert |D300MClass.ELEKTRIK_REQUESTS| == 34 && |D300MClass.BASIC_FIXED| == 53;
    SingleSilentElektrik(rs, c, e);
    SilentPassesKeepReadings(rs, c + 34, m, st, SAYAC_SIFIR, ANALOG_SIFIR);
    SilentPassesKeepReadings(rs, c + 45, m, st, SAYAC_SIFIR, ANALOG_SIFIR);
    assert |s0 + D300MClass.ELEKTRIK_REQUESTS| == c + 34;
    assert |s0 + D300MClass.ELEKTRIK_REQUESTS + MOTOR_REQUESTS| == c + 45;
    assert |s0 + D300MClass.BASIC_FIXED| == c + 53;
    SilentAlarms(rs, c + 53, st);
    SingleBasicLength(rs, s0);
    SilentStretchDisconnects(rs, D300MClass.BasicRequests(rs, s0), c, l0);
  }

  /** The single-file variant's extended passes keep every record when nothing answers. */
  lemma SingleSilentExtended(rs: seq<Reply>, s1: seq<Request>, sy: Sayaclar, an: AnalogGirisler,
                             h: HarmonikVerileri, g: GPSVeriler)
    requires Silent(rs, |s1|, 31)
    ensures D300MClass.ExtendedSnapshot(rs, s1, sy, an, h, g, sy, an, h, g)
  {
    var c := |s1|;
    SilentPassesKeepReadings(rs, c, MOTOR_SIFIR, SISTEM_BASLANGIC, sy, an);
    assert D300MClass.TumSayaclarPass(rs, c, sy) == sy;
    assert |s1 + D300MClass.TUM_SAYAC_REQUESTS| == c + 11;
    SilentPassesKeepReadings(rs, c + 11, MOTOR_SIFIR, SISTEM_BASLANGIC, sy, an);
    assert |s1 + D300MClass.TUM_SAYAC_REQUESTS + ANALOG_REQUESTS| == c + 19;
    assert |s1 + D300MClass.TUM_SAYAC_REQUESTS + ANALOG_REQUESTS + D300MClass.HARMONIK_REQUESTS| == c + 28;
  }

  /**
   * `updateData` in the split variant reports the flag after the basic passes: when
   * the device answers the last basic read and then falls silent for the counter and
   * analog passes, the result is true although the link ends disconnected.
   */
  lemma SplitUpdateDataIgnoresExtension(rs: seq<Reply>, s0: seq<Request>, l0: LinkState)
    requires Consistent(l0)
    requires var basic := D300M.BasicRequests(rs, s0);
             Succeeds(basic[|basic| - 1], ReplyAt(rs, |s0| + |basic| - 1)) &&
             Silent(rs, |s0| + |basic|, |SAYAC_REQUESTS + ANALOG_REQUESTS|)
    ensures var basic := D300M.BasicRequests(rs, s0);
            Replay(l0, Outcomes(rs, basic, |s0|)).connectionStatus &&
            !Replay(l0, Outcomes(rs, basic + SAYAC_REQUESTS + ANALOG_REQUESTS, |s0|)).connectionStatus
  {
    var basic, ext := D300M.BasicRequests(rs, s0), SAYAC_REQUESTS + ANALOG_REQUESTS;
    assert |ext| == 18;
    ConnectedThenSilent(l0, rs, basic, ext, |s0|);
    AppendAssoc(basic, SAYAC_REQUESTS, ANALOG_REQUESTS);
  }

  /**
   * `updateData` in the single-file variant also needs the flag after the extended
   * passes: under the same replies, whatever the basic passes saw, the result is
   * false, and the four extended records keep their values.
   */
  lemma SingleUpdateDataFailsOnSilentExtension(rs: seq<Reply>, s0: seq<Request>, l0: LinkState,
                                               sy: Sayaclar, an: AnalogGirisler, h: HarmonikVerileri, g: GPSVeriler)
    requires Consistent(l0)
    requires Silent(rs, |s0 + D300MClass.BasicRequests(rs, s0)|, |D300MClass.EXTENDED_REQUESTS|)
    ensures var basic := D300MClass.BasicRequests(rs, s0);
            !(Replay(l0, Outcomes(rs, basic, |s0|)).connectionStatus &&
              Replay(l0, Outcomes(rs, basic + D300MClass.EXTENDED_REQUESTS, |s0|)).connectionStatus)
    ensures D300MClass.ExtendedSnapshot(rs, s0 + D300MClass.BasicRequests(rs, s0), sy, an, h, g, sy, an, h, g)
  {
    var basic := D300MClass.BasicRequests(rs, s0);
    SingleBasicLength(rs, s0);
    ReplayInTwo(l0, rs, basic, D300MClass.EXTENDED_REQUESTS, |s0|);
    SilentStretchDisconnects(rs, D300MClass.EXTENDED_REQUESTS, |s0| + |basic|, Replay(l0, Outcomes(rs, basic, |s0|)));
    SingleSilentExtended(rs, s0 + basic, sy, an, h, g);
  }
}
