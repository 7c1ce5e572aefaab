/**
 * What the shared acquisition passes promise, whatever the bus answers: a silent
 * device leaves the snapshot as it was and drops the link, the alarm flags mean
 * "some register of the range is non-zero", and the alarm scans stay inside their
 * ranges and stop at the first hit.
 */
module PassFacts {
  import opened Words
  import opened Bus
  import opened LinkHealth
  import opened AlarmScan
  import opened D300Types
  import opened Passes

  /** Requests that all go unanswered all fail. */
  lemma {:induction false} SilentOutcomes(rs: seq<Reply>, reqs: seq<Request>, c: nat)
    requires Silent(rs, c, |reqs|)
    ensures Outcomes(rs, reqs, c) == Failures(|reqs|)
  {
    var o := Outcomes(rs, reqs, c);
    forall k | 0 <= k < |reqs| ensures o[k] == Failures(|reqs|)[k] {
      OutcomeAt(rs, reqs, c, k);
      assert ReplyAt(rs, c + k) == NoResponse;
    }
  }

  /**
   * A stretch of requests the device never answers adds its length to the error
   * counter (modulo 256) and clears the flag once five errors have accumulated; a
   * stretch of five or more always leaves the link disconnected.
   */
  lemma {:induction false} SilentStretchDisconnects(rs: seq<Reply>, reqs: seq<Request>, c: nat, l: LinkState)
    requires Consistent(l) && Silent(rs, c, |reqs|)
    ensures Replay(l, Outcomes(rs, reqs, c)) ==
              LinkState((l.consecutiveErrors + |reqs|) % 0x100,
                        l.connectionStatus && l.consecutiveErrors + |reqs| < MAX_ERRORS)
    ensures |reqs| >= MAX_ERRORS ==> !Replay(l, Outcomes(rs, reqs, c)).connectionStatus
  {
    SilentOutcomes(rs, reqs, c);
    FailuresFrom(l, |reqs|);
  }

  /** With no response at all, every read keeps its previous value. */
  lemma SilentPassesKeepReadings(rs: seq<Reply>, c: nat, m: MotorVerileri, st: SistemDurumu,
                                 sy: Sayaclar, an: AnalogGirisler)
    requires Silent(rs, c, 11)
    ensures MotorVerileriPass(rs, c, m) == m
    ensures SistemDurumuPass(rs, c, st) == st
    ensures SayaclarPass(rs, c, sy) == sy
    ensures AnalogGirislerPass(rs, c, an) == an
  {
  }

  /** No reply in the window is a hit. */
  lemma NoHits(rs: seq<Reply>, c: nat, n: nat)
    requires Silent(rs, c, n)
    ensures forall i :: c <= i < c + n ==> !HitAt(rs, i)
  {
  }

  /** A scan that sees a hit ends right after its first one; one that sees none reads the whole range. */
  lemma ScanWindow(rs: seq<Reply>, c: nat)
    ensures 1 <= ScanLength(rs, c, ALARM_RANGE) <= ALARM_RANGE
    ensures ScanActive(rs, c, ALARM_RANGE) <==> exists i :: c <= i < c + ALARM_RANGE && HitAt(rs, i)
  {
    ScanActiveIff(rs, c, ALARM_RANGE);
    ScanLengthSpec(rs, c, ALARM_RANGE);
  }

  /**
   * `updateAlarmDurumlari`: each flag is set iff some register of its range answers
   * with a non-zero word; the scans run one after the other, each starting right
   * after the last read of the one before; nothing else in the record changes.
   */
  lemma AlarmFlagsMeaning(rs: seq<Reply>, c: nat, st: SistemDurumu)
    ensures var p, y, u := AlarmDurumlariPass(rs, c, st), YukAtmaStart(rs, c), UyariStart(rs, c);
            (p.KapatmaAlarmi <==> exists i :: c <= i < c + ALARM_RANGE && HitAt(rs, i)) &&
            (p.YukAtmaAlarmi <==> exists i :: y <= i < y + ALARM_RANGE && HitAt(rs, i)) &&
            (p.UyariAlarmi <==> exists i :: u <= i < u + ALARM_RANGE && HitAt(rs, i))
    ensures c < YukAtmaStart(rs, c) <= c + ALARM_RANGE
    ensures YukAtmaStart(rs, c) < UyariStart(rs, c) <= YukAtmaStart(rs, c) + ALARM_RANGE
    ensures AlarmDurumlariPass(rs, c, st).(KapatmaAlarmi := st.KapatmaAlarmi,
              YukAtmaAlarmi := st.YukAtmaAlarmi, UyariAlarmi := st.UyariAlarmi) == st
  {
    ScanWindow(rs, c);
    ScanWindow(rs, YukAtmaStart(rs, c));
    ScanWindow(rs, UyariStart(rs, c));
  }

  /** A scan with a hit stops right after its first one; one without reads the whole range. */
  lemma ScanStopsAtFirstHit(rs: seq<Reply>, c: nat)
    ensures ScanActive(rs, c, ALARM_RANGE) ==>
              HitAt(rs, YukAtmaStart(rs, c) - 1) &&
              forall i :: c <= i < YukAtmaStart(rs, c) - 1 ==> !HitAt(rs, i)
    ensures !ScanActive(rs, c, ALARM_RANGE) ==> YukAtmaStart(rs, c) == c + ALARM_RANGE
  {
    ScanLengthSpec(rs, c, ALARM_RANGE);
  }

  /**
   * The shutdown scan stops at the first non-zero register: when its flag is set, the
   * last reply it consumed is a hit and none before it is; when clear, it read all 16.
   */
  lemma ShutdownScanStopsAtFirstHit(rs: seq<Reply>, c: nat, st: SistemDurumu)
    ensures AlarmDurumlariPass(rs, c, st).KapatmaAlarmi ==>
              HitAt(rs, YukAtmaStart(rs, c) - 1) &&
              forall i :: c <= i < YukAtmaStart(rs, c) - 1 ==> !HitAt(rs, i)
    ensures !AlarmDurumlariPass(rs, c, st).KapatmaAlarmi ==> YukAtmaStart(rs, c) == c + ALARM_RANGE
  {
    ScanStopsAtFirstHit(rs, c);
    assert AlarmDurumlariPass(rs, c, st).KapatmaAlarmi == ScanActive(rs, c, ALARM_RANGE);
  }

  /** A single-register read inside the three alarm ranges. */
  predicate AlarmRead(q: Request) {
    q.ReadHolding? && q.count == 1 && SHUTDOWN_FIRST <= q.address <= WARNING_LAST
  }

  /** A scan of part of one range reads only alarm registers. */
  lemma ScanReadsAlarmRegisters(first: uint16, len: nat)
    requires SHUTDOWN_FIRST <= first && first + len <= WARNING_LAST + 1
    ensures forall i :: 0 <= i < len ==> AlarmRead(ScanRequests(first, len)[i])
  {
  }

  /** The three scans together issue at least one and at most sixteen reads each. */
  lemma AlarmScanLengths(rs: seq<Reply>, c: nat)
    ensures 3 <= |AlarmRequests(rs, c)| <= 3 * ALARM_RANGE
    ensures c + |AlarmRequests(rs, c)| == UyariStart(rs, c) + ScanLength(rs, UyariStart(rs, c), ALARM_RANGE)
  {
    ScanWindow(rs, c);
    ScanWindow(rs, YukAtmaStart(rs, c));
    ScanWindow(rs, UyariStart(rs, c));
  }

  /**
   * The alarm pass issues between 3 and 48 single-register reads, all inside
   * 10504..10551, and consumes exactly the replies up to the end of the warning scan.
   */
  lemma AlarmTranscriptBounds(rs: seq<Reply>, c: nat)
    ensures var r := AlarmRequests(rs, c);
            3 <= |r| <= 3 * ALARM_RANGE &&
            c + |r| == UyariStart(rs, c) + ScanLength(rs, UyariStart(rs, c), ALARM_RANGE) &&
            forall i :: 0 <= i < |r| ==> AlarmRead(r[i])
  {
    AlarmScanLengths(rs, c);
    var la, lb, lw := ScanLength(rs, c, ALARM_RANGE), ScanLength(rs, YukAtmaStart(rs, c), ALARM_RANGE),
                      ScanLength(rs, UyariStart(rs, c), ALARM_RANGE);
    var a, b, w := ScanRequests(SHUTDOWN_FIRST, la), ScanRequests(LOAD_DUMP_FIRST, lb), ScanRequests(WARNING_FIRST, lw);
    ScanReadsAlarmRegisters(SHUTDOWN_FIRST, la);
    ScanReadsAlarmRegisters(LOAD_DUMP_FIRST, lb);
    ScanReadsAlarmRegisters(WARNING_FIRST, lw);
    var r := AlarmRequests(rs, c);
    assert r == a + b + w;
    forall i | 0 <= i < |r| ensures AlarmRead(r[i]) {
      if i < |a| {
        assert r[i] == a[i];
      } else if i < |a| + |b| {
        assert r[i] == b[i - |a|];
      } else {
        assert r[i] == w[i - |a| - |b|];
      }
    }
  }

  /** A silent device clears all three flags, and every one of the 48 alarm registers is polled. */
  lemma SilentAlarms(rs: seq<Reply>, c: nat, st: SistemDurumu)
    requires Silent(rs, c, 3 * ALARM_RANGE)
    ensures AlarmDurumlariPass(rs, c, st) ==
              st.(KapatmaAlarmi := false, YukAtmaAlarmi := false, UyariAlarmi := false)
    ensures AlarmRequests(rs, c) == ScanRequests(SHUTDOWN_FIRST, ALARM_RANGE) +
              ScanRequests(LOAD_DUMP_FIRST, ALARM_RANGE) + ScanRequests(WARNING_FIRST, ALARM_RANGE)
  {
    NoHits(rs, c, 3 * ALARM_RANGE);
    ScanActiveIff(rs, c, ALARM_RANGE);
    ScanLengthSpec(rs, c, ALARM_RANGE);
    ScanActiveIff(rs, c + ALARM_RANGE, ALARM_RANGE);
    ScanLengthSpec(rs, c + ALARM_RANGE, ALARM_RANGE);
    ScanActiveIff(rs, c + 2 * ALARM_RANGE, ALARM_RANGE);
    ScanLengthSpec(rs, c + 2 * ALARM_RANGE, ALARM_RANGE);
  }

  /** When the first register of every range answers non-zero, three reads set all three flags. */
  lemma FirstRegistersAlarming(rs: seq<Reply>, c: nat, st: SistemDurumu)
    requires HitAt(rs, c) && HitAt(rs, c + 1) && HitAt(rs, c + 2)
    ensures AlarmDurumlariPass(rs, c, st) ==
              st.(KapatmaAlarmi := true, YukAtmaAlarmi := true, UyariAlarmi := true)
    ensures AlarmRequests(rs, c) ==
              [ReadHolding(SHUTDOWN_FIRST, 1), ReadHolding(LOAD_DUMP_FIRST, 1), ReadHolding(WARNING_FIRST, 1)]
  {
    assert YukAtmaStart(rs, c) == c + 1;
    assert UyariStart(rs, c) == c + 2;
  }

  /**
   * The state and mode words are stored without validation: a state word of 99,
   * which names no `UniteDurumu`, is kept as it is.
   */
  lemma UncheckedDurum(rs: seq<Reply>, c: nat, st: SistemDurumu)
    requires ReplyAt(rs, c) == Response([99])
    ensures SistemDurumuPass(rs, c, st).Durum == 99
    ensures DurumFromKod(99).None?
  {
    DurumCodesContiguous(99);
  }

  /** The harmonic-channel register word 259 is read back as channel 3: only its low byte survives. */
  lemma KanalKeepsLowByte(previous: uint8)
    ensures KanalRead(Response([259]), previous) == 3
    ensures KanalRead(NoResponse, previous) == previous
  {
  }
}
