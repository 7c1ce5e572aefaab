/**
 * The transport adapter and link-health tracker of one controller. The Modbus master
 * is an oracle: `ReplyAt(replies, i)` is the answer the bus gives to the i-th request, and
 * `sent` records every request in the order it was issued. The counter and the flag
 * are the controller's `consecutiveErrors` and `connectionStatus`.
 */
module Modbus {
  import opened Words
  import opened Bus
  import opened RegisterDecode
  import opened LinkHealth
  import opened AlarmScan
  import opened D300Types

  /** The identity codes of the D-300, D-500 and D-700 families. */
  predicate KnownIdentity(w: uint16) {
    w == 0xD300 || w == 0xD500 || w == 0xD700
  }

  /** `isConnected`'s verdict on the reply to its read of the identity register. */
  predicate IdentityMatches(reply: Reply) {
    ReadOk(reply, 1) && KnownIdentity(reply.words[0])
  }

  /**
   * A D-300 answering 0xD300 is accepted; an answer of 0x1234 is refused although the
   * read itself succeeded and so still resets the tracker; silence is refused.
   */
  lemma IdentityScenarios(l: LinkState)
    ensures IdentityMatches(Response([0xD300]))
    ensures !IdentityMatches(Response([0x1234])) && Step(l, ReadOk(Response([0x1234]), 1)) == LinkState(0, true)
    ensures !IdentityMatches(NoResponse) && Step(l, ReadOk(NoResponse, 1)) == LinkHealth.HandleError(l)
  {
  }

  /**
   * The tracker run from `l0` over the outcomes of the first `k` requests of `plan`,
   * the first of which received reply number `from`.
   */
  function Run(l0: LinkState, replies: seq<Reply>, from: nat, plan: seq<Request>, k: nat): LinkState
    requires k <= |plan|
    decreases k
  {
    if k == 0 then l0 else Step(Run(l0, replies, from, plan, k - 1), Succeeds(plan[k - 1], ReplyAt(replies, from + k - 1)))
  }

  /** Running request by request is replaying the outcomes of the prefix. */
  lemma {:induction false} RunPrefix(l0: LinkState, replies: seq<Reply>, from: nat, plan: seq<Request>, k: nat)
    requires k <= |plan|
    ensures Run(l0, replies, from, plan, k) == Replay(l0, Outcomes(replies, plan[..k], from))
    decreases k
  {
    if k > 0 {
      RunPrefix(l0, replies, from, plan, k - 1);
      assert plan[..k] == plan[..k - 1] + [plan[k - 1]];
      OutcomesSnoc(replies, plan[..k - 1], plan[k - 1], from);
      var o := Outcomes(replies, plan[..k], from);
      assert o[..|o| - 1] == Outcomes(replies, plan[..k - 1], from);
    }
  }

  /** The tracker run over two stretches of requests in turn is run over both together. */
  lemma ReplayCompose(l0: LinkState, replies: seq<Reply>, a: seq<Request>, b: seq<Request>, from: nat, mid: nat)
    requires mid == from + |a|
    ensures Replay(l0, Outcomes(replies, a + b, from)) ==
            Replay(Replay(l0, Outcomes(replies, a, from)), Outcomes(replies, b, mid))
  {
    var oa, ob := Outcomes(replies, a, from), Outcomes(replies, b, mid);
    OutcomesConcat(replies, a, b, from);
    assert Outcomes(replies, a + b, from) == oa + ob;
    ReplayConcat(l0, oa, ob);
  }

  /** A stretch of transactions: the transcript and link state it starts from, and the requests it is to issue, in order. */
  datatype Stretch = Stretch(sent0: seq<Request>, state0: LinkState, plan: seq<Request>)

  class Port {
    const replies: seq<Reply>
    var sent: seq<Request>
    var consecutiveErrors: uint8
    var connectionStatus: bool

    function State(): LinkState
      reads this
    {
      LinkState(consecutiveErrors, connectionStatus)
    }

    /** The flag is never set at or above the error threshold. */
    ghost predicate Valid()
      reads this
    {
      Consistent(State())
    }

    constructor (replies: seq<Reply>)
      ensures Valid() && this.replies == replies
      ensures sent == [] && State() == INITIAL
    {
      this.replies := replies;
      sent := [];
      consecutiveErrors, connectionStatus := 0, false;
    }

    /**
     * Since transcript `s0` and link state `l0`, exactly `reqs` were issued and the
     * tracker ran over their outcomes.
     */
    ghost predicate Advanced(s0: seq<Request>, l0: LinkState, reqs: seq<Request>)
      reads this
    {
      sent == s0 + reqs && State() == Replay(l0, Outcomes(replies, reqs, |s0|))
    }

    /** Two stretches of requests in a row are one stretch. */
    lemma AdvanceCompose(s0: seq<Request>, l0: LinkState, a: seq<Request>, b: seq<Request>)
      requires Advanced(s0 + a, Replay(l0, Outcomes(replies, a, |s0|)), b)
      ensures Advanced(s0, l0, a + b)
    {
      AppendAssoc(s0, a, b);
      ReplayCompose(l0, replies, a, b, |s0|, |s0 + a|);
    }

    /** The first `k` requests of stretch `t` have been issued and the tracker ran over their outcomes. */
    ghost predicate Tracked(t: Stretch, k: nat)
      reads this
    {
      k <= |t.plan| && Valid() &&
      sent == Issued(t.sent0, t.plan, k) && State() == Run(t.state0, replies, |t.sent0|, t.plan, k)
    }

    /** Every stretch starts here, with nothing of it issued yet. */
    lemma StartTracking(plan: seq<Request>)
      requires Valid()
      ensures Tracked(Stretch(sent, State(), plan), 0)
    {
    }

    /** Once requests are tracked, the stretch so far has advanced the link by their outcomes. */
    lemma Settle(t: Stretch, k: nat)
      requires Tracked(t, k)
      ensures Advanced(t.sent0, t.state0, t.plan[..k])
    {
      IssuedPrefix(t.sent0, t.plan, k);
      RunPrefix(t.state0, replies, |t.sent0|, t.plan, k);
    }

    /** A stretch tracked to its end has issued exactly its plan. */
    lemma Finish(t: Stretch)
      requires Tracked(t, |t.plan|)
      ensures Advanced(t.sent0, t.state0, t.plan)
    {
      Settle(t, |t.plan|);
      assert t.plan[..|t.plan|] == t.plan;
    }

    /**
     * `begin`'s `connectionStatus = isConnected()`: the flag is overwritten outside the
     * tracker. Setting it is only done right after a successful read, when the counter is 0.
     */
    method AssignConnectionStatus(b: bool)
      requires Valid() && (b ==> consecutiveErrors < MAX_ERRORS)
      modifies this`connectionStatus
      ensures Valid()
      ensures State() == LinkState(old(consecutiveErrors), b)
    {
      connectionStatus := b;
    }

    /** `handleError`. */
    method HandleError()
      modifies this`consecutiveErrors, this`connectionStatus
      ensures State() == LinkHealth.HandleError(old(State()))
    {
      consecutiveErrors := Increment8(consecutiveErrors);
      if consecutiveErrors >= MAX_ERRORS {
        connectionStatus := false;
      }
    }

    /** `resetErrorCounter`. */
    method ResetErrorCounter()
      modifies this`consecutiveErrors, this`connectionStatus
      ensures State() == LinkHealth.ResetErrorCounter(old(State()))
    {
      consecutiveErrors := 0;
      connectionStatus := true;
    }

    /** One transaction on the bus: the request is issued and its reply taken. */
    method Transact(req: Request) returns (reply: Reply)
      modifies this`sent
      ensures sent == old(sent) + [req]
      ensures reply == ReplyAt(replies, |old(sent)|)
    {
      reply := ReplyAt(replies, |sent|);
      sent := sent + [req];
    }

    /** `read32BitValue`: on success the two words high-first, else `current`. */
    method Read32BitValue(ghost t: Stretch, ghost k: nat,
                         address: uint16, current: uint32) returns (ok: bool, value: uint32)
      requires Tracked(t, k) && k < |t.plan| && t.plan[k] == ReadHolding(address, 2)
      modifies this`sent, this`consecutiveErrors, this`connectionStatus
      ensures Tracked(t, k + 1)
      ensures ok == ReadOk(ReplyAt(replies, |t.sent0| + k), 2)
      ensures value == Raw32(ReplyAt(replies, |t.sent0| + k), current)
    {
      var reply := Transact(ReadHolding(address, 2));
      if ReadOk(reply, 2) {
        value := Word32(reply.words[0], reply.words[1]);
        ResetErrorCounter();
        ok := true;
      } else {
        value := current;
        HandleError();
        ok := false;
      }
      StepConsistent(old(State()), ok);
    }

    /** `read16BitValue`: on success the word read, else `current`. */
    method Read16BitValue(ghost t: Stretch, ghost k: nat,
                         address: uint16, current: uint16) returns (ok: bool, value: uint16)
      requires Tracked(t, k) && k < |t.plan| && t.plan[k] == ReadHolding(address, 1)
      modifies this`sent, this`consecutiveErrors, this`connectionStatus
      ensures Tracked(t, k + 1)
      ensures ok == ReadOk(ReplyAt(replies, |t.sent0| + k), 1)
      ensures value == Raw16(ReplyAt(replies, |t.sent0| + k), current)
    {
      var reply := Transact(ReadHolding(address, 1));
      if ReadOk(reply, 1) {
        value := reply.words[0];
        ResetErrorCounter();
        ok := true;
      } else {
        value := current;
        HandleError();
        ok := false;
      }
      StepConsistent(old(State()), ok);
    }

    /**
     * `if (read16BitValue(address, word)) field = static_cast<…>(word);`: the word is
     * read into an uninitialised local and copied into the field only on success, so
     * the field's new value is the word read, or `field` when the read fails.
     */
    method Read16BitInto(ghost t: Stretch, ghost k: nat,
                         address: uint16, field: uint16) returns (ok: bool, value: uint16)
      requires Tracked(t, k) && k < |t.plan| && t.plan[k] == ReadHolding(address, 1)
      modifies this`sent, this`consecutiveErrors, this`connectionStatus
      ensures Tracked(t, k + 1)
      ensures ok == ReadOk(ReplyAt(replies, |t.sent0| + k), 1)
      ensures value == Raw16(ReplyAt(replies, |t.sent0| + k), field)
    {
      var word: uint16;
      ok, word := Read16BitValue(t, k, address, 0);
      if ok {
        value := word;
      } else {
        value := field;
      }
    }

    /** `readFloat32`:the 32-bit value divided by `coefficient`, else `current`. */
    method ReadFloat32(ghost t: Stretch, ghost k: nat,
                         address: uint16, current: real, coefficient: Scale) returns (ok: bool, value: real)
      requires Tracked(t, k) && k < |t.plan| && t.plan[k] == ReadHolding(address, 2)
      modifies this`sent, this`consecutiveErrors, this`connectionStatus
      ensures Tracked(t, k + 1)
      ensures ok == ReadOk(ReplyAt(replies, |t.sent0| + k), 2)
      ensures value == Float32(ReplyAt(replies, |t.sent0| + k), coefficient, current)
    {
      var rawValue: uint32;
      ok, rawValue := Read32BitValue(t, k, address, 0);
      if ok {
        value := rawValue as real / coefficient as real;
      } else {
        value := current;
      }
    }

    /** `readFloat16`: the 16-bit value divided by `coefficient`, else `current`. */
    method ReadFloat16(ghost t: Stretch, ghost k: nat,
                         address: uint16, current: real, coefficient: Scale) returns (ok: bool, value: real)
      requires Tracked(t, k) && k < |t.plan| && t.plan[k] == ReadHolding(address, 1)
      modifies this`sent, this`consecutiveErrors, this`connectionStatus
      ensures Tracked(t, k + 1)
      ensures ok == ReadOk(ReplyAt(replies, |t.sent0| + k), 1)
      ensures value == Float16(ReplyAt(replies, |t.sent0| + k), coefficient, current)
    {
      var rawValue: uint16;
      ok, rawValue := Read16BitValue(t, k, address, 0);
      if ok {
        value := rawValue as real / coefficient as real;
      } else {
        value := current;
      }
    }

    /**
     * `readMultipleRegisters`: on success the first `quantity` cells of `buffer` receive
     * the words read and the rest are untouched; on failure nothing in it changes.
     */
    method ReadMultipleRegisters(address: uint16, quantity: uint16, buffer: array<uint16>) returns (ok: bool)
      requires Valid() && quantity <= buffer.Length
      modifies this`sent, this`consecutiveErrors, this`connectionStatus, buffer
      ensures Valid()
      ensures sent == old(sent) + [ReadHolding(address, quantity)]
      ensures ok == ReadOk(ReplyAt(replies, |old(sent)|), quantity)
      ensures ok ==> buffer[..quantity] == ReplyAt(replies, |old(sent)|).words
      ensures ok ==> buffer[quantity..] == old(buffer[quantity..])
      ensures !ok ==> buffer[..] == old(buffer[..])
      ensures State() == Step(old(State()), ok)
    {
      var reply := Transact(ReadHolding(address, quantity));
      if ReadOk(reply, quantity) {
        var i := 0;
        while i < quantity
          modifies buffer
          invariant 0 <= i <= quantity
          invariant forall k :: 0 <= k < i ==> buffer[k] == reply.words[k]
          invariant forall k :: i <= k < buffer.Length ==> buffer[k] == old(buffer[k])
        {
          buffer[i] := reply.words[i];
          i := i + 1;
        }
        ResetErrorCounter();
        ok := true;
      } else {
        HandleError();
        ok := false;
      }
      StepConsistent(old(State()), ok);
    }

    /** `writeSingleRegister` followed by the tracker transition, as every command does. */
    method WriteRegister(address: uint16, value: uint16) returns (ok: bool)
      requires Valid()
      modifies this`sent, this`consecutiveErrors, this`connectionStatus
      ensures Valid()
      ensures sent == old(sent) + [WriteSingle(address, value)]
      ensures ok == ReplyAt(replies, |old(sent)|).Response?
      ensures State() == Step(old(State()), ok)
    {
      var reply := Transact(WriteSingle(address, value));
      if reply.Response? {
        ResetErrorCounter();
        ok := true;
      } else {
        HandleError();
        ok := false;
      }
      StepConsistent(old(State()), ok);
    }

    /** A stretch of one request, once tracked, added that request and its outcome. */
    lemma SingleStretch(t: Stretch)
      requires |t.plan| == 1 && Tracked(t, 1)
      ensures sent == t.sent0 + t.plan && State() == Step(t.state0, Succeeds(t.plan[0], ReplyAt(replies, |t.sent0|)))
    {
      assert Issued(t.sent0, t.plan, 0) == t.sent0;
      assert Run(t.state0, replies, |t.sent0|, t.plan, 0) == t.state0;
    }

    /**
     * `isConnected`: read the identity register and accept only a known family code.
     * Any successful read still resets the counter and sets the flag.
     */
    method IsConnected() returns (r: bool)
      requires Valid()
      modifies this`sent, this`consecutiveErrors, this`connectionStatus
      ensures Valid()
      ensures sent == old(sent) + [ReadHolding(IDENTITY_REGISTER, 1)]
      ensures r == IdentityMatches(ReplyAt(replies, |old(sent)|))
      ensures State() == Step(old(State()), ReadOk(ReplyAt(replies, |old(sent)|), 1))
    {
      var testValue: uint16;
      var result;
      ghost var t := Stretch(sent, State(), [ReadHolding(IDENTITY_REGISTER, 1)]);
      StartTracking(t.plan);
      result, testValue := Read16BitValue(t, 0, IDENTITY_REGISTER, 0);
      SingleStretch(t);
      r := result && (testValue == 0xD300 || testValue == 0xD500 || testValue == 0xD700);
    }

    /**
     * Scan stretch `t`, over `n` registers from `first`, has issued its first `k` reads;
     * none of them hit except the last, which hit exactly when `active`.
     */
    ghost predicate Scanned(t: Stretch, first: uint16, n: nat, k: nat, active: bool)
      reads this
    {
      first + n <= 0x1_0000 && t.plan == ScanRequests(first, n) && Tracked(t, k) &&
      ScanSoFar(replies, |t.sent0|, k, active)
    }

    /**
     * One turn of an alarm-range loop: read register `first + k`, the scan's next, and
     * say whether it hit. `current` is the word the loop carries from the read before.
     */
    method ScanNext(ghost t: Stretch, first: uint16, ghost n: nat, k: nat, current: uint16)
      returns (hit: bool, value: uint16)
      requires k < n && Scanned(t, first, n, k, false)
      modifies this`sent, this`consecutiveErrors, this`connectionStatus
      ensures Scanned(t, first, n, k + 1, hit)
      ensures hit == HitAt(replies, |t.sent0| + k)
    {
      ScanAdvance(replies, |t.sent0|, k);
      ScanRequestAt(first, n, k);
      var ok;
      ok, value := Read16BitValue(t, k, first + k, current);
      hit := ok && value != 0;
    }

    /** Where a scan loop ends: its verdict, and the stretch it issued. */
    lemma ScanConclude(t: Stretch, first: uint16, n: nat, k: nat, active: bool)
      requires k <= n && Scanned(t, first, n, k, active) && (!active ==> k == n)
      ensures active == ScanActive(replies, |t.sent0|, n)
      ensures Advanced(t.sent0, t.state0, ScanRequests(first, ScanLength(replies, |t.sent0|, n)))
    {
      ScanFinish(replies, |t.sent0|, n, k, active);
      Settle(t, k);
      ScanRequestsPrefix(first, n, k);
    }

    /**
     * One alarm-range loop of `updateAlarmDurumlari`: read `first`..`last` in turn and
     * stop at the first successful non-zero read.
     */
    method ScanAlarmRange(first: uint16, last: uint16) returns (active: bool)
      requires Valid() && first <= last < 0xFFFF
      modifies this`sent, this`consecutiveErrors, this`connectionStatus
      ensures Valid()
      ensures active == ScanActive(replies, |old(sent)|, last - first + 1)
      ensures Advanced(old(sent), old(State()),
                       ScanRequests(first, ScanLength(replies, |old(sent)|, last - first + 1)))
    {
      ghost var t := Stretch(sent, State(), ScanRequests(first, last - first + 1));
      StartTracking(t.plan);
      active := false;
      var addr: int := first;
      var tempValue: uint16 := 0;
      // The early exit on the first hit is the loop guard `!active`.
      while addr <= last && !active
        invariant first <= addr <= last + 1
        invariant Scanned(t, first, last - first + 1, addr - first, active)
      {
        active, tempValue := ScanNext(t, first, last - first + 1, addr - first, tempValue);
        addr := addr + 1;
      }
      ScanConclude(t, first, last - first + 1, addr - first, active);
    }
  }
}
