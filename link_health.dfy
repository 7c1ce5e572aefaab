/**
 * The link-health tracker: an 8-bit consecutive-error counter and a connected flag.
 * Every bus operation ends in exactly one of the two transitions below.
 */
module LinkHealth {
  import opened Words
  import opened D300Types

  datatype LinkState = LinkState(consecutiveErrors: uint8, connectionStatus: bool)

  /** The state a controller starts in: disconnected, no errors. */
  const INITIAL := LinkState(0, false)

  /** `resetErrorCounter`: the only transition that sets the flag. */
  function ResetErrorCounter(l: LinkState): LinkState {
    LinkState(0, true)
  }

  /** `handleError`: count the failure (wrapping at 256); clear the flag at 5 or more. */
  function HandleError(l: LinkState): (r: LinkState)
    ensures r.connectionStatus ==> l.connectionStatus
  {
    var e := Increment8(l.consecutiveErrors);
    LinkState(e, if e >= MAX_ERRORS then false else l.connectionStatus)
  }

  /** The transition an operation with outcome `ok` causes. */
  function Step(l: LinkState, ok: bool): LinkState {
    if ok then ResetErrorCounter(l) else HandleError(l)
  }

  /** The tracker run over a sequence of outcomes, oldest first. */
  function Replay(l: LinkState, oks: seq<bool>): LinkState
    decreases |oks|
  {
    if oks == [] then l else Step(Replay(l, oks[..|oks| - 1]), oks[|oks| - 1])
  }

  /** While the flag is set the counter is below the threshold. */
  predicate Consistent(l: LinkState) {
    l.connectionStatus ==> l.consecutiveErrors < MAX_ERRORS
  }

  lemma StepConsistent(l: LinkState, ok: bool)
    requires Consistent(l)
    ensures Consistent(Step(l, ok))
  {
  }

  lemma {:induction false} ReplayConsistent(l: LinkState, oks: seq<bool>)
    requires Consistent(l)
    ensures Consistent(Replay(l, oks))
    decreases |oks|
  {
    if oks != [] {
      ReplayConsistent(l, oks[..|oks| - 1]);
      StepConsistent(Replay(l, oks[..|oks| - 1]), oks[|oks| - 1]);
    }
  }

  /** Running the tracker over two sequences in turn is running it over their concatenation. */
  lemma {:induction false} ReplayConcat(l: LinkState, a: seq<bool>, b: seq<bool>)
    ensures Replay(l, a + b) == Replay(Replay(l, a), b)
    decreases |b|
  {
    if b == [] {
      assert a + b == a;
    } else {
      assert (a + b)[..|a + b| - 1] == a + b[..|b| - 1];
      ReplayConcat(l, a, b[..|b| - 1]);
    }
  }

  /** `k` failures in a row. */
  function Failures(k: nat): (r: seq<bool>)
    ensures |r| == k && forall i :: 0 <= i < k ==> !r[i]
  {
    seq(k, _ => false)
  }

  /**
   * From a consistent state, `k` failures leave the counter at `(e + k) mod 256` and
   * the flag set only if it was set and fewer than 5 errors have accumulated.
   */
  lemma {:induction false} FailuresFrom(l: LinkState, k: nat)
    requires Consistent(l)
    ensures Replay(l, Failures(k)) == LinkState((l.consecutiveErrors + k) % 0x100,
                                               l.connectionStatus && l.consecutiveErrors + k < MAX_ERRORS)
  {
    if k > 0 {
      assert Failures(k)[..k - 1] == Failures(k - 1);
      FailuresFrom(l, k - 1);
    }
  }

  /** Five consecutive failures always leave the link disconnected. */
  lemma FiveFailuresDisconnect(l: LinkState, k: nat)
    requires Consistent(l) && k >= MAX_ERRORS
    ensures !Replay(l, Failures(k)).connectionStatus
  {
    FailuresFrom(l, k);
  }

  /** A single success resets the counter and sets the flag, whatever came before. */
  lemma SuccessResets(l: LinkState, oks: seq<bool>)
    ensures Replay(l, oks + [true]) == LinkState(0, true)
  {
    assert (oks + [true])[..|oks|] == oks;
  }

  /**
   * The counter wraps after 256 failures but the flag stays clear: only a
   * success sets it again.
   */
  lemma CounterWrapKeepsDisconnected()
    ensures Replay(LinkState(0, true), Failures(256)) == LinkState(0, false)
    ensures Replay(LinkState(0, false), Failures(256) + [true]) == LinkState(0, true)
  {
    FailuresFrom(LinkState(0, true), 256);
    SuccessResets(LinkState(0, false), Failures(256));
  }

  /** The number of failures since the last success (or since the start). */
  function TrailingFailures(oks: seq<bool>): (t: nat)
    ensures t <= |oks|
    decreases |oks|
  {
    if oks == [] || oks[|oks| - 1] then 0 else 1 + TrailingFailures(oks[..|oks| - 1])
  }

  /**
   * After any history that contains a success, the state is determined by the
   * failures since the last one: counter = t mod 256, connected iff t < 5.
   */
  lemma {:induction false} ReplayAfterSuccess(l: LinkState, oks: seq<bool>)
    requires true in oks
    ensures var t := TrailingFailures(oks);
            Replay(l, oks) == LinkState(t % 0x100, t < MAX_ERRORS)
    decreases |oks|
  {
    var n := |oks|;
    if !oks[n - 1] {
      var init := oks[..n - 1];
      assert oks == init + [false];
      assert true in init by {
        var i :| 0 <= i < n && oks[i];
        assert i < n - 1;
        assert init[i];
      }
      ReplayAfterSuccess(l, init);
      var t0 := TrailingFailures(init);
      assert TrailingFailures(oks) == t0 + 1;
      assert Replay(l, oks) == HandleError(Replay(l, init));
      assert Increment8(t0 % 0x100) == (t0 + 1) % 0x100 by {
        if t0 % 0x100 == 0xFF {
          assert (t0 + 1) % 0x100 == 0;
        }
      }
    } else {
      assert TrailingFailures(oks) == 0;
    }
  }
}
