/**
 * The alarm scan of one address range: registers are read one by one from the first
 * address; the first successful non-zero read ends the scan with the alarm active,
 * and a failed read counts as "not alarming" without ending it.
 */
module AlarmScan {
  import opened Words
  import opened Bus

  /** A read that succeeded and returned a non-zero alarm word. */
  predicate Hit(reply: Reply) {
    ReadOk(reply, 1) && reply.words[0] != 0
  }

  /** The reply to request number `i` is a hit. */
  predicate HitAt(replies: seq<Reply>, i: nat) {
    Hit(ReplyAt(replies, i))
  }

  /**
   * Whether a scan whose replies run from index `c` up to, not including, `stop`
   * ends active. The window is given by its end, not its length, so that a scan
   * of a fixed number of registers is not unfolded register by register.
   */
  predicate ActiveBetween(replies: seq<Reply>, c: nat, stop: nat)
    decreases stop - c
  {
    c < stop && (HitAt(replies, c) || ActiveBetween(replies, c + 1, stop))
  }

  /** How many reads such a scan issues. */
  function LengthBetween(replies: seq<Reply>, c: nat, stop: nat): (len: nat)
    ensures c + len <= stop || (c >= stop && len == 0)
    decreases stop - c
  {
    if c >= stop then 0 else if HitAt(replies, c) then 1 else 1 + LengthBetween(replies, c + 1, stop)
  }

  /** Whether a scan of `n` registers whose replies start at index `c` ends active. */
  predicate ScanActive(replies: seq<Reply>, c: nat, n: nat) {
    ActiveBetween(replies, c, c + n)
  }

  /** How many reads such a scan issues. */
  function ScanLength(replies: seq<Reply>, c: nat, n: nat): (len: nat)
    ensures len <= n
  {
    LengthBetween(replies, c, c + n)
  }

  /** The flag is set iff some register of the range answered with a non-zero word. */
  lemma {:induction false} ScanActiveIff(replies: seq<Reply>, c: nat, n: nat)
    ensures ScanActive(replies, c, n) <==> exists i :: c <= i < c + n && HitAt(replies, i)
    decreases n
  {
    if n > 0 {
      ScanActiveIff(replies, c + 1, n - 1);
    }
  }

  /**
   * An inactive scan reads every register; an active one stops right after the
   * first hit, with no hit before it.
   */
  lemma {:induction false} ScanLengthSpec(replies: seq<Reply>, c: nat, n: nat)
    ensures !ScanActive(replies, c, n) ==> ScanLength(replies, c, n) == n
    ensures ScanActive(replies, c, n) ==>
              var len := ScanLength(replies, c, n);
              len >= 1 && HitAt(replies, c + len - 1) &&
              forall i :: c <= i < c + len - 1 ==> !HitAt(replies, i)
    decreases n
  {
    if n > 0 && !HitAt(replies, c) {
      ScanLengthSpec(replies, c + 1, n - 1);
    }
  }

  /** After `k` reads without a hit, the rest of the scan is the scan of the rest. */
  lemma {:induction false} ScanResume(replies: seq<Reply>, c: nat, n: nat, k: nat)
    requires k <= n
    requires forall i :: c <= i < c + k ==> !HitAt(replies, i)
    ensures ScanActive(replies, c, n) == ScanActive(replies, c + k, n - k)
    ensures ScanLength(replies, c, n) == k + ScanLength(replies, c + k, n - k)
    decreases k
  {
    if k > 0 {
      assert !HitAt(replies, c);
      ScanResume(replies, c + 1, n - 1, k - 1);
    }
  }

  /**
   * A scan that issued `k` reads with no hit among the first `k - 1` of them ends
   * active exactly when the last one hit, or it is inactive after all `n`.
   */
  lemma ScanFinish(replies: seq<Reply>, c: nat, n: nat, k: nat, active: bool)
    requires k <= n
    requires active ==> k >= 1 && HitAt(replies, c + k - 1)
    requires !active ==> k == n
    requires forall i :: c <= i < c + k - (if active then 1 else 0) ==> !HitAt(replies, i)
    ensures active == ScanActive(replies, c, n)
    ensures ScanLength(replies, c, n) == k
  {
    var m := k - (if active then 1 else 0);
    ScanResume(replies, c, n, m);
  }

  /** The reads of a scan that began at `first` and issued `len` of them. */
  function ScanRequests(first: uint16, len: nat): (r: seq<Request>)
    requires first + len <= 0x1_0000
    ensures |r| == len
    decreases len
  {
    if len == 0 then [] else ScanRequests(first, len - 1) + [ReadHolding(first + len - 1, 1)]
  }

  /** The `j`-th read of a scan is of the `j`-th register from `first`. */
  lemma {:induction false} ScanRequestAt(first: uint16, len: nat, j: nat)
    requires first + len <= 0x1_0000 && j < len
    ensures ScanRequests(first, len)[j] == ReadHolding(first + j, 1)
    decreases len
  {
    if j < len - 1 {
      ScanRequestAt(first, len - 1, j);
    }
  }

  /** The first `k` reads of a scan are the reads of a scan that issued `k`. */
  lemma {:induction false} ScanRequestsPrefix(first: uint16, len: nat, k: nat)
    requires first + len <= 0x1_0000 && k <= len
    ensures ScanRequests(first, len)[..k] == ScanRequests(first, k)
    decreases len
  {
    if k < len {
      ScanRequestsPrefix(first, len - 1, k);
      assert ScanRequests(first, len)[..k] == ScanRequests(first, len - 1)[..k];
    } else {
      assert ScanRequests(first, len)[..k] == ScanRequests(first, len);
    }
  }

  /**
   * Where a scan stands after `k` reads from reply `c` on: none of them hit except
   * the last, which hit exactly when `active`.
   */
  predicate ScanSoFar(replies: seq<Reply>, c: nat, k: nat, active: bool) {
    (active ==> k >= 1 && HitAt(replies, c + k - 1)) &&
    forall i :: c <= i < c + k - (if active then 1 else 0) ==> !HitAt(replies, i)
  }

  /** One more read after no hit so far. */
  lemma ScanAdvance(replies: seq<Reply>, c: nat, k: nat)
    requires ScanSoFar(replies, c, k, false)
    ensures ScanSoFar(replies, c, k + 1, HitAt(replies, c + k))
  {
  }
}
