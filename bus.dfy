/**
 * What the engine asks of the Modbus master and what comes back. The master library
 * itself (framing, CRC, timeouts) is outside the model: a request either gets a
 * response carrying words or gets none.
 */
module Bus {
  import opened Words

  datatype Request =
    | ReadHolding(address: uint16, count: uint16)   // readHoldingRegisters(address, count)
    | WriteSingle(address: uint16, value: uint16)   // writeSingleRegister(address, value)

  datatype Reply = NoResponse | Response(words: seq<uint16>)

  /** A read succeeds when exactly the requested number of words comes back. */
  predicate ReadOk(reply: Reply, count: nat) {
    reply.Response? && |reply.words| == count
  }

  /** `result == node.ku8MBSuccess` for a request and the answer it received. */
  predicate Succeeds(req: Request, reply: Reply) {
    match req
    case ReadHolding(_, n) => ReadOk(reply, n)
    case WriteSingle(_, _) => reply.Response?
  }

  /** The reply to request number `i`: past the end of the script the device is silent. */
  function ReplyAt(rs: seq<Reply>, i: nat): Reply {
    if i < |rs| then rs[i] else NoResponse
  }

  /** Appending two transcripts in turn is appending them joined. */
  lemma AppendAssoc<T>(a: seq<T>, b: seq<T>, c: seq<T>)
    ensures a + b + c == a + (b + c)
  {
  }

  /** The success or failure of each of `reqs`, issued from request number `from` on. */
  function Outcomes(replies: seq<Reply>, reqs: seq<Request>, from: nat): (r: seq<bool>)
    ensures |r| == |reqs|
    decreases |reqs|
  {
    if reqs == [] then []
    else Outcomes(replies, reqs[..|reqs| - 1], from) + [Succeeds(reqs[|reqs| - 1], ReplyAt(replies, from + |reqs| - 1))]
  }

  /** The outcome of the `k`-th request is the fate of the `k`-th request and its reply. */
  lemma {:induction false} OutcomeAt(replies: seq<Reply>, reqs: seq<Request>, from: nat, k: nat)
    requires k < |reqs|
    ensures Outcomes(replies, reqs, from)[k] == Succeeds(reqs[k], ReplyAt(replies, from + k))
    decreases |reqs|
  {
    if k < |reqs| - 1 {
      OutcomeAt(replies, reqs[..|reqs| - 1], from, k);
    }
  }

  /** One more request adds its outcome at the end. */
  lemma OutcomesSnoc(replies: seq<Reply>, reqs: seq<Request>, q: Request, from: nat)
    ensures Outcomes(replies, reqs + [q], from) ==
            Outcomes(replies, reqs, from) + [Succeeds(q, ReplyAt(replies, from + |reqs|))]
  {
    assert (reqs + [q])[..|reqs|] == reqs;
  }

  /** The outcomes of two stretches in a row are the outcomes of each, in turn. */
  lemma {:induction false} OutcomesConcat(replies: seq<Reply>, a: seq<Request>, b: seq<Request>, from: nat)
    ensures Outcomes(replies, a + b, from) == Outcomes(replies, a, from) + Outcomes(replies, b, from + |a|)
    decreases |b|
  {
    if b == [] {
      assert a + b == a;
    } else {
      var b' := b[..|b| - 1];
      assert a + b == (a + b') + [b[|b| - 1]];
      OutcomesSnoc(replies, a + b', b[|b| - 1], from);
      OutcomesConcat(replies, a, b', from);
    }
  }

  /** The transcript `s0` followed by the first `k` requests of `plan`, added one at a time. */
  function Issued(s0: seq<Request>, plan: seq<Request>, k: nat): (r: seq<Request>)
    requires k <= |plan|
    ensures |r| == |s0| + k
    decreases k
  {
    if k == 0 then s0 else Issued(s0, plan, k - 1) + [plan[k - 1]]
  }

  /** Issuing a plan request by request issues its prefix. */
  lemma {:induction false} IssuedPrefix(s0: seq<Request>, plan: seq<Request>, k: nat)
    requires k <= |plan|
    ensures Issued(s0, plan, k) == s0 + plan[..k]
    decreases k
  {
    if k > 0 {
      IssuedPrefix(s0, plan, k - 1);
      assert plan[..k] == plan[..k - 1] + [plan[k - 1]];
    }
  }
}
