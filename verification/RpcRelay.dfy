/** What the RPC relay lets through (src/lib/rpc-relay.ts, lines 31-148): the size of a
    transaction to simulate, and the shape of a body. */
module RpcRelay {
  import opened Wrappers
  import Base64
  import Words

  const MAX_SIM_TX_B64: nat := 1644
  const MAX_TX_BYTES: nat := 1232
  const RPC_MAX_BATCH: nat := 10

  const RPC_METHODS: set<string> := {
    "getGenesisHash", "getLatestBlockhash", "sendTransaction", "getSignatureStatuses", "getBlockHeight",
    "getAccountInfo", "getTokenAccountsByOwner", "simulateTransaction"}

  const RPC_WRITE_METHODS: set<string> := {
    "sendTransaction", "sendRawTransaction", "simulateTransaction", "requestAirdrop"}

  /** Lines 58 to 61: length, digits, and the size computed from length and padding. */
  predicate AcceptsTx(tx: string) {
    && 100 <= |tx| <= MAX_SIM_TX_B64
    && Base64.IsShape(tx)
    && (|tx| as real / 4.0) * 3.0 - Base64.Padding(tx) as real <= MAX_TX_BYTES as real
    && |tx| % 4 == 0
  }

  /** The length formula is the decoded size, so a string is accepted exactly when it is padded
      base 64 of 73 to 1232 bytes. */
  lemma AcceptsIff(tx: string)
    ensures |tx| % 4 == 0 ==> 3 * |tx| / 4 - Base64.Padding(tx) == |Base64.Decode(tx)|
    ensures AcceptsTx(tx) <==> Base64.IsShape(tx) && |tx| % 4 == 0 && 73 <= |Base64.Decode(tx)| <= MAX_TX_BYTES
  {
    hide Base64.Bytes, Base64.IsShape, Base64.Padding;
    if |tx| % 4 == 0 {
      Base64.BytesLength(tx);
      var groups := |tx| / 4;
      assert |tx| == 4 * groups && |tx| as real / 4.0 == groups as real;
      assert Base64.Padding(tx) <= 2 by { PaddingAtMostTwo(tx); }
      assert |Base64.Decode(tx)| == 3 * groups - Base64.Padding(tx);
    }
  }

  lemma PaddingAtMostTwo(tx: string)
    ensures Base64.Padding(tx) <= 2
  {
  }

  /** The encoding of a byte sequence is accepted exactly when it has 73 to 1232 bytes. */
  lemma AcceptsEncodingIff(bytes: seq<Words.Byte>)
    ensures AcceptsTx(Base64.Encode(bytes)) <==> 73 <= |bytes| <= MAX_TX_BYTES
  {
    AcceptsIff(Base64.Encode(bytes));
    Base64.RoundTrip(bytes);
    if bytes != [] {
      Base64.EncodedShape(bytes);
    }
    hide Base64.Encode, Base64.Decode, Base64.IsShape, AcceptsTx;
  }

  /** Parameters of a call: a pair of a transaction (missing if it is not a string) and whether
      its configuration is accepted, or something else. */
  datatype Params = Pair(tx: Option<string>, configOk: bool) | Unpaired

  predicate SimulationOk(p: Params) {
    p.Pair? && p.tx.Some? && AcceptsTx(p.tx.value) && p.configOk
  }

  /** One element of a body; `valid` is the shape test of lines 116 to 122. */
  datatype Call = Call(valid: bool, name: string, params: Params)

  datatype Problem = InvalidRequest | ReadOnly | NotAllowed | BadSimulation

  datatype Parsed = Accepted | EmptyBatch | BatchTooLarge | Rejected(problem: Problem, index: nat)

  predicate Acceptable(c: Call, readOnly: bool) {
    && c.valid
    && c.name in RPC_METHODS
    && (readOnly ==> c.name !in RPC_WRITE_METHODS)
    && (c.name == "simulateTransaction" ==> SimulationOk(c.params))
  }

  /** A body passes exactly when it has 1 to 10 calls and each is acceptable; otherwise the
      first call that is not decides the error, unless there are none or too many. */
  method ParseRpcBody(calls: seq<Call>, readOnly: bool) returns (r: Parsed)
    ensures r.Accepted? <==>
              1 <= |calls| <= RPC_MAX_BATCH && forall i :: 0 <= i < |calls| ==> Acceptable(calls[i], readOnly)
    ensures r.EmptyBatch? <==> |calls| == 0
    ensures r.BatchTooLarge? <==> |calls| > RPC_MAX_BATCH
    ensures r.Rejected? ==>
              && r.index < |calls| && !Acceptable(calls[r.index], readOnly)
              && (forall i :: 0 <= i < r.index ==> Acceptable(calls[i], readOnly))
              && (r.problem.InvalidRequest? <==> !calls[r.index].valid)
              && (r.problem.ReadOnly? <==> calls[r.index].valid && readOnly && calls[r.index].name in RPC_WRITE_METHODS)
              && (r.problem.NotAllowed? <==>
                    calls[r.index].valid && !(readOnly && calls[r.index].name in RPC_WRITE_METHODS)
                    && calls[r.index].name !in RPC_METHODS)
  {
    if |calls| == 0 {
      return EmptyBatch;
    }
    if |calls| > RPC_MAX_BATCH {
      return BatchTooLarge;
    }
    for i := 0 to |calls|
      invariant forall j :: 0 <= j < i ==> Acceptable(calls[j], readOnly)
    {
      var c := calls[i];
      if !c.valid {
        return Rejected(InvalidRequest, i);
      }
      if readOnly && c.name in RPC_WRITE_METHODS {
        return Rejected(ReadOnly, i);
      }
      if c.name !in RPC_METHODS {
        return Rejected(NotAllowed, i);
      }
      if c.name == "simulateTransaction" && !SimulationOk(c.params) {
        return Rejected(BadSimulation, i);
      }
    }
    return Accepted;
  }
}
