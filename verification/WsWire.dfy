/** internal/web/ws_wire.go: the bytes of one frame and the loop that writes them. */
module WsWire {
  import opened Decimal

  const MAX_UINT64 := 0xffff_ffff_ffff_ffff
  const SUFFIX_ALLOWANCE := 32

  type Bytes = string

  datatype Wire = Wire(prefix: Bytes, payload: Bytes)

  function Suffix(seqNo: nat): Bytes { ",\"seq\":" + Render(seqNo) + "}" }

  /** The whole frame as it appears on the connection. */
  function FrameBytes(w: Wire, seqNo: nat): Bytes { w.prefix + w.payload + Suffix(seqNo) }

  /** env.size, the charge made by prepare before the sequence is known. */
  function Charge(w: Wire): nat { |w.prefix| + |w.payload| + SUFFIX_ALLOWANCE }

  lemma Uint64Digits(seqNo: nat)
    requires seqNo <= MAX_UINT64
    ensures |Render(seqNo)| <= 20
  {
    assert Pow10(5) == 100_000;
    assert Pow10(10) == 10_000_000_000;
    assert Pow10(15) == 1_000_000_000_000_000;
    assert Pow10(20) == 100_000_000_000_000_000_000;
    RenderLength(seqNo, 20);
  }

  /** The charge covers the frame for every sequence number a uint64 can hold, with four bytes to spare. */
  lemma ChargeCoversFrame(w: Wire, seqNo: nat)
    requires seqNo <= MAX_UINT64
    ensures |FrameBytes(w, seqNo)| + 4 <= Charge(w)
  {
    Uint64Digits(seqNo);
  }

  /** The answer of one Write call: how many bytes it took, and whether it reported an error. */
  datatype Answer = Answer(took: nat, failed: bool)

  datatype Outcome = Written | Failed | ShortWrite

  function Part(w: Wire, seqNo: nat, i: nat): Bytes
    requires i < 3
  {
    if i == 0 then w.prefix else if i == 1 then w.payload else Suffix(seqNo)
  }

  function UpTo(w: Wire, seqNo: nat, i: nat): Bytes
    requires i <= 3
  {
    if i == 0 then "" else UpTo(w, seqNo, i - 1) + Part(w, seqNo, i - 1)
  }

  predicate Full(w: Wire, seqNo: nat, answers: seq<Answer>, i: nat)
    requires i < 3 && |answers| == 3
  {
    answers[i].took == |Part(w, seqNo, i)| && !answers[i].failed
  }

  /**
   writeTo against a writer that takes what answers says: the bytes emitted are always a prefix of the
   frame, the count is theirs, and success means the whole frame went out.
   */
  method WriteTo(w: Wire, seqNo: nat, answers: seq<Answer>) returns (emitted: Bytes, total: nat, outcome: Outcome)
    requires |answers| == 3 && forall i :: 0 <= i < 3 ==> answers[i].took <= |Part(w, seqNo, i)|
    ensures total == |emitted| <= |FrameBytes(w, seqNo)| && emitted == FrameBytes(w, seqNo)[..total]
    ensures outcome == Written <==> forall i :: 0 <= i < 3 ==> Full(w, seqNo, answers, i)
    ensures outcome == Written ==> emitted == FrameBytes(w, seqNo)
    ensures seqNo <= MAX_UINT64 ==> total <= Charge(w)
  {
    if seqNo <= MAX_UINT64 { ChargeCoversFrame(w, seqNo); }
    PartsNest(w, seqNo, 2);
    emitted, total := "", 0;
    for i := 0 to 3
      invariant emitted == UpTo(w, seqNo, i) && total == |emitted|
      invariant UpTo(w, seqNo, i) <= FrameBytes(w, seqNo)
      invariant forall j :: 0 <= j < i ==> Full(w, seqNo, answers, j)
    {
      var part, n := Part(w, seqNo, i), answers[i].took;
      PartsNest(w, seqNo, i);
      emitted := emitted + part[..n];
      total := total + n;
      assert emitted <= UpTo(w, seqNo, i + 1);
      assert Full(w, seqNo, answers, i) <==> n == |part| && !answers[i].failed;
      if answers[i].failed { return emitted, total, Failed; }
      if n != |part| { return emitted, total, ShortWrite; }
      assert part[..n] == part;
    }
    outcome := Written;
  }

  lemma PartsNest(w: Wire, seqNo: nat, i: nat)
    requires i < 3
    ensures UpTo(w, seqNo, i + 1) <= FrameBytes(w, seqNo)
    ensures UpTo(w, seqNo, 3) == FrameBytes(w, seqNo)
  {
    hide Suffix;
    assert UpTo(w, seqNo, 1) == w.prefix;
    assert UpTo(w, seqNo, 2) == UpTo(w, seqNo, 1) + w.payload;
    assert UpTo(w, seqNo, 3) == UpTo(w, seqNo, 2) + Suffix(seqNo);
  }

  /** Two frames of the same message differ exactly when their sequence numbers do. */
  lemma FrameTellsSequence(w: Wire, m: nat, n: nat)
    requires FrameBytes(w, m) == FrameBytes(w, n)
    ensures m == n
  {
    var head := |w.prefix| + |w.payload| + |",\"seq\":"|;
    assert FrameBytes(w, m)[head..|FrameBytes(w, m)| - 1] == Render(m);
    assert FrameBytes(w, n)[head..|FrameBytes(w, n)| - 1] == Render(n);
    RenderInjective(m, n);
  }
}
