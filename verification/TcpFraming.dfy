/** Streams, their receive and send loops, and the length-prefixed frames built on them. */
module TcpFraming {
  import opened Prelude
  import opened BufferedIo

  const FRAME_HEADER_LEN: nat := 4
  const MAX_FRAME_SIZE: nat := 64 * 1024

  /** One end of a connection: what it still has to receive before the peer closes, and what it has sent. */
  class TcpStream {
    var incoming: seq<Byte>
    var outgoing: seq<Byte>
    var submissions: nat

    constructor (incoming: seq<Byte>)
      ensures this.incoming == incoming && outgoing == [] && submissions == 0
    {
      this.incoming, outgoing, submissions := incoming, [], 0;
    }

    /** `recv_offset`: one receive into the buffer behind its first `at` bytes. */
    method RecvOffset(buf: Buffer, at: nat, r: Reply) returns (result: IoResult<nat>)
      requires buf.Valid() && at <= buf.defined && at <= buf.mem.Length
      modifies this`incoming, this`submissions, buf, buf.mem
      ensures buf.Valid() && at <= buf.defined
      ensures buf.mem.Length - at > U32_MAX ==>
                result == Err(InvalidInput) && submissions == old(submissions) && buf.mem[..] == old(buf.mem[..])
      ensures buf.mem.Length - at <= U32_MAX ==> submissions == old(submissions) + 1
      ensures result.Ok? ==>
                && result.value <= buf.mem.Length - at && result.value <= |old(incoming)|
                && buf.mem[at..at + result.value] == old(incoming)[..result.value]
                && incoming == old(incoming)[result.value..]
                && (result.value == 0 <==> at == buf.mem.Length || old(incoming) == [])
                && buf.init == Max(old(buf.init), at + result.value) && at + result.value <= buf.defined
      ensures result.Err? ==>
                && buf.init == old(buf.init) && incoming == old(incoming)
                && result.kind == if buf.mem.Length - at > U32_MAX then InvalidInput else Failure(r, InvalidData)
      ensures buf.mem[..at] == old(buf.mem[..at])
      ensures result.Ok? <==> Honest(r) && buf.mem.Length - at <= U32_MAX
    {
      var remaining := buf.mem.Length - at;
      if remaining > U32_MAX {
        return Err(InvalidInput);
      }
      submissions := submissions + 1;
      CheckedReply(r, remaining, |incoming|);
      result := Checked(RawResult(r, remaining, |incoming|), remaining);
      if result.Ok? {
        buf.Fill(at, incoming[..result.value], r);
        incoming := incoming[result.value..];
        buf.SetInit(Max(buf.init, at + result.value));
      } else {
        buf.Fill(at, [], r);
      }
    }

    /**
      `recv_exact`: success means that the whole buffer holds the next bytes of the stream, failure
      that exactly the first `filled` bytes do; the stream has advanced by that much and no more.
     */
    method RecvExact(buf: Buffer, kernel: Kernel) returns (result: IoResult<()>, ghost filled: nat)
      requires buf.Valid()
      modifies this`incoming, this`submissions, buf, buf.mem
      ensures buf.Valid() && filled <= buf.mem.Length && filled <= |old(incoming)|
      ensures result.Ok? <==> filled == buf.mem.Length
      ensures buf.mem[..filled] == old(incoming)[..filled] && incoming == old(incoming)[filled..]
      ensures buf.init == Max(old(buf.init), filled)
      ensures buf.mem.Length > U32_MAX ==>
                result == Err(InvalidInput) && submissions == old(submissions) && buf.mem[..] == old(buf.mem[..])
      ensures old(submissions) <= submissions <= old(submissions) + filled + 1
      ensures buf.mem.Length <= U32_MAX && result.Err? ==>
                && submissions > old(submissions)
                && result.kind == Failure(kernel(submissions - old(submissions) - 1), UnexpectedEof)
      ensures result == Err(UnexpectedEof) ==> incoming == []
      ensures (|old(incoming)| < buf.mem.Length <= U32_MAX && forall i :: Honest(kernel(i))) ==> result == Err(UnexpectedEof)
      ensures (buf.mem.Length <= |old(incoming)| && buf.mem.Length <= U32_MAX && forall i :: Honest(kernel(i))) ==> result.Ok?
    {
      var total := buf.mem.Length;
      var done := 0;
      var i := 0;
      filled := 0;
      while done < total
        invariant filled == done <= total && done <= |old(incoming)| && buf.Valid() && done <= buf.defined
        invariant buf.mem[..done] == old(incoming)[..done] && incoming == old(incoming)[done..]
        invariant buf.init == Max(old(buf.init), done)
        invariant done == 0 ==> buf.mem[..] == old(buf.mem[..]) && submissions == old(submissions)
        invariant done > 0 ==> total <= U32_MAX
        invariant i <= done && submissions == old(submissions) + i
        decreases total - done
      {
        ghost var before := buf.mem[..done];
        var step := RecvOffset(buf, done, kernel(i));
        assert buf.mem[..done] == before;
        if step.Err? {
          return Err(step.kind), done;
        }
        if step.value == 0 {
          return Err(UnexpectedEof), done;
        }
        assert buf.mem[..done + step.value] == buf.mem[..done] + buf.mem[done..done + step.value];
        assert old(incoming)[..done + step.value] == old(incoming)[..done] + old(incoming)[done..][..step.value];
        i := i + 1;
        done := done + step.value;
        filled := done;
      }
      result := Ok(());
    }

    /** `send_offset`: one send of the initialized bytes behind the first `at`. */
    method SendOffset(buf: Buffer, at: nat, r: Reply) returns (result: IoResult<nat>)
      requires buf.Valid() && at <= buf.init
      modifies this`outgoing, this`submissions
      ensures buf.init - at > U32_MAX ==> result == Err(InvalidInput) && submissions == old(submissions)
      ensures buf.init - at <= U32_MAX ==> submissions == old(submissions) + 1
      ensures result.Ok? ==>
                && result.value <= buf.init - at
                && outgoing == old(outgoing) + buf.mem[..][at..at + result.value]
                && (result.value == 0 <==> at == buf.init)
      ensures result.Err? ==>
                && outgoing == old(outgoing)
                && result.kind == if buf.init - at > U32_MAX then InvalidInput else Failure(r, InvalidData)
      ensures result.Ok? <==> Honest(r) && buf.init - at <= U32_MAX
    {
      var remaining := buf.init - at;
      if remaining > U32_MAX {
        return Err(InvalidInput);
      }
      submissions := submissions + 1;
      CheckedReply(r, remaining, remaining);
      result := Checked(RawResult(r, remaining, remaining), remaining);
      if result.Ok? {
        outgoing := outgoing + buf.mem[..][at..at + result.value];
      }
    }

    /** `send_all`: what has been sent is a prefix of the initialized bytes, and all of them on success. */
    method SendAll(buf: Buffer, kernel: Kernel) returns (result: IoResult<()>, ghost sent: nat)
      requires buf.Valid()
      modifies this`outgoing, this`submissions
      ensures sent <= buf.init && (result.Ok? <==> sent == buf.init)
      ensures outgoing == old(outgoing) + buf.mem[..][..sent]
      ensures buf.init > U32_MAX ==> result == Err(InvalidInput) && submissions == old(submissions) && sent == 0
      ensures old(submissions) <= submissions <= old(submissions) + sent + 1
      ensures buf.init <= U32_MAX && result.Err? ==>
                && submissions > old(submissions)
                && result.kind == Failure(kernel(submissions - old(submissions) - 1), WriteZero)
      ensures (buf.init <= U32_MAX && forall i :: Honest(kernel(i))) ==> result.Ok?
    {
      var total := buf.init;
      var done := 0;
      var i := 0;
      sent := 0;
      assert buf.mem[..][..0] == [];
      while done < total
        invariant sent == done <= total
        invariant outgoing == old(outgoing) + buf.mem[..][..done]
        invariant done > 0 ==> total <= U32_MAX
        invariant i <= done && submissions == old(submissions) + i
        decreases total - done
      {
        var step := SendOffset(buf, done, kernel(i));
        if step.Err? {
          return Err(step.kind), done;
        }
        if step.value == 0 {
          return Err(WriteZero), done;
        }
        assert buf.mem[..][..done + step.value] == buf.mem[..][..done] + buf.mem[..][done..done + step.value];
        i := i + 1;
        done := done + step.value;
        sent := done;
      }
      result := Ok(());
    }
  }

  // ----- Frames -----------------------------------------------------------------------------------------------

  /** `u32::to_be_bytes`. */
  function BigEndian(n: nat): (h: seq<Byte>)
    requires n <= U32_MAX
    ensures |h| == FRAME_HEADER_LEN
  {
    [n / 0x100_0000, n / 0x1_0000 % 256, n / 256 % 256, n % 256]
  }

  /** `u32::from_be_bytes`. */
  function FromBigEndian(h: seq<Byte>): (n: nat)
    requires |h| == FRAME_HEADER_LEN
    ensures n <= U32_MAX
  {
    h[0] as nat * 0x100_0000 + h[1] as nat * 0x1_0000 + h[2] as nat * 256 + h[3]
  }

  function EncodeFrameLen(n: nat): IoResult<seq<Byte>> {
    if n > MAX_FRAME_SIZE then Err(InvalidInput) else Ok(BigEndian(n))
  }

  function DecodeFrameLen(h: seq<Byte>): IoResult<nat>
    requires |h| == FRAME_HEADER_LEN
  {
    var n := FromBigEndian(h);
    if n > MAX_FRAME_SIZE then Err(InvalidData) else Ok(n)
  }

  /** Digits by Horner's rule, one division at a time. */
  lemma BigEndianDigits(n: nat)
    requires n <= U32_MAX
    ensures n / 0x1_0000 == (n / 256) / 256 && n / 0x100_0000 == (n / 0x1_0000) / 256
    ensures n == (n / 256) * 256 + n % 256
    ensures n / 256 == (n / 0x1_0000) * 256 + n / 256 % 256
    ensures n / 0x1_0000 == (n / 0x100_0000) * 256 + n / 0x1_0000 % 256
  {
  }

  /** The header of every length in the limit decodes to that length, and no other length has one. */
  lemma LengthRoundTrip(n: nat)
    ensures EncodeFrameLen(n).Ok? <==> n <= MAX_FRAME_SIZE
    ensures n <= MAX_FRAME_SIZE ==> DecodeFrameLen(EncodeFrameLen(n).value) == Ok(n)
    ensures n <= U32_MAX ==> FromBigEndian(BigEndian(n)) == n
  {
    if n <= U32_MAX {
      BigEndianDigits(n);
    }
  }

  /** A header that decodes is the header of the length it decodes to. */
  lemma HeaderRoundTrip(h: seq<Byte>)
    requires |h| == FRAME_HEADER_LEN && DecodeFrameLen(h).Ok?
    ensures EncodeFrameLen(DecodeFrameLen(h).value) == Ok(h)
  {
    var n, a, b, c := FromBigEndian(h), h[0] as nat, h[1] as nat, h[2] as nat;
    BigEndianDigits(n);
    assert n / 256 == a * 0x1_0000 + b * 256 + c && n % 256 == h[3];
    assert n / 0x1_0000 == a * 256 + b && n / 256 % 256 == c;
    assert n / 0x100_0000 == a && n / 0x1_0000 % 256 == b;
    assert h == [h[0], h[1], h[2], h[3]];
  }

  /** A header is refused exactly if the length it holds is over the limit. */
  lemma DecodeExactly(h: seq<Byte>)
    requires |h| == FRAME_HEADER_LEN
    ensures DecodeFrameLen(h) == if FromBigEndian(h) > MAX_FRAME_SIZE then Err(InvalidData) else Ok(FromBigEndian(h))
  {
  }

  predicate Sendable(payload: seq<Byte>) {
    |payload| <= MAX_FRAME_SIZE
  }

  function Frame(payload: seq<Byte>): seq<Byte>
    requires Sendable(payload)
  {
    BigEndian(|payload|) + payload
  }

  predicate AllSendable(ps: seq<seq<Byte>>) {
    forall i | 0 <= i < |ps| :: Sendable(ps[i])
  }

  function Frames(ps: seq<seq<Byte>>): seq<Byte>
    requires AllSendable(ps)
  {
    if ps == [] then [] else Frame(ps[0]) + Frames(ps[1..])
  }

  lemma {:induction false} FramesPush(ps: seq<seq<Byte>>, p: seq<Byte>)
    requires AllSendable(ps) && Sendable(p)
    ensures AllSendable(ps + [p]) && Frames(ps + [p]) == Frames(ps) + Frame(p)
  {
    if ps == [] {
      assert ps + [p] == [p];
      assert Frames([p][1..]) == [];
    } else {
      assert (ps + [p])[1..] == ps[1..] + [p];
      FramesPush(ps[1..], p);
    }
  }

  /** Frames are self-delimiting: a byte stream starts with at most one of them. */
  lemma FrameUnique(p: seq<Byte>, x: seq<Byte>, q: seq<Byte>, y: seq<Byte>)
    requires Sendable(p) && Sendable(q) && Frame(p) + x == Frame(q) + y
    ensures p == q && x == y
  {
    var s := Frame(p) + x;
    assert s[..FRAME_HEADER_LEN] == BigEndian(|p|);
    assert s[..FRAME_HEADER_LEN] == BigEndian(|q|);
    LengthRoundTrip(|p|);
    LengthRoundTrip(|q|);
    assert s[FRAME_HEADER_LEN..][..|p|] == p;
    assert s[FRAME_HEADER_LEN..][..|q|] == q;
    assert s[FRAME_HEADER_LEN + |p|..] == x && s[FRAME_HEADER_LEN + |q|..] == y;
  }

  /** A byte stream starts with at most one list of a given number of frames. */
  lemma {:induction false} FramesUnique(ps: seq<seq<Byte>>, x: seq<Byte>, qs: seq<seq<Byte>>, y: seq<Byte>)
    requires AllSendable(ps) && AllSendable(qs) && |ps| == |qs| && Frames(ps) + x == Frames(qs) + y
    ensures ps == qs && x == y
  {
    if ps != [] {
      assert Frames(ps) + x == Frame(ps[0]) + (Frames(ps[1..]) + x);
      assert Frames(qs) + y == Frame(qs[0]) + (Frames(qs[1..]) + y);
      FrameUnique(ps[0], Frames(ps[1..]) + x, qs[0], Frames(qs[1..]) + y);
      FramesUnique(ps[1..], x, qs[1..], y);
      assert ps == [ps[0]] + ps[1..] && qs == [qs[0]] + qs[1..];
    } else {
      assert Frames(ps) + x == x && Frames(qs) + y == y;
    }
  }

  /** `send_frame`: the frame, or a proper prefix of it, or nothing at all if it is too long. */
  method SendFrame(s: TcpStream, payload: seq<Byte>, k0: Kernel, k1: Kernel) returns (result: IoResult<()>)
    modifies s`outgoing, s`submissions
    ensures !Sendable(payload) ==> result == Err(InvalidInput) && s.outgoing == old(s.outgoing) && s.submissions == old(s.submissions)
    ensures result.Ok? ==> Sendable(payload) && s.outgoing == old(s.outgoing) + Frame(payload)
    ensures result.Err? && Sendable(payload) ==>
              exists n :: 0 <= n < |Frame(payload)| && s.outgoing == old(s.outgoing) + Frame(payload)[..n]
    ensures (Sendable(payload) && forall i :: Honest(k0(i)) && Honest(k1(i))) ==> result.Ok?
    ensures result.Err? && Sendable(payload) ==>
              exists i :: result.kind == Failure(k0(i), WriteZero) || result.kind == Failure(k1(i), WriteZero)
  {
    var header := EncodeFrameLen(|payload|);
    if header.Err? {
      return Err(header.kind);
    }
    var h := new Buffer(header.value, |header.value|);
    ghost var sent;
    result, sent := s.SendAll(h, k0);
    assert h.mem[..][..sent] == Frame(payload)[..sent];
    if result.Err? {
      return;
    }
    var p := new Buffer(payload, |payload|);
    result, sent := s.SendAll(p, k1);
    assert Frame(payload)[..FRAME_HEADER_LEN + sent] == header.value + p.mem[..][..sent];
    assert sent == |payload| ==> Frame(payload)[..FRAME_HEADER_LEN + sent] == Frame(payload);
  }

  /** `recv_exact` into a vector of the given capacity. */
  method RecvVec(s: TcpStream, n: nat, k: Kernel) returns (result: IoResult<seq<Byte>>)
    modifies s`incoming, s`submissions
    ensures result.Ok? ==> |result.value| == n && old(s.incoming) == result.value + s.incoming
    ensures (n <= U32_MAX && n <= |old(s.incoming)| && forall i :: Honest(k(i))) ==> result.Ok?
    ensures (|old(s.incoming)| < n <= U32_MAX && forall i :: Honest(k(i))) ==> result == Err(UnexpectedEof)
    ensures n <= U32_MAX && result.Err? ==> exists i :: result.kind == Failure(k(i), UnexpectedEof)
  {
    var buf := new Buffer([], n);
    var got;
    ghost var filled;
    got, filled := s.RecvExact(buf, k);
    if got.Err? {
      return Err(got.kind);
    }
    assert buf.init == buf.mem.Length;
    result := Ok(buf.mem[..buf.init]);
  }

  /** What follows for the parts of a stream that starts with a frame. */
  lemma FrameParts(p: seq<Byte>, rest: seq<Byte>, all: seq<Byte>)
    requires Sendable(p) && all == Frame(p) + rest
    ensures |all| >= FRAME_HEADER_LEN + |p|
    ensures DecodeFrameLen(all[..FRAME_HEADER_LEN]) == Ok(|p|)
    ensures all[FRAME_HEADER_LEN..] == p + rest
  {
    LengthRoundTrip(|p|);
    assert all[..FRAME_HEADER_LEN] == BigEndian(|p|);
  }

  /** A header that decodes and as many bytes behind it are a frame. */
  lemma FrameBuilt(header: seq<Byte>, p: seq<Byte>, rest: seq<Byte>)
    requires |header| == FRAME_HEADER_LEN && DecodeFrameLen(header) == Ok(|p|)
    ensures Sendable(p) && header + (p + rest) == Frame(p) + rest
  {
    HeaderRoundTrip(header);
  }

  /**
    How a receive fails when the kernel does not: a stream that ends inside a header or a payload ends
    unexpectedly, and a header with a length over the limit is invalid and all that is taken off.
   */
  predicate FailsAsDue(before: seq<Byte>, result: IoResult<seq<Byte>>, after: seq<Byte>) {
    if |before| < FRAME_HEADER_LEN then result == Err(UnexpectedEof)
    else
      var n := FromBigEndian(before[..FRAME_HEADER_LEN]);
      && (n > MAX_FRAME_SIZE ==> result == Err(InvalidData) && after == before[FRAME_HEADER_LEN..])
      && (n <= MAX_FRAME_SIZE && |before| < FRAME_HEADER_LEN + n ==> result == Err(UnexpectedEof))
  }

  /** `recv_frame`: exactly one frame is taken off the stream, and a stream that starts with one gives it. */
  method RecvFrame(s: TcpStream, k0: Kernel, k1: Kernel) returns (result: IoResult<seq<Byte>>)
    modifies s`incoming, s`submissions
    ensures result.Ok? ==> Sendable(result.value) && old(s.incoming) == Frame(result.value) + s.incoming
    ensures forall p, rest | Sendable(p) && old(s.incoming) == Frame(p) + rest && (forall i :: Honest(k0(i)) && Honest(k1(i))) ::
              result == Ok(p) && s.incoming == rest
    ensures (forall i :: Honest(k0(i)) && Honest(k1(i))) ==> FailsAsDue(old(s.incoming), result, s.incoming)
  {
    hide Frame;
    hide DecodeFrameLen;
    ghost var all := s.incoming;
    forall p, rest | Sendable(p) && all == Frame(p) + rest
      ensures |all| >= FRAME_HEADER_LEN + |p|
      ensures DecodeFrameLen(all[..FRAME_HEADER_LEN]) == Ok(|p|) && all[FRAME_HEADER_LEN..] == p + rest
    {
      FrameParts(p, rest, all);
    }
    var header := RecvVec(s, FRAME_HEADER_LEN, k0);
    if header.Err? {
      return Err(header.kind);
    }
    assert header.value == all[..FRAME_HEADER_LEN] && s.incoming == all[FRAME_HEADER_LEN..];
    var length := DecodeFrameLen(header.value);
    DecodeExactly(header.value);
    if length.Err? {
      return Err(length.kind);
    }
    LimitFits(header.value);
    result := RecvVec(s, length.value, k1);
    if result.Err? {
      return;
    }
    FrameBuilt(header.value, result.value, s.incoming);
    forall q, rest | Sendable(q) && all == Frame(q) + rest
      ensures result == Ok(q) && s.incoming == rest
    {
      FrameUnique(q, rest, result.value, s.incoming);
    }
  }

  lemma LimitFits(header: seq<Byte>)
    requires |header| == FRAME_HEADER_LEN && DecodeFrameLen(header).Ok?
    ensures DecodeFrameLen(header).value <= U32_MAX
  {
  }

  /** The kernel behind each transfer of a conversation; a frame takes two. */
  type Kernels = nat -> Kernel

  ghost predicate AllHonest(k: Kernels) {
    forall i, j :: Honest(k(i)(j))
  }

  /** `send_frame` repeated: what went out is the frames of the payloads handled so far. */
  method SendFrames(s: TcpStream, ps: seq<seq<Byte>>, k: Kernels) returns (ok: bool)
    modifies s`outgoing, s`submissions
    ensures ok ==> AllSendable(ps) && s.outgoing == old(s.outgoing) + Frames(ps)
    ensures AllSendable(ps) && AllHonest(k) ==> ok
  {
    var i := 0;
    while i < |ps|
      invariant i <= |ps| && AllSendable(ps[..i])
      invariant s.outgoing == old(s.outgoing) + Frames(ps[..i])
    {
      var r := SendFrame(s, ps[i], k(2 * i), k(2 * i + 1));
      if r.Err? {
        return false;
      }
      FramesPush(ps[..i], ps[i]);
      assert ps[..i + 1] == ps[..i] + [ps[i]];
      i := i + 1;
    }
    assert ps[..|ps|] == ps;
    ok := true;
  }

  /** `recv_frame` repeated `n` times: what came in is the frames of the payloads returned. */
  method RecvFrames(s: TcpStream, n: nat, k: Kernels) returns (ok: bool, ps: seq<seq<Byte>>)
    modifies s`incoming, s`submissions
    ensures ok ==> AllSendable(ps) && old(s.incoming) == Frames(ps) + s.incoming
    ensures ok ==> |ps| == n
    ensures forall qs, rest | AllSendable(qs) && |qs| == n && old(s.incoming) == Frames(qs) + rest && AllHonest(k) ::
              ok && ps == qs && s.incoming == rest
  {
    hide FailsAsDue;
    ghost var all := s.incoming;
    ps := [];
    while |ps| < n
      invariant |ps| <= n && AllSendable(ps) && all == Frames(ps) + s.incoming
      decreases n - |ps|
    {
      ghost var before := s.incoming;
      var r := RecvFrame(s, k(2 * |ps|), k(2 * |ps| + 1));
      if r.Err? {
        forall qs, rest | AllSendable(qs) && |qs| == n && all == Frames(qs) + rest && AllHonest(k)
          ensures false
        {
          NextFrame(ps, before, qs, rest);
        }
        return false, ps;
      }
      FramesPush(ps, r.value);
      assert Frames(ps) + (Frame(r.value) + s.incoming) == (Frames(ps) + Frame(r.value)) + s.incoming;
      ps := ps + [r.value];
    }
    forall qs, rest | AllSendable(qs) && |qs| == n && all == Frames(qs) + rest
      ensures ps == qs && s.incoming == rest
    {
      FramesUnique(ps, s.incoming, qs, rest);
    }
    ok := true;
  }

  lemma {:induction false} FramesConcat(ps: seq<seq<Byte>>, qs: seq<seq<Byte>>)
    requires AllSendable(ps) && AllSendable(qs)
    ensures AllSendable(ps + qs) && Frames(ps + qs) == Frames(ps) + Frames(qs)
  {
    hide Frame;
    if ps == [] {
      assert ps + qs == qs;
    } else {
      assert (ps + qs)[1..] == ps[1..] + qs;
      FramesConcat(ps[1..], qs);
    }
  }

  /** The frames of a list, cut before one of them. */
  lemma FramesCut(qs: seq<seq<Byte>>, n: nat, rest: seq<Byte>)
    requires AllSendable(qs) && n < |qs|
    ensures Frames(qs) + rest == Frames(qs[..n]) + (Frame(qs[n]) + (Frames(qs[n + 1..]) + rest))
  {
    hide Frame;
    assert qs == qs[..n] + qs[n..];
    FramesConcat(qs[..n], qs[n..]);
    assert qs[n..][1..] == qs[n + 1..];
    assert Frames(qs[n..]) == Frame(qs[n]) + Frames(qs[n + 1..]);
    Regroup(Frames(qs[..n]), Frame(qs[n]), Frames(qs[n + 1..]), rest);
  }

  lemma Regroup(a: seq<Byte>, b: seq<Byte>, c: seq<Byte>, d: seq<Byte>)
    ensures (a + (b + c)) + d == a + (b + (c + d))
  {
  }

  /** A reader that has taken off fewer frames than there are stands before another one. */
  lemma NextFrame(ps: seq<seq<Byte>>, left: seq<Byte>, qs: seq<seq<Byte>>, rest: seq<Byte>)
    requires AllSendable(ps) && AllSendable(qs) && |ps| < |qs| && Frames(ps) + left == Frames(qs) + rest
    ensures left == Frame(qs[|ps|]) + (Frames(qs[|ps| + 1..]) + rest)
  {
    hide Frame;
    hide Frames;
    FramesCut(qs, |ps|, rest);
    FramesUnique(ps, left, qs[..|ps|], Frame(qs[|ps|]) + (Frames(qs[|ps| + 1..]) + rest));
  }

  /**
    A conversation: whatever short counts the two kernels choose, a reader that succeeds recovers the
    list that was sent, and with kernels that do not fail both sides succeed on every list of
    payloads within the limit.
   */
  method Exchange(ps: seq<seq<Byte>>, sending: Kernels, receiving: Kernels) returns (ok: bool, got: seq<seq<Byte>>)
    ensures ok ==> got == ps
    ensures AllSendable(ps) && AllHonest(sending) && AllHonest(receiving) ==> ok
  {
    var writer := new TcpStream([]);
    ok := SendFrames(writer, ps, sending);
    if !ok {
      return false, [];
    }
    var reader := new TcpStream(writer.outgoing);
    assert reader.incoming == Frames(ps) + [];
    ok, got := RecvFrames(reader, |ps|, receiving);
    if ok {
      FramesUnique(got, reader.incoming, ps, []);
    }
  }
}
