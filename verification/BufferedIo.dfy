/**
  Owned buffers against a kernel that transfers as little as it likes: positioned file reads and
  writes, and stream receives and sends, one operation at a time and as retry loops.

  The kernel's choices are given as a reply for each operation.  A reply can fail, can claim more
  than was asked for, or transfers between one byte and everything it could; it transfers nothing
  only at the end of the data.  Whatever lies behind the transferred bytes it may scribble over, also
  when it fails or claims too much.
 */
module BufferedIo {
  import opened Prelude

  const U32_MAX: nat := 0xFFFF_FFFF
  const U64_MAX: nat := 0xFFFF_FFFF_FFFF_FFFF
  /** No file position reaches this far. */
  const FILE_END: nat := 0x8000_0000_0000_0000

  type Byte = n: nat | n < 256

  datatype ErrorKind = InvalidInput | UnexpectedEof | WriteZero | InvalidData | Os(errno: nat)

  datatype IoResult<+T> = Ok(value: T) | Err(kind: ErrorKind)

  /** `errno` 0 means success; `scribble` is what the kernel leaves behind the bytes it transferred. */
  datatype Reply = Reply(errno: nat, oversized: bool, count: nat, scribble: Byte)

  type Kernel = nat -> Reply

  function Min(a: nat, b: nat): nat {
    if a < b then a else b
  }

  function Max(a: nat, b: nat): nat {
    if a < b then b else a
  }

  /** How much a successful operation transfers when `room` bytes were asked for and `most` could be. */
  function Transferred(r: Reply, room: nat, most: nat): (n: nat)
    ensures n <= room && n <= most && (n == 0 <==> room == 0 || most == 0)
  {
    var top := Min(room, most);
    if top == 0 then 0 else 1 + r.count % top
  }

  /** Every count the kernel may choose is the count of some reply. */
  lemma AnyCount(room: nat, most: nat, n: nat)
    requires 1 <= n <= room && n <= most
    ensures Transferred(Reply(0, false, n - 1, 0), room, most) == n
  {
    assert (n - 1) % Min(room, most) == n - 1;
  }

  /** The `i32` of the CQE. */
  function RawResult(r: Reply, room: nat, most: nat): int {
    if r.errno > 0 then 0 - (r.errno as int) else if r.oversized then room + 1 + r.count else Transferred(r, room, most)
  }

  /** `io::result`. */
  function ResultOf(raw: int): IoResult<nat> {
    if raw < 0 then Err(Os(-raw)) else Ok(raw)
  }

  /** The check that every `complete` makes before it believes the kernel. */
  function Checked(raw: int, room: nat): IoResult<nat> {
    match ResultOf(raw)
    case Ok(n) => if n <= room then Ok(n) else Err(InvalidData)
    case Err(e) => Err(e)
  }

  lemma CheckedReply(r: Reply, room: nat, most: nat)
    ensures var c := Checked(RawResult(r, room, most), room);
            && (c.Ok? <==> r.errno == 0 && !r.oversized)
            && (c.Ok? ==> c.value == Transferred(r, room, most))
            && (c.Err? ==> c.kind == if r.errno > 0 then Os(r.errno) else InvalidData)
  {
  }

  /** The error of an operation that is not a success, or of a loop that gives up after an honest reply. */
  function Failure(r: Reply, otherwise: ErrorKind): ErrorKind {
    if r.errno > 0 then Os(r.errno) else if r.oversized then InvalidData else otherwise
  }

  predicate Honest(r: Reply) {
    r.errno == 0 && !r.oversized
  }

  /**
    An owned buffer.  `init` is what the buffer itself reports as initialized; `defined` is history
    and counts the leading bytes that really were written.
   */
  class Buffer {
    const mem: array<Byte>
    var init: nat
    ghost var defined: nat

    ghost predicate Valid()
      reads this
    {
      init <= defined <= mem.Length
    }

    /** A buffer holding `content` with room for `capacity` bytes. */
    constructor (content: seq<Byte>, capacity: nat)
      requires |content| <= capacity
      ensures Valid() && fresh(mem) && mem.Length == capacity && init == |content| && mem[..init] == content
    {
      mem := new Byte[capacity](i => if 0 <= i < |content| then content[i] else 0);
      init, defined := |content|, |content|;
    }

    /** `set_init`, whose contract is that the prefix was really written. */
    method SetInit(n: nat)
      requires Valid() && n <= defined
      modifies this`init
      ensures Valid() && init == n
    {
      init := n;
    }

    /** The kernel fills `n` bytes from `offset` on, and may scribble up to the end of what it was offered. */
    method Fill(offset: nat, bytes: seq<Byte>, r: Reply)
      requires Valid() && offset <= defined && offset + |bytes| <= mem.Length
      modifies mem, this`defined
      ensures Valid() && defined == Max(old(defined), offset + |bytes|)
      ensures mem[..offset] == old(mem[..offset]) && mem[offset..offset + |bytes|] == bytes
    {
      forall i | offset <= i < mem.Length {
        mem[i] := if i < offset + |bytes| then bytes[i - offset] else r.scribble;
      }
      defined := Max(defined, offset + |bytes|);
    }
  }

  /** The bytes of `data` from `at`, as many as there are up to `n`. */
  function Slice(data: seq<Byte>, at: nat, n: nat): (s: seq<Byte>)
    ensures |s| <= n
  {
    if at <= |data| then data[at..Min(at + n, |data|)] else []
  }

  /** The first `at` bytes of a file, padded with zeros if it has fewer. */
  function Padded(data: seq<Byte>, at: nat): (s: seq<Byte>)
    ensures |s| == at
  {
    if at <= |data| then data[..at] else data + seq(at - |data|, i => 0)
  }

  function Rest(data: seq<Byte>, at: nat): seq<Byte> {
    if at <= |data| then data[at..] else []
  }

  /** `data` with `bytes` written at `at`; a gap before them reads as zeros. */
  function Splice(data: seq<Byte>, at: nat, bytes: seq<Byte>): seq<Byte> {
    if bytes == [] then data else Padded(data, at) + bytes + Rest(data, at + |bytes|)
  }

  function Available(data: seq<Byte>, at: nat): nat {
    if at <= |data| then |data| - at else 0
  }

  lemma SliceSplit(data: seq<Byte>, at: nat, a: nat, b: nat)
    requires |Slice(data, at, a)| == a
    ensures Slice(data, at, a) + Slice(data, at + a, b) == Slice(data, at, a + b)
  {
  }

  lemma SliceNone(data: seq<Byte>, at: nat)
    ensures Slice(data, at, 0) == []
  {
  }

  lemma SliceFits(data: seq<Byte>, at: nat, n: nat)
    requires |Slice(data, at, n)| == n && n > 0
    ensures at + n <= |data|
  {
  }

  lemma SpliceNone(data: seq<Byte>, at: nat)
    ensures Splice(data, at, []) == data
  {
  }

  /** What lies before and behind the end of a write. */
  lemma SpliceParts(data: seq<Byte>, at: nat, a: seq<Byte>, n: nat)
    requires a != []
    ensures Padded(Splice(data, at, a), at + |a|) == Padded(data, at) + a
    ensures Rest(Splice(data, at, a), at + |a| + n) == Rest(data, at + |a| + n)
  {
    var front, back := Padded(data, at) + a, Rest(data, at + |a|);
    assert Splice(data, at, a) == front + back && |front| == at + |a|;
    assert (front + back)[..|front|] == front;
    if |front| + n <= |front + back| {
      assert (front + back)[|front| + n..] == back[n..];
    }
  }

  lemma SpliceNonempty(data: seq<Byte>, at: nat, bytes: seq<Byte>)
    requires bytes != []
    ensures Splice(data, at, bytes) == Padded(data, at) + bytes + Rest(data, at + |bytes|)
  {
  }

  /** Writing two pieces one behind the other writes their concatenation. */
  lemma SpliceSplit(data: seq<Byte>, at: nat, a: seq<Byte>, b: seq<Byte>)
    ensures Splice(Splice(data, at, a), at + |a|, b) == Splice(data, at, a + b)
  {
    hide Splice;
    hide Padded;
    hide Rest;
    if b == [] {
      assert a + b == a;
      SpliceNone(Splice(data, at, a), at + |a|);
    } else if a == [] {
      assert a + b == b;
      SpliceNone(data, at);
    } else {
      SpliceParts(data, at, a, |b|);
      SpliceNonempty(Splice(data, at, a), at + |a|, b);
      assert |a + b| == |a| + |b|;
      SpliceNonempty(data, at, a + b);
      Associate(Padded(data, at), a, b);
    }
  }

  lemma Associate(x: seq<Byte>, y: seq<Byte>, z: seq<Byte>)
    ensures x + y + z == x + (y + z)
  {
  }

  lemma SpliceMore(data: seq<Byte>, at: nat, all: seq<Byte>, done: nat, n: nat)
    requires done + n <= |all|
    ensures Splice(Splice(data, at, all[..done]), at + done, all[done..done + n]) == Splice(data, at, all[..done + n])
  {
    hide Splice;
    SpliceSplit(data, at, all[..done], all[done..done + n]);
    assert all[..done + n] == all[..done] + all[done..done + n];
  }

  /** Of `all`, exactly the first `n` bytes have been written at `at`. */
  ghost predicate Wrote(before: seq<Byte>, at: nat, all: seq<Byte>, n: nat, after: seq<Byte>) {
    n <= |all| && after == Splice(before, at, all[..n])
  }

  lemma WroteNothing(data: seq<Byte>, at: nat, all: seq<Byte>)
    ensures Wrote(data, at, all, 0, data)
  {
  }

  lemma WroteMore(first: seq<Byte>, at: nat, all: seq<Byte>, done: nat, n: nat, before: seq<Byte>, after: seq<Byte>)
    requires Wrote(first, at, all, done, before) && done + n <= |all|
    requires after == Splice(before, at + done, all[done..done + n])
    ensures Wrote(first, at, all, done + n, after)
  {
    SpliceMore(first, at, all, done, n);
  }

  /** What is read back where something was written is what was written. */
  lemma ReadBack(data: seq<Byte>, at: nat, bytes: seq<Byte>)
    ensures bytes != [] ==> Slice(Splice(data, at, bytes), at, |bytes|) == bytes
    ensures at <= |data| ==> Splice(data, at, bytes)[..at] == data[..at]
    ensures at + |bytes| <= |data| ==>
              |Splice(data, at, bytes)| == |data| && Splice(data, at, bytes)[at + |bytes|..] == data[at + |bytes|..]
  {
  }

  class File {
    var data: seq<Byte>
    /** The position that an operation at offset `u64::MAX` uses instead. */
    var cursor: nat
    const append: bool
    /** How many operations were submitted. */
    var submissions: nat

    ghost predicate Valid()
      reads this
    {
      |data| < FILE_END && cursor < FILE_END
    }

    constructor (data: seq<Byte>, append: bool)
      requires |data| < FILE_END
      ensures Valid() && this.data == data && cursor == 0 && this.append == append && submissions == 0
    {
      this.data, this.cursor, this.append, this.submissions := data, 0, append, 0;
    }

    /** Where the kernel reads: at the offset, or at the cursor if the offset is the sentinel. */
    function ReadPosition(offset: nat): nat
      reads this`cursor
    {
      if offset == U64_MAX then cursor else offset
    }

    /** `read_at_offset`: one read into the buffer behind its first `at` bytes. */
    method ReadAtOffset(buf: Buffer, offset: nat, at: nat, r: Reply) returns (result: IoResult<nat>)
      requires Valid() && buf.Valid() && offset <= U64_MAX && at <= buf.defined && at <= buf.mem.Length
      modifies this`cursor, this`submissions, buf, buf.mem
      ensures Valid() && buf.Valid() && at <= buf.defined
      ensures buf.mem.Length - at > U32_MAX ==>
                result == Err(InvalidInput) && submissions == old(submissions) && buf.mem[..] == old(buf.mem[..])
      ensures buf.mem.Length - at <= U32_MAX ==> submissions == old(submissions) + 1
      ensures result.Ok? ==>
                && result.value <= buf.mem.Length - at
                && buf.mem[at..at + result.value] == Slice(data, old(ReadPosition(offset)), result.value)
                && |Slice(data, old(ReadPosition(offset)), result.value)| == result.value
                && (result.value == 0 <==> at == buf.mem.Length || Available(data, old(ReadPosition(offset))) == 0)
                && buf.init == Max(old(buf.init), at + result.value) && at + result.value <= buf.defined
      ensures result.Err? ==>
                && buf.init == old(buf.init) && cursor == old(cursor)
                && result.kind == if buf.mem.Length - at > U32_MAX then InvalidInput else Failure(r, InvalidData)
      ensures buf.mem[..at] == old(buf.mem[..at])
      ensures result.Ok? <==> Honest(r) && buf.mem.Length - at <= U32_MAX
      ensures result.Ok? ==> result.value == Transferred(r, buf.mem.Length - at, Available(data, old(ReadPosition(offset))))
      ensures cursor == old(cursor) + if offset == U64_MAX && result.Ok? then result.value else 0
    {
      var remaining := buf.mem.Length - at;
      if remaining > U32_MAX {
        return Err(InvalidInput);
      }
      submissions := submissions + 1;
      var position := ReadPosition(offset);
      var most := Available(data, position);
      CheckedReply(r, remaining, most);
      result := Checked(RawResult(r, remaining, most), remaining);
      if result.Ok? {
        var bytes := Slice(data, position, result.value);
        buf.Fill(at, bytes, r);
        buf.SetInit(Max(buf.init, at + result.value));
        if offset == U64_MAX {
          cursor := cursor + result.value;
          CursorBound(cursor, |data|, position, result.value);
        }
      } else {
        buf.Fill(at, [], r);
      }
    }

    /**
      `read_exact_at`.  At any offset but the sentinel, success means that the whole buffer holds the
      bytes of the file from the offset on, and failure that exactly the first `filled` bytes do; the
      file need not change hands.  At the sentinel a success has read at the cursor instead, it is a
      success exactly if one operation fills the buffer, and it never is what the file holds out there.
     */
    method ReadExactAt(buf: Buffer, offset: nat, kernel: Kernel) returns (result: IoResult<()>, ghost filled: nat)
      requires Valid() && buf.Valid() && offset <= U64_MAX
      modifies this`cursor, this`submissions, buf, buf.mem
      ensures Valid() && buf.Valid() && filled <= buf.mem.Length
      ensures result.Ok? <==> filled == buf.mem.Length
      ensures buf.mem[..filled] == Slice(data, old(ReadPosition(offset)), filled)
      ensures |Slice(data, old(ReadPosition(offset)), filled)| == filled
      ensures buf.init == Max(old(buf.init), filled)
      ensures buf.mem.Length > U32_MAX ==>
                result == Err(InvalidInput) && submissions == old(submissions) && buf.mem[..] == old(buf.mem[..])
      ensures old(submissions) <= submissions <= old(submissions) + filled + 1
      ensures result.Err? ==>
                && (buf.mem.Length <= U32_MAX ==> submissions > old(submissions))
                && result.kind == if buf.mem.Length > U32_MAX || offset + filled > U64_MAX then InvalidInput
                                  else Failure(kernel(submissions - old(submissions) - 1), UnexpectedEof)
      ensures result == Err(UnexpectedEof) ==> Available(data, old(ReadPosition(offset)) + filled) == 0
      ensures (offset != U64_MAX && |data| < offset + buf.mem.Length && 0 < buf.mem.Length <= U32_MAX
               && forall i :: Honest(kernel(i))) ==> result == Err(UnexpectedEof)
      ensures offset != U64_MAX ==> cursor == old(cursor)
      ensures (offset != U64_MAX && offset + buf.mem.Length <= |data| && buf.mem.Length <= U32_MAX
               && forall i :: Honest(kernel(i))) ==> result.Ok?
      ensures offset == U64_MAX && 0 < buf.mem.Length <= U32_MAX ==>
                (result.Ok? <==>
                 Honest(kernel(0)) && Transferred(kernel(0), buf.mem.Length, Available(data, old(cursor))) == buf.mem.Length)
      ensures offset == U64_MAX && buf.mem.Length > 0 && result.Ok? ==> buf.mem[..] != Slice(data, offset, buf.mem.Length)
    {
      hide Slice;
      hide Transferred;
      SliceNone(data, ReadPosition(offset));
      var total := buf.mem.Length;
      ghost var position := ReadPosition(offset);
      var done := 0;
      var i := 0;
      filled := 0;
      while done < total
        invariant filled == done <= total && Valid() && buf.Valid() && done <= buf.defined
        invariant buf.mem[..done] == Slice(data, position, done) && |Slice(data, position, done)| == done
        invariant buf.init == Max(old(buf.init), done)
        invariant done == 0 ==> buf.mem[..] == old(buf.mem[..]) && submissions == old(submissions) && cursor == old(cursor)
        invariant done > 0 ==> total <= U32_MAX && position + done <= |data|
        invariant i <= done && submissions == old(submissions) + i && (done == 0 <==> i == 0)
        invariant offset != U64_MAX ==> cursor == old(cursor)
        invariant offset == U64_MAX && done > 0 ==>
                    Honest(kernel(0)) && done == Transferred(kernel(0), total, Available(data, old(cursor)))
        decreases total - done
      {
        if offset + done > U64_MAX {
          return Err(InvalidInput), done;
        }
        ghost var before := buf.mem[..done];
        var step := ReadAtOffset(buf, offset + done, done, kernel(i));
        assert buf.mem[..done] == before;
        if step.Err? {
          return Err(step.kind), done;
        }
        if step.value == 0 {
          return Err(UnexpectedEof), done;
        }
        SliceSplit(data, position, done, step.value);
        SliceFits(data, position, done + step.value);
        assert buf.mem[..done + step.value] == buf.mem[..done] + buf.mem[done..done + step.value];
        i := i + 1;
        done := done + step.value;
        filled := done;
      }
      assert buf.mem[..done] == buf.mem[..] == buf.mem[..total];
      SentinelMisses(data, buf.mem[..]);
      result := Ok(());
    }

    /** Where the kernel writes: at the end in append mode, otherwise as for a read. */
    function WritePosition(offset: nat): nat
      reads this`cursor, this`data
    {
      if append then |data| else if offset == U64_MAX then cursor else offset
    }

    /** `write_at_offset`: one write of the initialized bytes behind the first `at`. */
    method WriteAtOffset(buf: Buffer, offset: nat, at: nat, r: Reply) returns (result: IoResult<nat>)
      requires Valid() && buf.Valid() && offset <= U64_MAX && at <= buf.init
      modifies this`data, this`cursor, this`submissions
      ensures Valid()
      ensures buf.init - at > U32_MAX ==>
                result == Err(InvalidInput) && submissions == old(submissions)
      ensures buf.init - at <= U32_MAX ==> submissions == old(submissions) + 1
      ensures result.Ok? ==>
                && result.value <= buf.init - at
                && data == Splice(old(data), old(WritePosition(offset)), buf.mem[..][at..at + result.value])
                && (result.value > 0 ==> old(WritePosition(offset)) + result.value < FILE_END)
      ensures result.Err? ==>
                && data == old(data) && cursor == old(cursor)
                && result.kind == if buf.init - at > U32_MAX then InvalidInput else Failure(r, InvalidData)
      ensures result.Ok? <==> Honest(r) && buf.init - at <= U32_MAX
      ensures Honest(r) && buf.init - at <= U32_MAX && at < buf.init && old(WritePosition(offset)) + 1 < FILE_END ==>
                result.value > 0
      ensures cursor == if (append || offset == U64_MAX) && result.Ok? && result.value > 0
                        then old(WritePosition(offset)) + result.value else old(cursor)
    {
      var remaining := buf.init - at;
      if remaining > U32_MAX {
        return Err(InvalidInput);
      }
      submissions := submissions + 1;
      var position := WritePosition(offset);
      var most := if position < FILE_END then FILE_END - 1 - position else 0;
      CheckedReply(r, remaining, most);
      result := Checked(RawResult(r, remaining, most), remaining);
      if result.Ok? && result.value > 0 {
        data := Splice(data, position, buf.mem[..][at..at + result.value]);
        if append || offset == U64_MAX {
          cursor := position + result.value;
        }
      }
    }

    /**
      `write_all_at`.  At any offset but the sentinel, success means that the file is the old one with
      the initialized bytes of the buffer written at the offset, and failure that exactly the first
      `written` of them were.  The buffer is only read.
     */
    method WriteAllAt(buf: Buffer, offset: nat, kernel: Kernel) returns (result: IoResult<()>, ghost written: nat)
      requires Valid() && buf.Valid() && offset <= U64_MAX
      modifies this`data, this`cursor, this`submissions
      ensures Valid() && written <= buf.init
      ensures append ==> result == Err(InvalidInput) && written == 0 && submissions == old(submissions)
      ensures !append ==> (result.Ok? <==> written == buf.init)
      ensures Wrote(old(data), old(WritePosition(offset)), buf.mem[..], written, data)
      ensures buf.init > U32_MAX ==> result == Err(InvalidInput) && submissions == old(submissions) && data == old(data)
      ensures old(submissions) <= submissions <= old(submissions) + written + 1
      ensures !append && buf.init <= U32_MAX && result.Err? ==>
                && submissions > old(submissions)
                && result.kind == if offset + written > U64_MAX then InvalidInput
                                  else Failure(kernel(submissions - old(submissions) - 1), WriteZero)
      ensures result == Err(WriteZero) ==> old(WritePosition(offset)) + written + 1 >= FILE_END
      ensures !append && offset != U64_MAX ==> cursor == old(cursor)
      ensures !append && offset + buf.init < FILE_END && buf.init <= U32_MAX && (forall i :: Honest(kernel(i))) ==> result.Ok?
    {
      hide Wrote;
      hide Splice;
      WroteNothing(data, WritePosition(offset), buf.mem[..]);
      written := 0;
      if append {
        return Err(InvalidInput), 0;
      }
      var total := buf.init;
      ghost var position := WritePosition(offset);
      var done := 0;
      var i := 0;
      while done < total
        invariant written == done <= total && Valid()
        invariant Wrote(old(data), position, buf.mem[..], done, data)
        invariant done == 0 ==> submissions == old(submissions) && cursor == old(cursor) && data == old(data)
        invariant done > 0 ==> total <= U32_MAX && position + done < FILE_END
        invariant i <= done && submissions == old(submissions) + i && (done > 0 ==> i > 0)
        invariant offset != U64_MAX ==> cursor == old(cursor)
        decreases total - done
      {
        if offset + done > U64_MAX {
          return Err(InvalidInput), done;
        }
        ghost var before := data;
        var step := WriteAtOffset(buf, offset + done, done, kernel(i));
        if step.Err? {
          return Err(step.kind), done;
        }
        WroteMore(old(data), position, buf.mem[..], done, step.value, before, data);
        if step.value == 0 {
          return Err(WriteZero), done;
        }
        i := i + 1;
        done := done + step.value;
        written := done;
      }
      result := Ok(());
    }

    /** `append`: one write, at the end of a file in append mode and nowhere else. */
    method Append(buf: Buffer, r: Reply) returns (result: IoResult<nat>)
      requires Valid() && buf.Valid()
      modifies this`data, this`cursor, this`submissions
      ensures Valid()
      ensures !append ==> result == Err(InvalidInput) && data == old(data) && submissions == old(submissions)
      ensures result.Ok? ==> result.value <= buf.init && data == old(data) + buf.mem[..result.value]
      ensures append ==> (result.Ok? <==> Honest(r) && buf.init <= U32_MAX)
      ensures append && result.Err? ==> result.kind == if buf.init > U32_MAX then InvalidInput else Failure(r, InvalidData)
      ensures result.Err? ==> data == old(data)
    {
      if !append {
        return Err(InvalidInput);
      }
      result := WriteAtOffset(buf, U64_MAX, 0, r);
      if result.Ok? {
        AppendSplice(old(data), buf.mem[..result.value]);
        assert buf.mem[..][0..0 + result.value] == buf.mem[..result.value];
      }
    }
  }

  lemma AppendSplice(data: seq<Byte>, bytes: seq<Byte>)
    ensures Splice(data, |data|, bytes) == data + bytes
  {
  }

  lemma CursorBound(cursor: nat, length: nat, position: nat, n: nat)
    requires cursor == position + n && n <= (if position <= length then length - position else 0)
    requires position < FILE_END && length < FILE_END
    ensures cursor < FILE_END
  {
  }

  /** No file has bytes at the sentinel, so nothing that a read there can deliver is what the file holds there. */
  lemma SentinelMisses(data: seq<Byte>, bytes: seq<Byte>)
    requires |data| < FILE_END
    ensures bytes != [] ==> bytes != Slice(data, U64_MAX, |bytes|)
  {
  }

  /** Why the sentinel is excepted: an instance of a read there that succeeds. */
  method SentinelReads() returns (result: IoResult<()>, file: File, buf: Buffer)
    ensures result.Ok? && buf.init == buf.mem.Length == 1
    ensures buf.mem[..1] != Slice(file.data, U64_MAX, 1)
  {
    file := new File([7], false);
    buf := new Buffer([], 1);
    ghost var filled;
    result, filled := file.ReadExactAt(buf, U64_MAX, i => Reply(0, false, 0, 0));
  }
}
