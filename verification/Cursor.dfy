/** AsyncFile's cursor (src/fs/async_pool.rs): reads and writes without an offset,
    on top of operations with one. Each operation is given together with the
    reply it gets, a count (possibly short) or an error. */
module Cursor {
  import opened Tokens
  import opened FileOp

  newtype Byte = x: int | 0 <= x < 0x100

  datatype Op = Read(len: nat, reply: Outcome) | Write(data: seq<Byte>, reply: Outcome)

  /** The bytes on the medium and the file object's position in them. */
  datatype File = File(bytes: seq<Byte>, pos: nat)

  ghost function Overwrite(bytes: seq<Byte>, offset: nat, data: seq<Byte>): seq<Byte>
    requires offset <= |bytes|
  {
    bytes[..offset] + data + if offset + |data| < |bytes| then bytes[offset + |data|..] else []
  }

  /** The written stretch holds the data, and every other byte is what it was; the
      file grows only as far as the stretch sticks out of it. */
  lemma OverwriteExactly(bytes: seq<Byte>, offset: nat, data: seq<Byte>)
    requires offset <= |bytes|
    ensures var after, end := Overwrite(bytes, offset, data), offset + |data|;
            && |after| == (if end < |bytes| then |bytes| else end)
            && (forall i :: offset <= i < end ==> after[i] == data[i - offset])
            && (forall i :: 0 <= i < |bytes| && !(offset <= i < end) ==> after[i] == bytes[i])
  {
  }

  /** A reply that a file can give: no more bytes than asked for, or than there are. */
  ghost predicate Admissible(f: File, op: Op)
  {
    && f.pos <= |f.bytes|
    && (op.reply.Ok? ==> if op.Read? then op.reply.count <= op.len && f.pos + op.reply.count <= |f.bytes|
                         else op.reply.count <= |op.data|)
  }

  ghost function Count(op: Op): nat
  {
    if op.reply.Ok? then op.reply.count else 0
  }

  ghost function BytesAfter(f: File, op: Op): seq<Byte>
    requires Admissible(f, op)
  {
    if op.Write? && op.reply.Ok? then Overwrite(f.bytes, f.pos, op.data[..op.reply.count]) else f.bytes
  }

  /** The bytes that a read delivers. */
  ghost function Delivered(f: File, op: Op): seq<Byte>
    requires Admissible(f, op)
  {
    if op.Read? then f.bytes[f.pos..f.pos + Count(op)] else []
  }

  /** A plain file with a position. */
  ghost function PlainStep(f: File, op: Op): File
    requires Admissible(f, op)
  {
    File(BytesAfter(f, op), f.pos + Count(op))
  }

  /** AsyncFile: the same, with the position in a `u32`. */
  ghost function CursorStep(f: File, op: Op): File
    requires Admissible(f, op)
  {
    File(BytesAfter(f, op), if op.reply.Ok? then (f.pos + op.reply.count) % U32_SIZE else f.pos)
  }

  ghost predicate Session(f: File, ops: seq<Op>)
    decreases |ops|
  {
    ops == [] || (Admissible(f, ops[0]) && Session(CursorStep(f, ops[0]), ops[1..]))
  }

  ghost function Run(f: File, ops: seq<Op>): File
    requires Session(f, ops)
    decreases |ops|
  {
    if ops == [] then f else Run(CursorStep(f, ops[0]), ops[1..])
  }

  ghost function Output(f: File, ops: seq<Op>): seq<Byte>
    requires Session(f, ops)
    decreases |ops|
  {
    if ops == [] then [] else Delivered(f, ops[0]) + Output(CursorStep(f, ops[0]), ops[1..])
  }

  ghost function Total(ops: seq<Op>): nat
    decreases |ops|
  {
    if ops == [] then 0 else Count(ops[0]) + Total(ops[1..])
  }

  // ----- Against the plain file -----

  ghost predicate PlainSession(f: File, ops: seq<Op>)
    decreases |ops|
  {
    ops == [] || (Admissible(f, ops[0]) && PlainSession(PlainStep(f, ops[0]), ops[1..]))
  }

  ghost function PlainRun(f: File, ops: seq<Op>): File
    requires PlainSession(f, ops)
    decreases |ops|
  {
    if ops == [] then f else PlainRun(PlainStep(f, ops[0]), ops[1..])
  }

  ghost function PlainOutput(f: File, ops: seq<Op>): seq<Byte>
    requires PlainSession(f, ops)
    decreases |ops|
  {
    if ops == [] then [] else Delivered(f, ops[0]) + PlainOutput(PlainStep(f, ops[0]), ops[1..])
  }

  lemma StepsAgree(f: File, op: Op)
    requires Admissible(f, op) && f.pos + Count(op) < U32_SIZE
    ensures CursorStep(f, op) == PlainStep(f, op)
  {
  }

  /** While the position stays below 2^32, AsyncFile is the plain file: same bytes
      on the medium, same bytes delivered, same position. */
  lemma {:induction false} CursorRefinesPlain(f: File, ops: seq<Op>)
    requires Session(f, ops) && f.pos + Total(ops) < U32_SIZE
    ensures PlainSession(f, ops)
    ensures PlainRun(f, ops) == Run(f, ops) && PlainOutput(f, ops) == Output(f, ops)
    decreases |ops|
  {
    if ops == [] {
    } else {
      StepsAgree(f, ops[0]);
      CursorRefinesPlain(PlainStep(f, ops[0]), ops[1..]);
    }
  }

  lemma WrapOnce(p: nat, c: nat, t: nat)
    ensures ((p + c) % U32_SIZE + t) % U32_SIZE == (p + c + t) % U32_SIZE
  {
  }

  /** In general the cursor is the number of bytes moved, modulo 2^32; so it is the
      true position if and only if fewer than 2^32 bytes were moved. */
  lemma {:induction false} CursorWraps(f: File, ops: seq<Op>)
    requires Session(f, ops) && f.pos < U32_SIZE
    ensures Run(f, ops).pos == (f.pos + Total(ops)) % U32_SIZE
    ensures Run(f, ops).pos == f.pos + Total(ops) <==> f.pos + Total(ops) < U32_SIZE
    decreases |ops|
  {
    if ops == [] {
    } else {
      CursorWraps(CursorStep(f, ops[0]), ops[1..]);
      WrapOnce(f.pos, Count(ops[0]), Total(ops[1..]));
    }
  }

  // ----- What was written is what is there -----

  /** The accepted prefixes of the writes, one after another. */
  ghost function Accepted(ops: seq<Op>): seq<Byte>
    decreases |ops|
  {
    if ops == [] then []
    else
      (if ops[0].Write? && Count(ops[0]) <= |ops[0].data| then ops[0].data[..Count(ops[0])] else [])
      + Accepted(ops[1..])
  }

  /** Writes only, short or failed ones among them: the accepted prefixes lie one
      after another from the starting position, up to the final one, and everything
      else is as it was. */
  lemma {:induction false} WritesAreAppended(f: File, ops: seq<Op>)
    requires PlainSession(f, ops) && f.pos <= |f.bytes|
    requires forall op :: op in ops ==> op.Write?
    ensures PlainRun(f, ops) == File(Overwrite(f.bytes, f.pos, Accepted(ops)), f.pos + |Accepted(ops)|)
    ensures |Accepted(ops)| == Total(ops)
    decreases |ops|
  {
    if ops == [] {
      assert Overwrite(f.bytes, f.pos, []) == f.bytes;
    } else {
      var first, rest := ops[0].data[..Count(ops[0])], ops[1..];
      assert Accepted(ops) == first + Accepted(rest);
      WriteIsOverwrite(f, ops[0]);
      WritesAreAppended(PlainStep(f, ops[0]), rest);
      OverwriteTwice(f.bytes, f.pos, first, Accepted(rest));
    }
  }

  lemma WriteIsOverwrite(f: File, op: Op)
    requires Admissible(f, op) && op.Write?
    ensures PlainStep(f, op) == File(Overwrite(f.bytes, f.pos, op.data[..Count(op)]), f.pos + Count(op))
    ensures PlainStep(f, op).pos <= |PlainStep(f, op).bytes|
  {
    if Count(op) == 0 {
      assert Overwrite(f.bytes, f.pos, []) == f.bytes;
      assert op.data[..0] == [];
    }
  }

  lemma OverwriteTwice(bytes: seq<Byte>, offset: nat, a: seq<Byte>, b: seq<Byte>)
    requires offset <= |bytes|
    ensures Overwrite(Overwrite(bytes, offset, a), offset + |a|, b) == Overwrite(bytes, offset, a + b)
  {
  }

  lemma {:induction false} ReadsStayInside(f: File, ops: seq<Op>)
    requires PlainSession(f, ops) && f.pos <= |f.bytes|
    requires forall op :: op in ops ==> op.Read?
    ensures f.pos + Total(ops) <= |f.bytes|
    ensures PlainRun(f, ops) == File(f.bytes, f.pos + Total(ops))
    decreases |ops|
  {
    if ops == [] {
    } else {
      ReadsStayInside(PlainStep(f, ops[0]), ops[1..]);
    }
  }

  /** Reads only: what is delivered is the stretch that the position moved over. */
  lemma {:induction false} ReadsAreContiguous(f: File, ops: seq<Op>, end: nat)
    requires PlainSession(f, ops) && f.pos <= |f.bytes|
    requires forall op :: op in ops ==> op.Read?
    requires end == f.pos + Total(ops)
    ensures end <= |f.bytes| && PlainOutput(f, ops) == f.bytes[f.pos..end]
    decreases |ops|
  {
    ReadsStayInside(f, ops);
    if ops == [] {
    } else {
      var f' := PlainStep(f, ops[0]);
      ReadsAreContiguous(f', ops[1..], end);
      Split(f.bytes, f.pos, f'.pos, end);
    }
  }

  lemma Split<T>(s: seq<T>, i: nat, j: nat, k: nat)
    requires i <= j <= k <= |s|
    ensures s[i..j] + s[j..k] == s[i..k]
  {
  }

  /** After writes from the start of a file, the bytes before the cursor are the
      accepted prefixes. */
  lemma WrittenFromTheStart(bytes: seq<Byte>, ops: seq<Op>)
    requires Session(File(bytes, 0), ops) && Total(ops) < U32_SIZE
    requires forall op :: op in ops ==> op.Write?
    ensures var f := Run(File(bytes, 0), ops);
            f.pos == Total(ops) <= |f.bytes| && f.bytes[..f.pos] == Accepted(ops)
  {
    CursorRefinesPlain(File(bytes, 0), ops);
    WritesAreAppended(File(bytes, 0), ops);
  }

  lemma ReadFromTheStart(bytes: seq<Byte>, ops: seq<Op>)
    requires Session(File(bytes, 0), ops) && Total(ops) < U32_SIZE
    requires forall op :: op in ops ==> op.Read?
    ensures Total(ops) <= |bytes| && Output(File(bytes, 0), ops) == bytes[..Total(ops)]
  {
    CursorRefinesPlain(File(bytes, 0), ops);
    ReadsAreContiguous(File(bytes, 0), ops, Total(ops));
  }

  /** Round trip: what one AsyncFile wrote from the start of a file, another one
      reads back, as far as its reads go, whatever the sizes of the pieces. */
  lemma ReadBack(bytes: seq<Byte>, writeOps: seq<Op>, medium: seq<Byte>, readOps: seq<Op>)
    requires Session(File(bytes, 0), writeOps) && Total(writeOps) < U32_SIZE
    requires forall op :: op in writeOps ==> op.Write?
    requires medium == Run(File(bytes, 0), writeOps).bytes
    requires Session(File(medium, 0), readOps) && Total(readOps) <= Total(writeOps)
    requires forall op :: op in readOps ==> op.Read?
    ensures |Accepted(writeOps)| == Total(writeOps)
    ensures Output(File(medium, 0), readOps) == Accepted(writeOps)[..Total(readOps)]
  {
    WrittenFromTheStart(bytes, writeOps);
    ReadFromTheStart(medium, readOps);
  }

  // ----- The program -----

  class AsyncFile {
    var bytes: seq<Byte>
    var cursor: nat

    ghost function View(): File
      reads this
    {
      File(bytes, cursor)
    }

    constructor (bytes: seq<Byte>)
      ensures View() == File(bytes, 0)
    {
      this.bytes, cursor := bytes, 0;
    }

    method ReadSome(len: nat, reply: Outcome) returns (data: seq<Byte>)
      requires Admissible(View(), Read(len, reply))
      modifies this
      ensures View() == CursorStep(old(View()), Read(len, reply))
      ensures data == Delivered(old(View()), Read(len, reply))
    {
      match reply
      case Ok(n) =>
        data := bytes[cursor..cursor + n];
        cursor := (cursor + n) % U32_SIZE;
      case Err(_) =>
        data := [];
    }

    method WriteSome(data: seq<Byte>, reply: Outcome)
      requires Admissible(View(), Write(data, reply))
      modifies this
      ensures View() == CursorStep(old(View()), Write(data, reply))
    {
      if reply.Ok? {
        var end := cursor + reply.count;
        bytes := bytes[..cursor] + data[..reply.count] + if end < |bytes| then bytes[end..] else [];
        cursor := end % U32_SIZE;
      }
    }
  }
}
