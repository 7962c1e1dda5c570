/** The write buffer behind an open file handle: a RAM buffer for files that
    fit, a temporary file for the others. */
module WriteBuffer {
  import opened Basics

  /** What the `write` and `setattr` callbacks do to a handle. */
  datatype Op = Write(offset: nat, data: Bytes) | Truncate(size: nat)

  /** `Vec::resize` with zeros. */
  function Resize(content: Bytes, size: nat): (r: Bytes)
    ensures |r| == size
    ensures forall i :: 0 <= i < size ==> r[i] == if i < |content| then content[i] else 0
  {
    if size <= |content| then content[..size]
    else content + seq(size - |content|, i => 0 as byte)
  }

  function End(op: Op): nat { if op.Write? then op.offset + |op.data| else op.size }

  /** The RAM branches of `write` and `setattr`. */
  function RamStep(content: Bytes, op: Op): Bytes {
    match op
    case Write(start, data) =>
      var grown := if End(op) > |content| then Resize(content, End(op)) else content;
      grown[..start] + data + grown[End(op)..]
    case Truncate(size) => Resize(content, size)
  }

  function Ram(seed: Bytes, ops: seq<Op>): Bytes {
    if ops == [] then seed else RamStep(Ram(seed, ops[..|ops| - 1]), ops[|ops| - 1])
  }

  // ── The pointwise specification ──

  /** The operation decides what byte `i` holds: a write that covers it, or a
      truncation that cuts it off. */
  predicate Sets(op: Op, i: nat) {
    match op
    case Write(start, data) => start <= i < start + |data|
    case Truncate(size) => size <= i
  }

  /** The operation decides whether byte `i` exists. */
  predicate Bounds(op: Op, i: nat) {
    op.Truncate? || End(op) > i
  }

  /** The last operation that decides what byte `i` holds. */
  ghost predicate LastToSet(ops: seq<Op>, j: nat, i: nat) {
    j < |ops| && Sets(ops[j], i) && forall k :: j < k < |ops| ==> !Sets(ops[k], i)
  }

  ghost predicate LastToBound(ops: seq<Op>, j: nat, i: nat) {
    j < |ops| && Bounds(ops[j], i) && forall k :: j < k < |ops| ==> !Bounds(ops[k], i)
  }

  /** A byte of the buffer, zero past its end. */
  function ByteAt(content: Bytes, i: nat): byte { if i < |content| then content[i] else 0 }

  /** What the deciding operation puts there: a truncated byte that comes back
      is zero. */
  function SetTo(op: Op, i: nat): byte
    requires Sets(op, i)
  {
    match op
    case Write(start, data) => data[i - start]
    case Truncate(_) => 0
  }

  lemma StepBytes(content: Bytes, op: Op, i: nat)
    ensures i < |RamStep(content, op)| <==> if Bounds(op, i) then i < End(op) else i < |content|
    ensures ByteAt(RamStep(content, op), i) == if Sets(op, i) then SetTo(op, i) else ByteAt(content, i)
  {
  }

  /** A byte no operation decides is the seed's, or zero in a gap. */
  lemma {:induction false} Untouched(seed: Bytes, ops: seq<Op>, i: nat)
    requires forall op :: op in ops ==> !Sets(op, i)
    ensures ByteAt(Ram(seed, ops), i) == ByteAt(seed, i)
  {
    if ops != [] {
      var last := ops[|ops| - 1];
      assert last in ops;
      Untouched(seed, ops[..|ops| - 1], i);
      StepBytes(Ram(seed, ops[..|ops| - 1]), last, i);
    }
  }

  lemma EarlierSetter(ops: seq<Op>, j: nat, i: nat)
    requires LastToSet(ops, j, i) && j < |ops| - 1
    ensures LastToSet(ops[..|ops| - 1], j, i)
  {
  }

  /** Main result: a byte of the buffer is what the last operation deciding it
      put there: a written byte, or the zero a truncation leaves behind. */
  lemma {:induction false} LastEffect(seed: Bytes, ops: seq<Op>, j: nat, i: nat)
    requires LastToSet(ops, j, i)
    ensures ByteAt(Ram(seed, ops), i) == SetTo(ops[j], i)
    decreases |ops|
  {
    var init, last := ops[..|ops| - 1], ops[|ops| - 1];
    StepBytes(Ram(seed, init), last, i);
    if j < |init| {
      assert !Sets(ops[|init|], i);
      EarlierSetter(ops, j, i);
      LastEffect(seed, init, j, i);
    }
  }

  /** Main result: whether a byte exists was decided by the last write reaching
      past it or the last truncation, whichever is later. */
  lemma {:induction false} Extent(seed: Bytes, ops: seq<Op>, i: nat)
    ensures forall j: nat :: LastToBound(ops, j, i) ==> (i < |Ram(seed, ops)| <==> i < End(ops[j]))
    ensures (forall op :: op in ops ==> !Bounds(op, i)) ==> (i < |Ram(seed, ops)| <==> i < |seed|)
  {
    if ops != [] {
      var init, last := ops[..|ops| - 1], ops[|ops| - 1];
      Extent(seed, init, i);
      StepBytes(Ram(seed, init), last, i);
      forall j: nat | LastToBound(ops, j, i) && j < |init| ensures LastToBound(init, j, i) && !Bounds(last, i) {
        assert forall k :: j < k < |init| ==> init[k] == ops[k];
      }
    }
  }

  // ── The temporary file ──

  /** A sparse file: bytes written so far, zero everywhere else below `len`. */
  datatype Sparse = Sparse(len: nat, written: map<nat, byte>)

  function Content(f: Sparse): (c: Bytes)
    ensures |c| == f.len
    ensures forall i :: 0 <= i < f.len ==> c[i] == if i in f.written then f.written[i] else 0
  {
    seq(f.len, i requires 0 <= i < f.len => if i in f.written then f.written[i] else 0)
  }

  /** Nothing is stored past the end. */
  ghost predicate WithinEnd(f: Sparse) { forall i :: i in f.written ==> i < f.len }

  function Put(written: map<nat, byte>, start: nat, data: Bytes): (r: map<nat, byte>)
    ensures forall i: nat :: i in r <==> i in written || start <= i < start + |data|
    ensures forall i: nat :: i in r ==> r[i] == if start <= i < start + |data| then data[i - start] else written[i]
  {
    if data == [] then written
    else
      var n := |data| - 1;
      Put(written, start, data[..n])[start + n := data[n]]
  }

  /** Seek and write, or `set_len`. */
  function FileStep(f: Sparse, op: Op): Sparse {
    match op
    case Write(start, data) =>
      Sparse(if data != [] && End(op) > f.len then End(op) else f.len,
             Put(f.written, start, data))
    case Truncate(size) => Sparse(size, map i | i in f.written && i < size :: f.written[i])
  }

  function File(f: Sparse, ops: seq<Op>): Sparse {
    if ops == [] then f else FileStep(File(f, ops[..|ops| - 1]), ops[|ops| - 1])
  }

  /** One operation leaves the same bytes in RAM and in the file, except that
      an empty write beyond the end extends only the RAM buffer. */
  lemma BranchesAgreeOnce(f: Sparse, op: Op)
    requires WithinEnd(f)
    ensures WithinEnd(FileStep(f, op))
    ensures Content(FileStep(f, op)) == RamStep(Content(f), op) <==>
            !(op.Write? && op.data == [] && op.offset > f.len)
  {
    var a, b := Content(FileStep(f, op)), RamStep(Content(f), op);
    if !(op.Write? && op.data == [] && op.offset > f.len) {
      assert |a| == |b|;
      forall i | 0 <= i < |a| ensures a[i] == b[i] {
        StepBytes(Content(f), op, i);
      }
    } else {
      assert |a| == f.len && |b| == op.offset;
    }
  }

  /** Main result: with non-empty writes the two branches hold the same bytes
      after any sequence of operations. */
  lemma {:induction false} BranchesAgree(f: Sparse, ops: seq<Op>)
    requires WithinEnd(f) && forall op :: op in ops && op.Write? ==> op.data != []
    ensures WithinEnd(File(f, ops)) && Content(File(f, ops)) == Ram(Content(f), ops)
  {
    if ops != [] {
      BranchesAgree(f, ops[..|ops| - 1]);
      assert ops[|ops| - 1] in ops;
      BranchesAgreeOnce(File(f, ops[..|ops| - 1]), ops[|ops| - 1]);
    }
  }

  /** The one case in which they do not: one byte of zeros in RAM, nothing in
      the file. */
  lemma EmptyWriteDiffers()
    ensures var op := Write(1, []);
            RamStep([], op) == [0] && Content(FileStep(Sparse(0, map[]), op)) == []
  {
    assert RamStep([], Write(1, []))[0] == 0;
  }
}
