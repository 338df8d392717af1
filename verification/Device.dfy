/**
  The message devices of homework24_chardev_driver (a character device) and
  homework25_sys_and_proc_filesystems (a proc file): a fixed buffer holding a NUL-terminated message, read
  and written through the offset of an open file.
 */
module Device {

  type Byte = b: int | 0 <= b < 256

  const NUL: Byte := 0

  datatype Kind = CharDevice | ProcFile

  /** The bytes given to the reader and the new offset; Overrun if the driver looks behind its buffer. */
  datatype Outcome = Data(bytes: seq<Byte>, offset: nat) | Overrun

  /** The position of the first NUL from i on, |msg| if there is none. */
  function NulFrom(msg: seq<Byte>, i: nat): (n: nat)
    requires i <= |msg|
    ensures i <= n <= |msg|
    decreases |msg| - i
  {
    if i == |msg| || msg[i] == NUL then i else NulFrom(msg, i + 1)
  }

  lemma {:induction false} FirstNul(msg: seq<Byte>, i: nat)
    requires i <= |msg|
    ensures var n := NulFrom(msg, i);
            (n < |msg| ==> msg[n] == NUL) && forall k :: i <= k < n ==> msg[k] != NUL
    decreases |msg| - i
  {
    if i < |msg| && msg[i] != NUL { FirstNul(msg, i + 1); }
  }

  lemma {:induction false} NulIs(msg: seq<Byte>, i: nat, n: nat)
    requires i <= n <= |msg| && (forall k :: i <= k < n ==> msg[k] != NUL) && (n == |msg| || msg[n] == NUL)
    ensures NulFrom(msg, i) == n
    decreases n - i
  {
    if i < n { NulIs(msg, i + 1, n); }
  }

  /** The text that the buffer holds. */
  function Text(msg: seq<Byte>): seq<Byte> { msg[..NulFrom(msg, 0)] }

  /** One read: at the end of the text nothing, and the offset starts over; otherwise the text from the
      offset on, at most length bytes of it. */
  function Reading(msg: seq<Byte>, offset: nat, length: nat): Outcome {
    if offset >= |msg| then Overrun
    else if msg[offset] == NUL then Data([], 0)
    else
      var end := NulFrom(msg, offset);
      if length <= end - offset then Data(msg[offset..offset + length], offset + length)
      else if end == |msg| then Overrun
      else Data(msg[offset..end], end)
  }

  /** What simple_write_to_buffer copies. */
  function Clip(msg: seq<Byte>, offset: nat, data: seq<Byte>): seq<Byte> {
    if offset >= |msg| then [] else if |data| > |msg| - offset then data[..|msg| - offset] else data
  }

  function Overwritten(msg: seq<Byte>, offset: nat, data: seq<Byte>): seq<Byte> {
    if offset >= |msg| then msg
    else
      var piece := Clip(msg, offset, data);
      msg[..offset] + piece + msg[offset + |piece|..]
  }

  function Zeros(n: nat): seq<Byte> { seq(n, i => NUL) }

  /** The buffer after a write; the proc file clears it first. Data longer than the buffer is refused. */
  function Stored(kind: Kind, msg: seq<Byte>, offset: nat, data: seq<Byte>): seq<Byte> {
    if |data| > |msg| then msg
    else if kind == ProcFile then Overwritten(Zeros(|msg|), offset, data)
    else Overwritten(msg, offset, data)
  }

  function OffsetAfter(msg: seq<Byte>, offset: nat, data: seq<Byte>): nat {
    if |data| > |msg| then offset else offset + |Clip(msg, offset, data)|
  }

  // ----- Reading -----

  /** The driver looks behind its buffer exactly if the offset is already there, or if there is no NUL from
      the offset on and the reader wants more than is left. */
  lemma OverrunExactly(msg: seq<Byte>, offset: nat, length: nat)
    ensures Reading(msg, offset, length) == Overrun
        <==> offset >= |msg| || (NUL !in msg[offset..] && length > |msg| - offset)
  {
    if offset < |msg| {
      var end := NulFrom(msg, offset);
      FirstNul(msg, offset);
      if end < |msg| { assert msg[offset..][end - offset] == NUL; }
    }
  }

  function Repeat(text: seq<Byte>, n: nat): seq<Byte> {
    if n == 0 then [] else Repeat(text, n - 1) + text
  }

  /** A sequence of reads on one open file: all the bytes, the final offset, how often it started over. */
  datatype Reads = Reads(bytes: seq<Byte>, offset: nat, restarts: nat)

  function ReadAll(msg: seq<Byte>, offset: nat, lengths: seq<nat>): Reads
    decreases |lengths|
  {
    if lengths == [] then Reads([], offset, 0)
    else
      var before := ReadAll(msg, offset, lengths[..|lengths| - 1]);
      Advance(before, Reading(msg, before.offset, lengths[|lengths| - 1]))
  }

  function Advance(before: Reads, read: Outcome): Reads {
    match read
    case Overrun => before
    case Data(bytes, offset) =>
      Reads(before.bytes + bytes, offset, before.restarts + if offset == 0 && bytes == [] then 1 else 0)
  }

  /** A read of a positive length within the text. */
  lemma ReadInText(msg: seq<Byte>, offset: nat, length: nat)
    requires NulFrom(msg, 0) < |msg| && offset <= NulFrom(msg, 0) && length > 0
    ensures var end := NulFrom(msg, 0);
            Reading(msg, offset, length)
            == if offset == end then Data([], 0)
               else if length <= end - offset then Data(msg[offset..offset + length], offset + length)
               else Data(msg[offset..end], end)
  {
    FirstNul(msg, 0);
    NulIs(msg, offset, NulFrom(msg, 0));
  }

  /** The bytes read so far are the rest of the text from the first offset on and then the whole text once
      per restart, except for what lies between the current offset and the end. */
  predicate Periodic(msg: seq<Byte>, offset: nat, r: Reads)
    requires offset <= NulFrom(msg, 0)
  {
    var end := NulFrom(msg, 0);
    r.offset <= end && r.bytes + msg[r.offset..end] == msg[offset..end] + Repeat(Text(msg), r.restarts)
  }

  /** Whatever the positive lengths, the stream is the text over and over. */
  lemma {:induction false} StreamIsPeriodic(msg: seq<Byte>, offset: nat, lengths: seq<nat>)
    requires NulFrom(msg, 0) < |msg| && offset <= NulFrom(msg, 0) && forall k :: 0 <= k < |lengths| ==> lengths[k] > 0
    ensures Periodic(msg, offset, ReadAll(msg, offset, lengths))
    decreases |lengths|
  {
    if lengths != [] {
      var n := |lengths| - 1;
      StreamIsPeriodic(msg, offset, lengths[..n]);
      StreamStep(msg, offset, ReadAll(msg, offset, lengths[..n]), lengths[n]);
    }
  }

  lemma StreamStep(msg: seq<Byte>, offset: nat, b: Reads, length: nat)
    requires NulFrom(msg, 0) < |msg| && offset <= NulFrom(msg, 0) && length > 0 && Periodic(msg, offset, b)
    ensures Periodic(msg, offset, Advance(b, Reading(msg, b.offset, length)))
  {
    ReadInText(msg, b.offset, length);
    var read := Reading(msg, b.offset, length);
    OneMore(msg, offset, b, read.bytes, read.offset);
  }

  lemma OneMore(msg: seq<Byte>, offset: nat, b: Reads, bytes: seq<Byte>, next: nat)
    requires var end := NulFrom(msg, 0);
             && offset <= end && Periodic(msg, offset, b)
             && (if b.offset == end then bytes == [] && next == 0 else b.offset < next <= end && bytes == msg[b.offset..next])
    ensures Periodic(msg, offset, Advance(b, Data(bytes, next)))
  {
    var end := NulFrom(msg, 0);
    if b.offset == end {
      assert msg[end..end] == [] && msg[0..end] == Text(msg);
      assert b.bytes + [] == b.bytes;
    } else {
      assert bytes + msg[next..end] == msg[b.offset..end];
      assert b.bytes + bytes + msg[next..end] == b.bytes + (bytes + msg[next..end]);
    }
  }

  /** What a reader gets that reads until it gets nothing; Unfinished if the lengths run out before. */
  datatype Copy = Copied(bytes: seq<Byte>) | Unfinished(bytes: seq<Byte>) | Crashed

  function ReadToEnd(msg: seq<Byte>, offset: nat, lengths: seq<nat>): Copy
    decreases |lengths|
  {
    if lengths == [] then Unfinished([])
    else
      match Reading(msg, offset, lengths[0])
      case Overrun => Crashed
      case Data(bytes, offset') =>
        if bytes == [] then Copied([])
        else
          match ReadToEnd(msg, offset', lengths[1..])
          case Copied(rest) => Copied(bytes + rest)
          case Unfinished(rest) => Unfinished(bytes + rest)
          case Crashed => Crashed
  }

  /** Reading until nothing comes gives the rest of the text, after at most one read per byte and one more. */
  lemma {:induction false} CopyIsText(msg: seq<Byte>, offset: nat, lengths: seq<nat>)
    requires NulFrom(msg, 0) < |msg| && offset <= NulFrom(msg, 0) && forall k :: 0 <= k < |lengths| ==> lengths[k] > 0
    requires |lengths| > NulFrom(msg, 0) - offset
    ensures ReadToEnd(msg, offset, lengths) == Copied(msg[offset..NulFrom(msg, 0)])
    decreases |lengths|
  {
    ReadInText(msg, offset, lengths[0]);
    if offset < NulFrom(msg, 0) {
      CopyIsText(msg, Reading(msg, offset, lengths[0]).offset, lengths[1..]);
    }
  }

  // ----- Writing, then reading -----

  lemma ProcStored(msg: seq<Byte>, data: seq<Byte>)
    requires |data| <= |msg|
    ensures Stored(ProcFile, msg, 0, data) == data + Zeros(|msg| - |data|)
  {
    if msg != [] { assert Zeros(|msg|)[|data|..] == Zeros(|msg| - |data|); }
  }

  lemma PaddedText(data: seq<Byte>, k: nat)
    ensures Text(data + Zeros(k)) == data[..NulFrom(data, 0)]
  {
    var m, n := data + Zeros(k), NulFrom(data, 0);
    FirstNul(data, 0);
    assert m[..|data|] == data && forall j :: |data| <= j < |m| ==> m[j] == NUL;
    NulIs(m, 0, n);
    assert m[..n] == data[..n];
  }

  lemma WholeExactly(data: seq<Byte>)
    ensures data[..NulFrom(data, 0)] == data <==> NUL !in data
  {
    var n := NulFrom(data, 0);
    FirstNul(data, 0);
    if n < |data| {
      assert data[n] in data && |data[..n]| != |data|;
    }
  }

  /** The proc file, written at offset 0, holds exactly the data up to its first NUL, so it gives the data
      back exactly if they have none. */
  lemma ProcWriteReadsBack(msg: seq<Byte>, data: seq<Byte>)
    requires |data| <= |msg|
    ensures Text(Stored(ProcFile, msg, 0, data)) == data[..NulFrom(data, 0)]
    ensures Text(Stored(ProcFile, msg, 0, data)) == data <==> NUL !in data
  {
    ProcStored(msg, data);
    PaddedText(data, |msg| - |data|);
    WholeExactly(data);
  }

  /** Written behind offset 0, it is empty: the start was cleared. */
  lemma ProcWriteBehindStartIsLost(msg: seq<Byte>, offset: nat, data: seq<Byte>)
    requires 0 < offset && |data| <= |msg|
    ensures Text(Stored(ProcFile, msg, offset, data)) == []
  {
    var m := Stored(ProcFile, msg, offset, data);
    if msg != [] { assert m[0] == NUL; }
  }

  /** Text behind a part without NUL. */
  lemma {:induction false} NulBehind(m: seq<Byte>, i: nat, j: nat)
    requires i <= j <= |m| && forall k :: i <= k < j ==> m[k] != NUL
    ensures NulFrom(m, i) == NulFrom(m, j)
    decreases j - i
  {
    if i < j { NulBehind(m, i + 1, j); }
  }

  /** The first NUL from i on only depends on what is there. */
  lemma {:induction false} NulSame(m: seq<Byte>, msg: seq<Byte>, i: nat)
    requires i <= |m| == |msg| && m[i..] == msg[i..]
    ensures NulFrom(m, i) == NulFrom(msg, i)
    decreases |m| - i
  {
    if i < |m| {
      assert m[i] == m[i..][0] && msg[i] == msg[i..][0];
      assert m[i + 1..] == m[i..][1..] && msg[i + 1..] == msg[i..][1..];
      NulSame(m, msg, i + 1);
    }
  }

  /** The character device, written at offset 0, holds the data and then the old bytes behind them up to
      their first NUL: the data alone exactly if the old byte behind them is a NUL. */
  lemma DeviceWriteKeepsTail(msg: seq<Byte>, data: seq<Byte>)
    requires |data| <= |msg| && NUL !in data
    ensures Text(Stored(CharDevice, msg, 0, data)) == data + msg[|data|..NulFrom(msg, |data|)]
    ensures Text(Stored(CharDevice, msg, 0, data)) == data <==> |data| == |msg| || msg[|data|] == NUL
  {
    var m, d, n := Stored(CharDevice, msg, 0, data), |data|, NulFrom(msg, |data|);
    assert m == data + msg[d..];
    NulSame(m, msg, d);
    assert forall k :: 0 <= k < d ==> m[k] == data[k];
    NulBehind(m, 0, d);
    assert m[..n] == data + msg[d..n];
  }

  /** All the data of a sequence of writes. */
  function Joined(writes: seq<seq<Byte>>): seq<Byte> {
    if writes == [] then [] else Joined(writes[..|writes| - 1]) + writes[|writes| - 1]
  }

  /** One write on an open file of the character device: buffer and offset. */
  function WriteTo(file: (seq<Byte>, nat), data: seq<Byte>): (seq<Byte>, nat) {
    (Stored(CharDevice, file.0, file.1, data), OffsetAfter(file.0, file.1, data))
  }

  function WriteAll(file: (seq<Byte>, nat), writes: seq<seq<Byte>>): (seq<Byte>, nat) {
    if writes == [] then file else WriteTo(WriteAll(file, writes[..|writes| - 1]), writes[|writes| - 1])
  }

  /** The data put into the buffer as one piece, cut at the buffer's end. */
  function AsOne(msg: seq<Byte>, offset: nat, data: seq<Byte>): (seq<Byte>, nat)
    requires offset <= |msg|
  {
    var all := Clip(msg, offset, data);
    (msg[..offset] + all + msg[offset + |all|..], offset + |all|)
  }

  /** Writes of any sizes up to the buffer's act like one piece made of all the data. */
  lemma {:induction false} WritesConcatenate(msg: seq<Byte>, offset: nat, writes: seq<seq<Byte>>)
    requires offset <= |msg| && forall k :: 0 <= k < |writes| ==> |writes[k]| <= |msg|
    ensures WriteAll((msg, offset), writes) == AsOne(msg, offset, Joined(writes))
  {
    if writes == [] {
      assert msg[..offset] + [] + msg[offset..] == msg;
    } else {
      var n := |writes| - 1;
      WritesConcatenate(msg, offset, writes[..n]);
      WriteOneMore(msg, offset, Joined(writes[..n]), writes[n]);
    }
  }

  lemma WriteOneMore(msg: seq<Byte>, offset: nat, before: seq<Byte>, data: seq<Byte>)
    requires offset <= |msg| && |data| <= |msg|
    ensures WriteTo(AsOne(msg, offset, before), data) == AsOne(msg, offset, before + data)
  {
    var (m, o) := AsOne(msg, offset, before);
    var a, piece, all := Clip(msg, offset, before), Clip(m, o, data), Clip(msg, offset, before + data);
    assert |m| == |msg|;
    if o < |m| {
      assert m[..o] == msg[..offset] + a;
      assert m[o + |piece|..] == msg[offset + |all|..];
      assert msg[..offset] + all == m[..o] + piece;
    } else {
      assert a + [] == a && all == a;
    }
  }

  // ----- Several open files -----

  /** The buffer and the offsets of the open files. */
  datatype Files = Files(msg: seq<Byte>, offsets: seq<nat>)

  datatype Op = Open | Read(f: nat, length: nat) | Write(f: nat, data: seq<Byte>)

  function Step(kind: Kind, s: Files, op: Op): Files {
    match op
    case Open => s.(offsets := s.offsets + [0])
    case Read(f, length) =>
      if f >= |s.offsets| then s
      else
        (match Reading(s.msg, s.offsets[f], length)
         case Overrun => s
         case Data(_, offset) => s.(offsets := s.offsets[f := offset]))
    case Write(f, data) =>
      if f >= |s.offsets| then s
      else Files(Stored(kind, s.msg, s.offsets[f], data), s.offsets[f := OffsetAfter(s.msg, s.offsets[f], data)])
  }

  function Run(kind: Kind, s: Files, ops: seq<Op>): Files
    decreases |ops|
  {
    if ops == [] then s else Run(kind, Step(kind, s, ops[0]), ops[1..])
  }

  /** The buffer ends in a NUL and every offset is within it. */
  predicate Terminated(s: Files) {
    s.msg != [] && s.msg[|s.msg| - 1] == NUL && forall f :: 0 <= f < |s.offsets| ==> s.offsets[f] < |s.msg|
  }

  /** A write is refused or ends before the last byte of the buffer. */
  predicate Fits(s: Files, op: Op) {
    op.Write? && op.f < |s.offsets| ==> |op.data| > |s.msg| || s.offsets[op.f] + |op.data| < |s.msg|
  }

  ghost predicate AllFit(kind: Kind, s: Files, ops: seq<Op>)
    decreases |ops|
  {
    ops != [] ==> Fits(s, ops[0]) && AllFit(kind, Step(kind, s, ops[0]), ops[1..])
  }

  lemma ReadKeepsTerminated(s: Files, f: nat, length: nat)
    requires Terminated(s) && f < |s.offsets|
    ensures Reading(s.msg, s.offsets[f], length) != Overrun
    ensures Reading(s.msg, s.offsets[f], length).offset < |s.msg|
  {
    var offset := s.offsets[f];
    assert s.msg[offset..][|s.msg| - 1 - offset] == NUL;
    OverrunExactly(s.msg, offset, length);
    NulInside(s.msg, offset);
  }

  lemma {:induction false} NulInside(msg: seq<Byte>, i: nat)
    requires i < |msg| && msg[|msg| - 1] == NUL
    ensures NulFrom(msg, i) < |msg|
    decreases |msg| - i
  {
    if msg[i] != NUL { NulInside(msg, i + 1); }
  }

  lemma StepKeepsTerminated(kind: Kind, s: Files, op: Op)
    requires Terminated(s) && Fits(s, op)
    ensures Terminated(Step(kind, s, op))
  {
    match op {
      case Open =>
      case Read(f, length) => if f < |s.offsets| { ReadKeepsTerminated(s, f, length); }
      case Write(f, data) =>
    }
  }

  /** A write that is longer than the buffer changes nothing, for no open file. */
  lemma RefusedWriteChangesNothing(kind: Kind, s: Files, f: nat, data: seq<Byte>, g: nat, length: nat)
    requires f < |s.offsets| && g < |s.offsets| && |data| > |s.msg|
    ensures var s' := Step(kind, s, Write(f, data));
            && |s'.offsets| == |s.offsets| && Text(s'.msg) == Text(s.msg) && s'.offsets[g] == s.offsets[g]
            && Reading(s'.msg, s'.offsets[g], length) == Reading(s.msg, s.offsets[g], length)
  {
  }

  /** A write that is not refused puts its first bytes, as far as they fit, where the writer's offset is; before
      it the proc file is cleared and the device as it was. */
  lemma AcceptedWriteIsThere(kind: Kind, s: Files, f: nat, data: seq<Byte>, k: nat)
    requires f < |s.offsets| && |data| <= |s.msg| && k < |s.msg|
    ensures var s', o := Step(kind, s, Write(f, data)), s.offsets[f];
            && |s'.msg| == |s.msg|
            && s'.msg[k] == if o <= k < o + |data| then data[k - o] else if kind == ProcFile then NUL else s.msg[k]
  {
  }

  /** As long as every write ends before the last byte, no read of any open file leaves the buffer. */
  lemma {:induction false} ReadsStayInside(kind: Kind, s: Files, ops: seq<Op>, f: nat, length: nat)
    requires Terminated(s) && AllFit(kind, s, ops) && f < |Run(kind, s, ops).offsets|
    ensures Reading(Run(kind, s, ops).msg, Run(kind, s, ops).offsets[f], length) != Overrun
    decreases |ops|
  {
    if ops == [] {
      ReadKeepsTerminated(s, f, length);
    } else {
      StepKeepsTerminated(kind, s, ops[0]);
      ReadsStayInside(kind, Step(kind, s, ops[0]), ops[1..], f, length);
    }
  }

  /** And a write that does not is fatal: the writer's next read leaves the buffer, whatever its length. */
  lemma NextReadOverrunsExactly(kind: Kind, s: Files, f: nat, data: seq<Byte>, length: nat)
    requires Terminated(s) && f < |s.offsets|
    ensures var s' := Step(kind, s, Write(f, data));
            |s'.offsets| == |s.offsets|
            && (Reading(s'.msg, s'.offsets[f], length) == Overrun <==> !Fits(s, Write(f, data)))
  {
    if Fits(s, Write(f, data)) {
      StepKeepsTerminated(kind, s, Write(f, data));
      ReadKeepsTerminated(Step(kind, s, Write(f, data)), f, length);
    } else {
      assert OffsetAfter(s.msg, s.offsets[f], data) == |s.msg|;
    }
  }

  // ----- The driver -----

  const EINVAL := 22

  class Driver {
    const kind: Kind
    const msg: array<Byte>

    constructor (kind: Kind, text: seq<Byte>, size: nat)
      requires |text| <= size
      ensures this.kind == kind && fresh(msg) && msg[..] == text + Zeros(size - |text|)
    {
      this.kind := kind;
      msg := new Byte[size](i requires 0 <= i < size => if i < |text| then text[i] else NUL);
    }

    /** device_read, read_proc */
    method Read(offset: nat, length: nat) returns (r: Outcome)
      ensures r == Reading(msg[..], offset, length)
    {
      if offset >= msg.Length {
        return Overrun;
      }
      if msg[offset] == NUL {
        return Data([], 0);
      }
      ghost var end := NulFrom(msg[..], offset);
      FirstNul(msg[..], offset);
      var ptr, left, buffer := offset, length, [];
      while left > 0
        invariant offset <= ptr <= end && left == length - (ptr - offset)
        invariant buffer == msg[offset..ptr]
      {
        if ptr >= msg.Length {
          return Overrun;
        }
        if msg[ptr] == NUL {
          break;
        }
        assert msg[offset..ptr + 1] == msg[offset..ptr] + [msg[ptr]];
        buffer := buffer + [msg[ptr]];
        ptr, left := ptr + 1, left - 1;
      }
      r := Data(buffer, ptr);
    }

    /** device_write, write_proc: the result is the number of bytes taken or an error. */
    method Write(offset: nat, data: seq<Byte>) returns (ret: int, offset': nat)
      modifies msg
      ensures msg[..] == Stored(kind, old(msg[..]), offset, data)
      ensures offset' == OffsetAfter(old(msg[..]), offset, data)
      ensures ret == if |data| > msg.Length then -EINVAL else |Clip(old(msg[..]), offset, data)|
    {
      if |data| > msg.Length {
        return -EINVAL, offset;
      }
      if kind == ProcFile {
        Clear();
      }
      var count := CopyIn(offset, data);
      return count, offset + count;
    }

    /** memset */
    method Clear()
      modifies msg
      ensures msg[..] == Zeros(msg.Length)
    {
      for i := 0 to msg.Length
        invariant forall k :: 0 <= k < i ==> msg[k] == NUL
      {
        msg[i] := NUL;
      }
    }

    /** simple_write_to_buffer */
    method CopyIn(offset: nat, data: seq<Byte>) returns (count: nat)
      modifies msg
      ensures msg[..] == Overwritten(old(msg[..]), offset, data)
      ensures count == |Clip(old(msg[..]), offset, data)|
    {
      if offset >= msg.Length || data == [] {
        return 0;
      }
      count := if |data| > msg.Length - offset then msg.Length - offset else |data|;
      for i := 0 to count
        invariant forall k :: 0 <= k < msg.Length ==>
          msg[k] == if offset <= k < offset + i then data[k - offset] else old(msg[k])
      {
        msg[offset + i] := data[i];
      }
    }
  }
}
