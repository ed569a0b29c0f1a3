/** Random access to a piece over a stream that can only be read forward or opened anew. */
module PieceReader {
  import opened Options

  type Byte = bv8

  const MAX_BURN: nat := 0x10_0000

  /**
   The reader: the next byte Read wants, whether a backing stream is open, and where the reader believes it stands.
   The last field is where the stream really stands.
   */
  datatype Reader = Reader(closed: bool, seqAt: int, open: bool, rAt: int, pos: nat)

  datatype Error = NoError | EndOfFile | OtherError

  /** What the outside does in one call: a failing close, a failing open, a stream that breaks after some bytes. */
  datatype Env = Env(closeFails: bool, openFails: bool, burnBreaksAt: Option<nat>, readBreaksAt: Option<nat>)

  datatype Result = Result(bytes: seq<Byte>, error: Error, burned: nat)

  function Min(a: int, b: int): int { if a < b then a else b }

  /** How many of n bytes the stream delivers from where it stands. */
  function Delivered(data: seq<Byte>, pos: nat, n: nat, breaksAt: Option<nat>): (k: nat)
    ensures k <= n && (k > 0 ==> pos + k <= |data|)
  {
    var left: nat := if pos < |data| then |data| - pos else 0;
    var k := Min(n, left);
    if breaksAt.Some? then Min(k, breaksAt.value) else k
  }

  function Outcome(data: seq<Byte>, pos: nat, n: nat, breaksAt: Option<nat>): Error {
    var k := Delivered(data, pos, n, breaksAt);
    if k == n then NoError else if breaksAt.Some? && breaksAt.value == k then OtherError else EndOfFile
  }

  /** True if the stream has to be opened anew for a read at off. */
  predicate MustReopen(r: Reader, off: nat) { !r.open || r.rAt > off || r.rAt + MAX_BURN < off }

  function Failed(error: Error, burned: nat): Result { Result([], error, burned) }

  /** The first part of a read: bring the stream to a place from which off can be reached. */
  function Position(r: Reader, off: nat, env: Env): (Reader, bool) {
    if !MustReopen(r, off) then (r, true)
    else if r.open && env.closeFails then (r, false)
    else if env.openFails then (r.(open := false, rAt := off), false)
    else (r.(open := true, rAt := off, pos := off), true)
  }

  /** The second part: discard the gap to off. */
  function Burn(q: Reader, data: seq<Byte>, off: nat, env: Env): (Reader, nat, bool) {
    var gap: nat := if off > q.rAt then off - q.rAt else 0;
    var burned := Delivered(data, q.pos, gap, env.burnBreaksAt);
    var s := q.(rAt := q.rAt + burned, pos := q.pos + burned);
    (s, burned, burned == gap && off == s.rAt)
  }

  /** The last part: read. */
  function ReadFull(s: Reader, data: seq<Byte>, n: nat, env: Env, burned: nat): (Reader, Result) {
    var k := Delivered(data, s.pos, n, env.readBreaksAt);
    (s.(rAt := s.rAt + k, pos := s.pos + k),
     Result(if k == 0 then [] else data[s.pos..s.pos + k], Outcome(data, s.pos, n, env.readBreaksAt), burned))
  }

  function ReadAtStep(r: Reader, data: seq<Byte>, off: nat, n: nat, env: Env): (Reader, Result) {
    if r.closed then (r, Failed(OtherError, 0))
    else
      var (q, ready) := Position(r, off, env);
      if !ready then (q, Failed(OtherError, 0))
      else
        var (s, burned, there) := Burn(q, data, off, env);
        if !there then (s, Failed(OtherError, burned)) else ReadFull(s, data, n, env, burned)
  }

  function ReadStep(r: Reader, data: seq<Byte>, n: nat, env: Env): (Reader, Result)
    requires r.seqAt >= 0
  {
    var (q, res) := ReadAtStep(r, data, r.seqAt, n, env);
    (q.(seqAt := q.seqAt + |res.bytes|), res)
  }

  datatype Whence = Start | Current | End | BadWhence

  function SeekStep(r: Reader, data: seq<Byte>, offset: int, whence: Whence): (Reader, Option<int>) {
    if r.closed then (r, None)
    else
      match whence
      case BadWhence => (r, None)
      case Start => (r.(seqAt := offset), Some(offset))
      case Current => (r.(seqAt := r.seqAt + offset), Some(r.seqAt + offset))
      case End => (r.(seqAt := |data| + offset), Some(|data| + offset))
  }

  // ---------- plain random access ----------

  /** The bytes are those of the piece at the offset. */
  predicate BytesAt(data: seq<Byte>, off: nat, bytes: seq<Byte>) {
    bytes == [] || (off + |bytes| <= |data| && bytes == data[off..off + |bytes|])
  }

  /** An open stream stands where the reader believes. */
  predicate InStep(r: Reader) { r.open ==> r.rAt == r.pos }

  /** What a caller of a random-access file may expect of a read of n bytes at off. */
  predicate ReadsRight(data: seq<Byte>, off: nat, n: nat, res: Result) {
    && BytesAt(data, off, res.bytes) && |res.bytes| <= n
    && (res.error.NoError? ==> |res.bytes| == n)
    && (res.error.EndOfFile? ==> off + |res.bytes| >= |data| && |res.bytes| < n)
    && res.burned <= MAX_BURN
  }

  /** A stream that is ready stands at most the limit before the offset. */
  lemma PositionInStep(r: Reader, off: nat, env: Env)
    requires InStep(r)
    ensures var (q, ready) := Position(r, off, env);
      && InStep(q) && q.seqAt == r.seqAt && q.closed == r.closed
      && (ready ==> q.open && q.rAt <= off <= q.rAt + MAX_BURN)
  {
  }

  lemma BurnInStep(q: Reader, data: seq<Byte>, off: nat, env: Env)
    requires InStep(q) && q.open && q.rAt <= off <= q.rAt + MAX_BURN
    ensures var (s, burned, there) := Burn(q, data, off, env);
      && InStep(s) && s.seqAt == q.seqAt && s.closed == q.closed && s.open
      && burned <= MAX_BURN && (there ==> s.pos == off)
  {
  }

  lemma ReadFullRight(s: Reader, data: seq<Byte>, n: nat, env: Env, burned: nat)
    requires InStep(s) && s.open && burned <= MAX_BURN
    ensures var (t, res) := ReadFull(s, data, n, env, burned);
      InStep(t) && ReadsRight(data, s.pos, n, res) && t.seqAt == s.seqAt && t.closed == s.closed
  {
  }

  /** Every read refines random access, whatever the stream does, and keeps the reader in step with its stream. */
  lemma ReadAtRefines(r: Reader, data: seq<Byte>, off: nat, n: nat, env: Env)
    requires InStep(r)
    ensures var (q, res) := ReadAtStep(r, data, off, n, env);
      InStep(q) && ReadsRight(data, off, n, res) && q.seqAt == r.seqAt && q.closed == r.closed
  {
    if !r.closed {
      PositionInStep(r, off, env);
      var (q, ready) := Position(r, off, env);
      if ready {
        BurnInStep(q, data, off, env);
        var (s, burned, there) := Burn(q, data, off, env);
        if there { ReadFullRight(s, data, n, env, burned); }
      }
    }
  }

  /** Without failures a read delivers all there is. */
  lemma ReadAtDelivers(r: Reader, data: seq<Byte>, off: nat, n: nat)
    requires InStep(r) && !r.closed && off <= |data|
    ensures var env := Env(false, false, None, None);
      ReadAtStep(r, data, off, n, env).1.bytes == data[off..Min(off + n, |data|)]
  {
  }

  // ---------- histories ----------

  datatype Op = Read(n: nat, env: Env) | ReadAt(off: nat, m: nat, at: Env) | Seek(offset: int, whence: Whence) | Close

  /** A reader with its past: where it was last put, and what Read returned since. */
  datatype History = History(reader: Reader, from: int, log: seq<Byte>)

  predicate Enabled(h: History, op: Op) { op.Read? ==> h.reader.seqAt >= 0 }

  function Next(h: History, data: seq<Byte>, op: Op): History
    requires Enabled(h, op)
  {
    match op
    case Read(n, env) =>
      var (q, res) := ReadStep(h.reader, data, n, env);
      History(q, h.from, h.log + res.bytes)
    case ReadAt(off, n, env) => h.(reader := ReadAtStep(h.reader, data, off, n, env).0)
    case Seek(offset, whence) =>
      var (q, at) := SeekStep(h.reader, data, offset, whence);
      if at.None? then h else History(q, at.value, [])
    case Close => h.(reader := h.reader.(closed := true, open := false))
  }

  ghost predicate IsHistory(hs: seq<History>, data: seq<Byte>, ops: seq<Op>) {
    && |hs| == |ops| + 1
    && InStep(hs[0].reader) && hs[0].from == hs[0].reader.seqAt == 0 && hs[0].log == []
    && forall k :: 0 <= k < |ops| ==> Enabled(hs[k], ops[k]) && hs[k + 1] == Next(hs[k], data, ops[k])
  }

  /** What Read returned since the last seek is the piece from there on, without gaps or repeats. */
  ghost predicate Sequential(h: History, data: seq<Byte>) {
    && InStep(h.reader)
    && h.reader.seqAt == h.from + |h.log|
    && (h.log == [] || (h.from >= 0 && BytesAt(data, h.from, h.log)))
  }

  lemma BytesAppend(data: seq<Byte>, off: nat, a: seq<Byte>, b: seq<Byte>)
    requires BytesAt(data, off, a) && BytesAt(data, off + |a|, b)
    ensures BytesAt(data, off, a + b)
  {
    if a == [] {
      assert a + b == b;
    } else if b == [] {
      assert a + b == a;
    } else {
      assert a + b == data[off..off + |a + b|];
    }
  }

  lemma NextSequential(h: History, data: seq<Byte>, op: Op)
    requires Sequential(h, data) && Enabled(h, op)
    ensures Sequential(Next(h, data, op), data)
  {
    match op
    case Read(n, env) =>
      ReadAtRefines(h.reader, data, h.reader.seqAt, n, env);
      var bytes := ReadStep(h.reader, data, n, env).1.bytes;
      if h.log != [] { BytesAppend(data, h.from, h.log, bytes); } else { assert h.log + bytes == bytes; }
    case ReadAt(off, n, env) => ReadAtRefines(h.reader, data, off, n, env);
    case Seek(offset, whence) =>
    case Close =>
  }

  /** Over every history, reads since the last seek concatenate to the piece from there on. */
  lemma {:induction false} SequentialReads(hs: seq<History>, data: seq<Byte>, ops: seq<Op>, k: nat)
    requires IsHistory(hs, data, ops) && k <= |ops|
    ensures Sequential(hs[k], data)
  {
    if k > 0 {
      SequentialReads(hs, data, ops, k - 1);
      NextSequential(hs[k - 1], data, ops[k - 1]);
    }
  }

  /**
   Over every history, each read returns the bytes of the piece at the place it asked for, and burns at most the
   limit.
   */
  lemma EveryReadIsRight(hs: seq<History>, data: seq<Byte>, ops: seq<Op>, k: nat)
    requires IsHistory(hs, data, ops) && k < |ops|
    ensures match ops[k]
      case Read(n, env) => ReadsRight(data, hs[k].reader.seqAt, n, ReadStep(hs[k].reader, data, n, env).1)
      case ReadAt(off, n, env) => ReadsRight(data, off, n, ReadAtStep(hs[k].reader, data, off, n, env).1)
      case _ => true
  {
    SequentialReads(hs, data, ops, k);
    match ops[k]
    case Read(n, env) => ReadAtRefines(hs[k].reader, data, hs[k].reader.seqAt, n, env);
    case ReadAt(off, n, env) => ReadAtRefines(hs[k].reader, data, off, n, env);
    case _ =>
  }

  // ---------- the object ----------

  /** The reader object; data stands for the piece its streams are opened on. */
  class PieceReaderObject {
    const data: seq<Byte>
    var closed: bool
    var seqAt: int
    var open: bool
    var rAt: int
    var pos: nat

    ghost function View(): Reader
      reads this
    {
      Reader(closed, seqAt, open, rAt, pos)
    }

    constructor (data: seq<Byte>)
      ensures this.data == data && View() == Reader(false, 0, true, 0, 0)
    {
      this.data := data;
      closed, seqAt, open, rAt, pos := false, 0, true, 0, 0;
    }

    /** Take up to n bytes from the open stream. */
    method Take(n: nat, breaksAt: Option<nat>) returns (bytes: seq<Byte>)
      modifies this`pos
      ensures |bytes| == Delivered(data, old(pos), n, breaksAt) && pos == old(pos) + |bytes|
      ensures bytes == if |bytes| == 0 then [] else data[old(pos)..pos]
    {
      var k := Delivered(data, pos, n, breaksAt);
      bytes := if k == 0 then [] else data[pos..pos + k];
      pos := pos + k;
    }

    /** Close and open the stream where off cannot be reached from where it stands. */
    method PositionStream(off: nat, env: Env) returns (ready: bool)
      modifies this
      ensures (View(), ready) == Position(old(View()), off, env)
    {
      if !open || rAt > off || rAt + MAX_BURN < off {
        if open {
          if env.closeFails {
            return false;
          }
          open := false;
        }
        rAt := off;
        if env.openFails {
          return false;
        }
        open, pos := true, off;
      }
      ready := true;
    }

    method BurnGap(off: nat, env: Env) returns (burned: nat, there: bool)
      modifies this
      ensures (View(), burned, there) == Burn(old(View()), data, off, env)
    {
      burned := 0;
      if off > rAt {
        var gap := off - rAt;
        var skipped := Take(gap, env.burnBreaksAt);
        burned := |skipped|;
        rAt := rAt + burned;
        if burned < gap {
          return burned, false;
        }
      }
      there := off == rAt;
    }

    method ReadAtUnlocked(off: nat, n: nat, env: Env) returns (res: Result)
      modifies this
      ensures (View(), res) == ReadAtStep(old(View()), data, off, n, env)
    {
      if closed {
        return Failed(OtherError, 0);
      }
      var ready := PositionStream(off, env);
      if !ready {
        return Failed(OtherError, 0);
      }
      var burned, there := BurnGap(off, env);
      if !there {
        return Failed(OtherError, burned);
      }
      var at := pos;
      var bytes := Take(n, env.readBreaksAt);
      rAt := rAt + |bytes|;
      res := Result(bytes, Outcome(data, at, n, env.readBreaksAt), burned);
    }

    method Read(n: nat, env: Env) returns (res: Result)
      requires seqAt >= 0
      modifies this
      ensures (View(), res) == ReadStep(old(View()), data, n, env)
    {
      res := ReadAtUnlocked(seqAt, n, env);
      seqAt := seqAt + |res.bytes|;
    }

    method Seek(offset: int, whence: Whence) returns (at: Option<int>)
      modifies this
      ensures (View(), at) == SeekStep(old(View()), data, offset, whence)
    {
      if closed {
        return None;
      }
      match whence {
        case Start => seqAt := offset;
        case Current => seqAt := seqAt + offset;
        case End => seqAt := |data| + offset;
        case BadWhence => return None;
      }
      at := Some(seqAt);
    }
  }
}
