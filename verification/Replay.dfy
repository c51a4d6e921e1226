/**
 The bounded replay buffer of the terminal runner (internal/runner/replay.go).

 The buffer is specified against the whole output history: it always retains the
 longest suffix of that history that satisfies both limits.
 */
module Replay {
  import opened Prelude

  newtype byte = b: int | 0 <= b < 256
  type Bytes = seq<byte>

  /** One output frame: the sequence number and the data of one PTY read. */
  datatype Chunk = Chunk(sequence: nat, data: Bytes)

  /** The fields of the buffer as one value. */
  datatype Buffer = Buffer(maxBytes: int, maxFrames: int, bytes: int, frames: seq<Chunk>, latest: nat)

  // ---------- the specification: suffixes of the whole history ----------

  /** Output is numbered contiguously from 1. */
  predicate Numbered(history: seq<Chunk>) {
    forall i :: 0 <= i < |history| ==> history[i].sequence == i + 1
  }

  function Total(chunks: seq<Chunk>): nat {
    if chunks == [] then 0 else |chunks[0].data| + Total(chunks[1..])
  }

  /** What the limits allow to be kept; nothing is always allowed. */
  predicate Fits(maxBytes: int, maxFrames: int, chunks: seq<Chunk>) {
    chunks == [] || (Total(chunks) <= maxBytes && |chunks| <= maxFrames)
  }

  /** How many of the oldest chunks have to go; `EvictedIsLeast` says that it is the least number that helps. */
  function Evicted(maxBytes: int, maxFrames: int, chunks: seq<Chunk>): (k: nat)
    ensures k <= |chunks|
  {
    if Fits(maxBytes, maxFrames, chunks) then 0 else 1 + Evicted(maxBytes, maxFrames, chunks[1..])
  }

  function Trimmed(maxBytes: int, maxFrames: int, chunks: seq<Chunk>): seq<Chunk> {
    chunks[Evicted(maxBytes, maxFrames, chunks)..]
  }

  /** The buffer holds exactly the longest suffix of `history` within both limits, and counts its bytes. */
  predicate Represents(b: Buffer, history: seq<Chunk>) {
    && Numbered(history)
    && b.latest == |history|
    && b.frames == Trimmed(b.maxBytes, b.maxFrames, history)
    && b.bytes == Total(b.frames)
  }

  // ---------- the operations as functions ----------

  function Append(b: Buffer, data: Bytes): Buffer {
    var all := b.frames + [Chunk(b.latest + 1, data)];
    var kept := Trimmed(b.maxBytes, b.maxFrames, all);
    b.(frames := kept, bytes := Total(kept), latest := b.latest + 1)
  }

  function Bounds(b: Buffer): (nat, nat) {
    if b.frames == [] then (b.latest, b.latest) else (b.frames[0].sequence, b.latest)
  }

  datatype Replayed = Replayed(frames: seq<Chunk>, gap: bool, valid: bool)

  function Newer(chunks: seq<Chunk>, cursor: nat): seq<Chunk> {
    if chunks == [] then []
    else (if chunks[0].sequence > cursor then [chunks[0]] else []) + Newer(chunks[1..], cursor)
  }

  function After(b: Buffer, cursor: nat): Replayed {
    if cursor > b.latest then Replayed([], false, false)
    else if b.frames == [] then Replayed([], cursor < b.latest, true)
    else Replayed(Newer(b.frames, cursor), cursor + 1 < b.frames[0].sequence, true)
  }

  // ---------- lemmas ----------

  /** What is kept fits, and no longer suffix does. */
  lemma {:induction false} EvictedIsLeast(maxBytes: int, maxFrames: int, chunks: seq<Chunk>)
    ensures
      var k := Evicted(maxBytes, maxFrames, chunks);
      && Fits(maxBytes, maxFrames, chunks[k..])
      && forall j :: 0 <= j < k ==> !Fits(maxBytes, maxFrames, chunks[j..])
  {
    assert chunks[0..] == chunks;
    if Fits(maxBytes, maxFrames, chunks) {
    } else {
      EvictedIsLeast(maxBytes, maxFrames, chunks[1..]);
      var k := Evicted(maxBytes, maxFrames, chunks);
      assert chunks[1..][k - 1..] == chunks[k..];
      forall j | 1 <= j < k
        ensures !Fits(maxBytes, maxFrames, chunks[j..])
      {
        assert chunks[1..][j - 1..] == chunks[j..];
      }
    }
  }

  lemma {:induction false} TotalAppend(chunks: seq<Chunk>, c: Chunk)
    ensures Total(chunks + [c]) == Total(chunks) + |c.data|
  {
    if chunks == [] {
      assert [c][1..] == [];
    } else {
      assert (chunks + [c])[1..] == chunks[1..] + [c];
      TotalAppend(chunks[1..], c);
    }
  }

  /** A suffix that does not fit still does not fit after more output. */
  lemma AppendCannotHelp(maxBytes: int, maxFrames: int, chunks: seq<Chunk>, c: Chunk)
    requires !Fits(maxBytes, maxFrames, chunks)
    ensures !Fits(maxBytes, maxFrames, chunks + [c])
  {
    TotalAppend(chunks, c);
  }

  /** Evicting incrementally evicts exactly what evicting from the whole history would. */
  lemma {:induction false} EvictionIsIncremental(maxBytes: int, maxFrames: int, history: seq<Chunk>, c: Chunk)
    ensures
      var k := Evicted(maxBytes, maxFrames, history);
      Evicted(maxBytes, maxFrames, history + [c]) == k + Evicted(maxBytes, maxFrames, history[k..] + [c])
  {
    if Fits(maxBytes, maxFrames, history) {
      assert history[0..] == history;
    } else {
      AppendCannotHelp(maxBytes, maxFrames, history, c);
      EvictionIsIncremental(maxBytes, maxFrames, history[1..], c);
      assert (history + [c])[1..] == history[1..] + [c];
      var k := Evicted(maxBytes, maxFrames, history[1..]);
      assert history[1..][k..] == history[k + 1..];
    }
  }

  /** Whatever is appended, the buffer keeps the longest fitting suffix of the whole history. */
  lemma AppendRepresents(b: Buffer, history: seq<Chunk>, data: Bytes)
    requires Represents(b, history)
    ensures Represents(Append(b, data), history + [Chunk(|history| + 1, data)])
  {
    hide Evicted, Total;
    var c := Chunk(|history| + 1, data);
    var k := Evicted(b.maxBytes, b.maxFrames, history);
    var m := Evicted(b.maxBytes, b.maxFrames, b.frames + [c]);
    EvictionIsIncremental(b.maxBytes, b.maxFrames, history, c);
    assert (history + [c])[k + m..] == (b.frames + [c])[m..];
  }

  lemma {:induction false} NewerIsSuffix(history: seq<Chunk>, start: nat, cursor: nat)
    requires Numbered(history) && start <= |history| && cursor <= |history|
    ensures Newer(history[start..], cursor) == history[Max(start, cursor)..]
    decreases |history| - start
  {
    hide Newer;
    if start == |history| {
      assert history[start..] == [];
      NewerOfNothing(cursor);
    } else {
      NewerStep(history, start, cursor);
      NewerIsSuffix(history, start + 1, cursor);
      if start >= cursor {
        assert history[start..] == [history[start]] + history[start + 1..];
      }
    }
  }

  /** `after` answers every cursor exactly, and reports a gap exactly when something it would have owed is missing. */
  lemma AfterExact(b: Buffer, history: seq<Chunk>, cursor: nat)
    requires Represents(b, history)
    ensures After(b, cursor).valid <==> cursor <= |history|
    ensures cursor <= |history| ==>
      var r := After(b, cursor);
      var start := Evicted(b.maxBytes, b.maxFrames, history);
      && r.frames == history[Max(start, cursor)..]
      && (r.gap <==> r.frames != history[cursor..])
      && (r.gap <==> cursor < start)
  {
    if cursor <= |history| {
      var start := Evicted(b.maxBytes, b.maxFrames, history);
      NewerIsSuffix(history, start, cursor);
      assert |history[cursor..]| == |history| - cursor;
      if b.frames != [] {
        assert b.frames[0] == history[start];
      }
    }
  }

  // ---------- whole runs ----------

  lemma EmptyRepresents(maxBytes: int, maxFrames: int)
    ensures Represents(Empty(maxBytes, maxFrames), [])
  {
  }

  function AppendAll(b: Buffer, chunks: seq<Bytes>): Buffer {
    if chunks == [] then b else Append(AppendAll(b, chunks[..|chunks| - 1]), chunks[|chunks| - 1])
  }

  function Number(chunks: seq<Bytes>): seq<Chunk> {
    seq(|chunks|, i requires 0 <= i < |chunks| => Chunk(i + 1, chunks[i]))
  }

  function Empty(maxBytes: int, maxFrames: int): Buffer { Buffer(maxBytes, maxFrames, 0, [], 0) }

  /** From a new buffer, any number of appends leaves the longest suffix of all output that fits both limits. */
  lemma {:induction false} BufferKeepsLongestSuffix(maxBytes: int, maxFrames: int, chunks: seq<Bytes>)
    ensures Represents(AppendAll(Empty(maxBytes, maxFrames), chunks), Number(chunks))
  {
    hide Represents, Append;
    if chunks == [] {
      assert Number(chunks) == [];
      EmptyRepresents(maxBytes, maxFrames);
    } else {
      var before := chunks[..|chunks| - 1];
      BufferKeepsLongestSuffix(maxBytes, maxFrames, before);
      AppendKeepsLimits(Empty(maxBytes, maxFrames), before);
      AppendRepresents(AppendAll(Empty(maxBytes, maxFrames), before), Number(before), chunks[|chunks| - 1]);
      assert Number(chunks) == Number(before) + [Chunk(|before| + 1, chunks[|chunks| - 1])];
    }
  }

  lemma {:induction false} AppendKeepsLimits(b: Buffer, chunks: seq<Bytes>)
    ensures AppendAll(b, chunks).maxBytes == b.maxBytes && AppendAll(b, chunks).maxFrames == b.maxFrames
  {
    if chunks == [] {
    } else {
      AppendKeepsLimits(b, chunks[..|chunks| - 1]);
    }
  }

  lemma NewerStep(chunks: seq<Chunk>, i: nat, cursor: nat)
    requires i < |chunks|
    ensures Newer(chunks[i..], cursor) ==
      (if chunks[i].sequence > cursor then [chunks[i]] else []) + Newer(chunks[i + 1..], cursor)
  {
    assert chunks[i..][1..] == chunks[i + 1..];
  }

  lemma NewerOfNothing(cursor: nat)
    ensures Newer([], cursor) == []
  {
  }

  /** One round of the eviction loop: dropping the oldest frame of a buffer that is too large. */
  lemma DropOldest(maxBytes: int, maxFrames: int, chunks: seq<Chunk>)
    ensures chunks != [] ==> Total(chunks) == |chunks[0].data| + Total(chunks[1..])
    ensures !Fits(maxBytes, maxFrames, chunks) ==>
      Trimmed(maxBytes, maxFrames, chunks) == Trimmed(maxBytes, maxFrames, chunks[1..])
    ensures Fits(maxBytes, maxFrames, chunks) ==> Trimmed(maxBytes, maxFrames, chunks) == chunks
  {
  }

  // ---------- the buffer object ----------

  class ReplayBuffer {
    const maxBytes: int
    const maxFrames: int
    var bytes: int
    var frames: seq<Chunk>
    var latest: nat

    ghost function Value(): Buffer
      reads this
    {
      Buffer(maxBytes, maxFrames, bytes, frames, latest)
    }

    /** The byte count is exact. */
    ghost predicate Valid()
      reads this
    {
      bytes == Total(frames)
    }

    constructor (maxBytes: int, maxFrames: int)
      ensures Valid() && Value() == Empty(maxBytes, maxFrames)
    {
      this.maxBytes, this.maxFrames := maxBytes, maxFrames;
      bytes, frames, latest := 0, [], 0;
    }

    method AppendData(data: Bytes) returns (frame: Chunk)
      requires Valid()
      modifies this
      ensures Valid()
      ensures frame == Chunk(old(latest) + 1, data)
      ensures Value() == Append(old(Value()), data)
    {
      hide Trimmed, Total;
      latest := latest + 1;
      frame := Chunk(latest, data);
      TotalAppend(frames, frame);
      frames := frames + [frame];
      bytes := bytes + |data|;
      ghost var kept := Trimmed(maxBytes, maxFrames, frames);
      while |frames| > 0 && (bytes > maxBytes || |frames| > maxFrames)
        invariant Valid() && latest == old(latest) + 1
        invariant Trimmed(maxBytes, maxFrames, frames) == kept
        decreases |frames|
      {
        DropOldest(maxBytes, maxFrames, frames);
        bytes := bytes - |frames[0].data|;
        frames := frames[1..];
      }
      DropOldest(maxBytes, maxFrames, frames);
    }

    method ReplayBounds() returns (earliest: nat, newest: nat)
      ensures (earliest, newest) == Bounds(Value())
    {
      if |frames| == 0 {
        return latest, latest;
      }
      return frames[0].sequence, latest;
    }

    method ReplayAfter(cursor: nat) returns (result: seq<Chunk>, gap: bool, valid: bool)
      ensures Replayed(result, gap, valid) == After(Value(), cursor)
    {
      hide Newer;
      if cursor > latest {
        return [], false, false;
      }
      if |frames| == 0 {
        return [], cursor < latest, true;
      }
      gap := cursor + 1 < frames[0].sequence;
      result, valid := [], true;
      assert frames[0..] == frames;
      for i := 0 to |frames|
        invariant Newer(frames, cursor) == result + Newer(frames[i..], cursor)
      {
        NewerStep(frames, i, cursor);
        if frames[i].sequence > cursor {
          result := result + [frames[i]];
        }
      }
      assert frames[|frames|..] == [];
      NewerOfNothing(cursor);
    }
  }
}
