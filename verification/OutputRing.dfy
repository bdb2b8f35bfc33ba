/** The bounded output of a running command, and a reader that polls it. */
module OutputRing {
  import opened Options
  import opened Utf8

  const LIMIT := 64 * 1024

  datatype Chunk = Chunk(sequence: nat, data: seq<Scalar>, bytes: nat)

  /** `chunks` is what is retained, oldest first. */
  datatype Ring = Ring(chunks: seq<Chunk>, outputBytes: int, nextSequence: nat)

  function Total(chunks: seq<Chunk>): nat { if chunks == [] then 0 else chunks[0].bytes + Total(chunks[1..]) }

  ghost predicate Valid(r: Ring) {
    && (forall i :: 0 <= i < |r.chunks| ==> r.chunks[i].bytes == ByteLength(r.chunks[i].data))
    && (forall i :: 0 <= i < |r.chunks| ==> r.chunks[i].sequence == r.nextSequence - |r.chunks| + i)
    && |r.chunks| <= r.nextSequence
    && r.outputBytes == Total(r.chunks)
  }

  // ----- trimming -----

  function Strip(s: seq<Scalar>): seq<Scalar> { if s != [] && s[0] == REPLACEMENT then s[1..] else s }

  /** A chunk without its first `overflow` bytes, as decoded again. */
  function Shorten(c: Chunk, overflow: nat): Chunk
    requires overflow <= ByteLength(c.data)
  {
    LengthIsSize(c.data);
    var shortened := Strip(Lossy(Bytes(c.data)[overflow..]));
    Chunk(c.sequence, shortened, ByteLength(shortened))
  }

  /** The oldest chunks go, whole, while they fit into the overflow; the next one is shortened. */
  function Trim(r: Ring): Ring
    requires Valid(r)
    decreases |r.chunks|
  {
    if r.outputBytes <= LIMIT || r.chunks == [] then r
    else
      var first := r.chunks[0];
      var overflow := r.outputBytes - LIMIT;
      if first.bytes <= overflow then Trim(r.(chunks := r.chunks[1..], outputBytes := r.outputBytes - first.bytes))
      else Replaced(r, Shorten(first, overflow))
  }

  function Replaced(r: Ring, c: Chunk): Ring
    requires r.chunks != []
  {
    r.(chunks := [c] + r.chunks[1..], outputBytes := r.outputBytes - r.chunks[0].bytes + c.bytes)
  }

  function Push(r: Ring, data: seq<Scalar>): Ring {
    var bytes := ByteLength(data);
    Ring(r.chunks + [Chunk(r.nextSequence, data, bytes)], r.outputBytes + bytes, r.nextSequence + 1)
  }

  lemma {:induction false} TotalConcat(a: seq<Chunk>, b: seq<Chunk>)
    ensures Total(a + b) == Total(a) + Total(b)
  {
    if a == [] {
      assert a + b == b;
    } else {
      TotalConcat(a[1..], b);
      assert (a + b)[1..] == a[1..] + b;
    }
  }

  lemma PushIsValid(r: Ring, data: seq<Scalar>)
    requires Valid(r)
    ensures Valid(Push(r, data))
  {
    TotalConcat(r.chunks, [Chunk(r.nextSequence, data, ByteLength(data))]);
  }

  lemma {:induction false} ReplacementBytes(n: nat)
    ensures |Replacements(n)| == n && |Bytes(Replacements(n))| == 3 * n
    ensures n > 0 ==> Replacements(n)[0] == REPLACEMENT && Replacements(n)[1..] == Replacements(n - 1)
  {
    if n > 0 {
      ReplacementBytes(n - 1);
    }
  }

  lemma StripSize(s: seq<Scalar>)
    ensures |Bytes(s)| - 3 <= |Bytes(Strip(s))| <= |Bytes(s)|
  {
    if s != [] { assert Bytes(s) == Encode(s[0]) + Bytes(s[1..]); }
  }

  lemma StripReplacement(j: nat, rest: seq<Scalar>)
    requires j > 0
    ensures Strip(Replacements(j) + rest) == Replacements(j - 1) + rest
  {
    ReplacementBytes(j);
    assert (Replacements(j) + rest)[1..] == Replacements(j - 1) + rest;
  }

  lemma StrippedSize(j: nat, rest: seq<Scalar>)
    requires j <= 3
    ensures j + |Bytes(rest)| - 3 <= |Bytes(Strip(Replacements(j) + rest))| <= j + |Bytes(rest)| + 3
  {
    if j > 0 {
      StripReplacement(j, rest);
      ReplacementBytes(j - 1);
      BytesConcat(Replacements(j - 1), rest);
    } else {
      StripSize(rest);
      assert Replacements(0) + rest == rest;
    }
  }

  /** Cutting through a character leaves up to three bytes of it, each decoded as a replacement of three bytes,
      of which one is stripped: the new size differs from what was asked for by at most three. */
  lemma ShortenedSize(c: Chunk, overflow: nat) returns (k: nat, j: nat)
    requires overflow <= ByteLength(c.data)
    ensures ByteLength(c.data) - overflow - 3 <= Shorten(c, overflow).bytes <= ByteLength(c.data) - overflow + 3
    ensures Shorten(c, overflow).bytes == ByteLength(Shorten(c, overflow).data) && Shorten(c, overflow).sequence == c.sequence
    ensures k <= |c.data| && j <= 3 && Shorten(c, overflow).data == Strip(Replacements(j) + c.data[k..])
    ensures j + ByteLength(c.data[k..]) == ByteLength(c.data) - overflow
  {
    LengthIsSize(c.data);
    k, j := CutAndDecode(c.data, overflow);
    LengthIsSize(c.data[k..]);
    LengthIsSize(Strip(Replacements(j) + c.data[k..]));
    StrippedSize(j, c.data[k..]);
  }

  /** `t` is a valid ring close to the limit, or `r` itself, that keeps the newest chunks of `r`: all but the
      first as they were, and the first perhaps shortened. */
  ghost predicate Trimmed(r: Ring, t: Ring) {
    && Newest(r, t)
    && (t.chunks != [] ==> ShortenedFrom(r.chunks[|r.chunks| - |t.chunks|..], t.chunks[0]))
    && (r.outputBytes >= LIMIT ==> Total(r.chunks[|r.chunks| - |t.chunks|..]) >= LIMIT)
  }

  ghost predicate Newest(r: Ring, t: Ring) {
    && Valid(t) && t.nextSequence == r.nextSequence
    && t.outputBytes <= LIMIT + 3
    && (r.outputBytes >= LIMIT ==> t.outputBytes >= LIMIT - 3)
    && |t.chunks| <= |r.chunks|
    && (forall i :: 1 <= i <= |t.chunks| - 1 ==> t.chunks[i] == r.chunks[|r.chunks| - |t.chunks| + i])
  }

  /** Of what is left of the chunks, the first is as it was, or shortened by what exceeds the limit. */
  ghost predicate ShortenedFrom(left: seq<Chunk>, now: Chunk)
    requires left != []
  {
    var excess := Total(left) - LIMIT;
    if excess <= 0 then now == left[0] else excess < ByteLength(left[0].data) && now == Shorten(left[0], excess)
  }

  lemma ReplacedIsTrimmed(r: Ring, c: Chunk, overflow: nat)
    requires Valid(r) && r.chunks != [] && c.sequence == r.chunks[0].sequence && c.bytes == ByteLength(c.data)
    requires LIMIT - 3 <= r.outputBytes - r.chunks[0].bytes + c.bytes <= LIMIT + 3
    requires 0 < overflow == r.outputBytes - LIMIT < ByteLength(r.chunks[0].data) && c == Shorten(r.chunks[0], overflow)
    ensures Trimmed(r, Replaced(r, c))
  {
    ReplacedIsNewest(r, c);
    assert r.chunks[0..] == r.chunks;
  }

  lemma ReplacedIsNewest(r: Ring, c: Chunk)
    requires Valid(r) && r.chunks != [] && c.sequence == r.chunks[0].sequence && c.bytes == ByteLength(c.data)
    requires LIMIT - 3 <= r.outputBytes - r.chunks[0].bytes + c.bytes <= LIMIT + 3
    ensures Newest(r, Replaced(r, c))
  {
    assert ([c] + r.chunks[1..])[1..] == r.chunks[1..];
  }

  lemma DroppedIsValid(r: Ring)
    requires Valid(r) && r.chunks != []
    ensures Valid(r.(chunks := r.chunks[1..], outputBytes := r.outputBytes - r.chunks[0].bytes))
  {
  }

  lemma TrimDrops(r: Ring)
    requires Valid(r) && r.outputBytes > LIMIT && r.chunks != [] && r.chunks[0].bytes <= r.outputBytes - LIMIT
    ensures var dropped := r.(chunks := r.chunks[1..], outputBytes := r.outputBytes - r.chunks[0].bytes);
            Valid(dropped) && Trim(dropped) == Trim(r)
  {
    DroppedIsValid(r);
  }

  lemma ShortenTrims(r: Ring)
    requires Valid(r) && r.outputBytes > LIMIT && r.chunks != [] && r.chunks[0].bytes > r.outputBytes - LIMIT
    ensures Trimmed(r, Replaced(r, Shorten(r.chunks[0], r.outputBytes - LIMIT)))
  {
    var k, j := ShortenedSize(r.chunks[0], r.outputBytes - LIMIT);
    ReplacedIsTrimmed(r, Shorten(r.chunks[0], r.outputBytes - LIMIT), r.outputBytes - LIMIT);
  }

  lemma UntouchedIsTrimmed(r: Ring)
    requires Valid(r) && (r.outputBytes <= LIMIT || r.chunks == [])
    ensures Trimmed(r, r)
  {
    assert r.chunks[0..] == r.chunks;
  }

  lemma {:induction false} TrimKeepsNewest(r: Ring)
    requires Valid(r)
    ensures Trimmed(r, Trim(r))
    ensures r.outputBytes <= LIMIT ==> Trim(r) == r
    decreases |r.chunks|
  {
    hide Shorten;
    if r.outputBytes <= LIMIT || r.chunks == [] {
      UntouchedIsTrimmed(r);
    } else if r.chunks[0].bytes <= r.outputBytes - LIMIT {
      var dropped := r.(chunks := r.chunks[1..], outputBytes := r.outputBytes - r.chunks[0].bytes);
      TrimDrops(r);
      TrimKeepsNewest(dropped);
      DropThenTrim(r, dropped, Trim(dropped));
    } else {
      ShortenTrims(r);
    }
  }

  lemma DropThenTrim(r: Ring, dropped: Ring, t: Ring)
    requires r.chunks != [] && dropped.chunks == r.chunks[1..] && dropped.nextSequence == r.nextSequence && Trimmed(dropped, t)
    requires dropped.outputBytes >= LIMIT
    ensures Trimmed(r, t)
  {
    hide Shorten;
    assert dropped.chunks[|dropped.chunks| - |t.chunks|..] == r.chunks[|r.chunks| - |t.chunks|..];
  }

  function Append(r: Ring, input: seq<Byte>): Ring
    requires Valid(r)
  {
    PushIsValid(r, Lossy(input));
    Trim(Push(r, Lossy(input)))
  }

  /** After every append: sizes and sequence numbers are right, the total exceeds the limit by at most three,
      and what had to go was the oldest output and no more of it than needed. */
  lemma AppendIsBounded(r: Ring, input: seq<Byte>)
    requires Valid(r)
    ensures Valid(Append(r, input)) && Append(r, input).nextSequence == r.nextSequence + 1
    ensures Append(r, input).outputBytes <= LIMIT + 3
    ensures Trimmed(Push(r, Lossy(input)), Append(r, input))
  {
    PushIsValid(r, Lossy(input));
    TrimKeepsNewest(Push(r, Lossy(input)));
  }

  // ----- reading -----

  function Oldest(r: Ring): nat
    requires Valid(r)
  {
    if r.chunks == [] then r.nextSequence else r.chunks[0].sequence
  }

  function From(chunks: seq<Chunk>, after: nat): seq<Chunk> {
    if chunks == [] then []
    else (if chunks[0].sequence >= after then [chunks[0]] else []) + From(chunks[1..], after)
  }

  /** Of consecutively numbered chunks, those from a number on are a suffix. */
  lemma {:induction false} FromIsSuffix(chunks: seq<Chunk>, first: nat, after: nat)
    requires forall i :: 0 <= i < |chunks| ==> chunks[i].sequence == first + i
    ensures var n := if after <= first then 0 else if after >= first + |chunks| then |chunks| else after - first;
            From(chunks, after) == chunks[n..]
    decreases |chunks|
  {
    if chunks != [] {
      FromIsSuffix(chunks[1..], first + 1, after);
    }
  }

  /** A page holds exactly the retained chunks from `after` on. */
  lemma PageIsSuffix(r: Ring, after: nat)
    requires Valid(r)
    ensures var n := if after <= Oldest(r) then 0 else if after >= r.nextSequence then |r.chunks| else after - Oldest(r);
            n <= |r.chunks| && From(r.chunks, after) == r.chunks[n..]
  {
    FromIsSuffix(r.chunks, r.nextSequence - |r.chunks|, after);
  }

  /** A reader asks for what follows its cursor and moves the cursor to the page's `nextSequence`. */
  datatype Reader = Reader(cursor: nat, received: seq<nat>, missed: set<nat>)

  function Sequences(chunks: seq<Chunk>): seq<nat> { seq(|chunks|, i requires 0 <= i < |chunks| => chunks[i].sequence) }

  function Range(a: nat, b: nat): (r: set<nat>)
    ensures forall s :: s in r <==> a <= s < b
    decreases b - a
  {
    if a >= b then {} else {a} + Range(a + 1, b)
  }

  function Poll(r: Ring, reader: Reader): Reader
    requires Valid(r)
  {
    Reader(r.nextSequence, reader.received + Sequences(From(r.chunks, reader.cursor)), reader.missed + Range(reader.cursor, Oldest(r)))
  }

  /** Every chunk before the cursor was received, once and in order, or is known to have been missed. */
  ghost predicate Following(r: Ring, reader: Reader) {
    && reader.cursor <= r.nextSequence
    && (forall i, j :: 0 <= i < j < |reader.received| ==> reader.received[i] < reader.received[j])
    && (forall i :: 0 <= i < |reader.received| ==> reader.received[i] < reader.cursor && reader.received[i] !in reader.missed)
    && (forall s :: s in reader.missed ==> s < reader.cursor)
    && (forall s :: 0 <= s < reader.cursor ==> s in reader.received || s in reader.missed)
  }

  /** What a page adds: the retained sequence numbers from the cursor on, in order. */
  lemma PageSequences(r: Ring, cursor: nat)
    requires Valid(r) && cursor <= r.nextSequence
    ensures var page := Sequences(From(r.chunks, cursor));
            var start := if cursor <= Oldest(r) then Oldest(r) else cursor;
            |page| == r.nextSequence - start && forall i :: 0 <= i < |page| ==> page[i] == start + i
  {
    PageIsSuffix(r, cursor);
  }

  /** A poll gives each surviving chunk once, and what was trimmed before it could be read is detected. */
  lemma PollFollows(r: Ring, reader: Reader)
    requires Valid(r) && Following(r, reader)
    ensures Following(r, Poll(r, reader)) && Poll(r, reader).cursor == r.nextSequence
    ensures Poll(r, reader).missed == reader.missed <==> Oldest(r) <= reader.cursor
  {
    PageSequences(r, reader.cursor);
    ReceivesPage(r, reader, Sequences(From(r.chunks, reader.cursor)));
    assert Oldest(r) > reader.cursor ==> reader.cursor in Range(reader.cursor, Oldest(r)) && reader.cursor !in reader.missed;
  }

  lemma ReceivesPage(r: Ring, reader: Reader, page: seq<nat>)
    requires Following(r, reader) && Valid(r)
    requires var start := if reader.cursor <= Oldest(r) then Oldest(r) else reader.cursor;
             |page| == r.nextSequence - start && forall i :: 0 <= i < |page| ==> page[i] == start + i
    ensures Following(r, Reader(r.nextSequence, reader.received + page, reader.missed + Range(reader.cursor, Oldest(r))))
  {
    var start := if reader.cursor <= Oldest(r) then Oldest(r) else reader.cursor;
    forall s | start <= s < r.nextSequence ensures s in reader.received + page {
      assert page[s - start] == s;
    }
  }

  lemma AppendFollows(r: Ring, reader: Reader, input: seq<Byte>)
    requires Valid(r) && Following(r, reader)
    ensures Valid(Append(r, input)) && Following(Append(r, input), reader)
  {
    AppendIsBounded(r, input);
  }

  datatype Step = Input(bytes: seq<Byte>) | Look

  /** Output arrives and the reader polls, in any order. */
  ghost predicate Leads(r: Ring, reader: Reader, steps: seq<Step>, r': Ring, reader': Reader)
    decreases |steps|
  {
    && Valid(r)
    && if steps == [] then r' == r && reader' == reader
       else if steps[0].Input? then Leads(Append(r, steps[0].bytes), reader, steps[1..], r', reader')
       else Leads(r, Poll(r, reader), steps[1..], r', reader')
  }

  lemma {:induction false} ReaderFollows(r: Ring, reader: Reader, steps: seq<Step>, r': Ring, reader': Reader)
    requires Following(r, reader) && Leads(r, reader, steps, r', reader')
    ensures Valid(r') && Following(r', reader')
    decreases |steps|
  {
    if steps != [] {
      if steps[0].Input? {
        AppendFollows(r, reader, steps[0].bytes);
        ReaderFollows(Append(r, steps[0].bytes), reader, steps[1..], r', reader');
      } else {
        PollFollows(r, reader);
        ReaderFollows(r, Poll(r, reader), steps[1..], r', reader');
      }
    }
  }

  // ----- the operation -----

  class OutputBuffer {
    var chunks: seq<Chunk>
    var outputBytes: int
    var nextSequence: nat

    ghost function State(): Ring reads this { Ring(chunks, outputBytes, nextSequence) }

    constructor ()
      ensures State() == Ring([], 0, 0) && Valid(State())
    {
      chunks, outputBytes, nextSequence := [], 0, 0;
    }

    method AppendBytes(input: seq<Byte>) returns (data: seq<Scalar>)
      requires Valid(State())
      modifies this
      ensures data == Lossy(input)
      ensures Valid(old(State())) && State() == Append(old(State()), input) && Valid(State())
    {
      data := Lossy(input);
      PushIsValid(State(), data);
      AppendIsBounded(State(), input);
      var bytes := ByteLength(data);
      chunks := chunks + [Chunk(nextSequence, data, bytes)];
      nextSequence := nextSequence + 1;
      outputBytes := outputBytes + bytes;
      TrimOldest();
    }

    method TrimOldest()
      requires Valid(State())
      modifies this
      ensures Valid(old(State())) && State() == Trim(old(State()))
    {
      DropWholeChunks();
      if outputBytes > LIMIT && chunks != [] {
        ShortenFirst(outputBytes - LIMIT);
      }
    }

    method DropWholeChunks()
      requires Valid(State())
      modifies this`chunks, this`outputBytes
      ensures Valid(State()) && Valid(old(State())) && Trim(State()) == Trim(old(State()))
      ensures outputBytes > LIMIT && chunks != [] ==> chunks[0].bytes > outputBytes - LIMIT
    {
      while outputBytes > LIMIT && chunks != [] && chunks[0].bytes <= outputBytes - LIMIT
        invariant Valid(State()) && Trim(State()) == Trim(old(State()))
        decreases |chunks|
      {
        TrimDrops(State());
        outputBytes := outputBytes - chunks[0].bytes;
        chunks := chunks[1..];
      }
    }

    method ShortenFirst(overflow: nat)
      requires Valid(State()) && chunks != [] && overflow <= chunks[0].bytes
      modifies this
      ensures old(chunks) != [] && overflow <= ByteLength(old(chunks)[0].data)
      ensures State() == Replaced(old(State()), Shorten(old(chunks)[0], overflow))
    {
      var first := chunks[0];
      LengthIsSize(first.data);
      var shortened := Strip(Lossy(Bytes(first.data)[overflow..]));
      var bytes := ByteLength(shortened);
      outputBytes := outputBytes - first.bytes;
      chunks := [Chunk(first.sequence, shortened, bytes)] + chunks[1..];
      outputBytes := outputBytes + bytes;
    }

    method Output(after: nat) returns (oldest: nat, next: nat, page: seq<Chunk>)
      requires Valid(State())
      ensures oldest == Oldest(State()) && next == nextSequence && page == From(chunks, after)
    {
      oldest := if chunks == [] then nextSequence else chunks[0].sequence;
      next := nextSequence;
      page := From(chunks, after);
    }
  }
}
