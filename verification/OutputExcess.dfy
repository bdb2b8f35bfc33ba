/** Exactly how much the ring retains, and so exactly when it exceeds its limit. */
module OutputExcess {
  import opened Options
  import opened Utf8
  import opened OutputRing

  /** How many bytes are left of the character that byte `n` falls into; none at a character boundary. */
  function Left(s: seq<Scalar>, n: nat): nat
    requires n <= ByteLength(s)
  {
    if n == 0 then 0 else if n < Width(s[0]) then Width(s[0]) - n else Left(s[1..], n - Width(s[0]))
  }

  /** The characters that begin at or after byte `n`. */
  function After(s: seq<Scalar>, n: nat): seq<Scalar>
    requires n <= ByteLength(s)
  {
    if n == 0 then s else if n < Width(s[0]) then s[1..] else After(s[1..], n - Width(s[0]))
  }

  lemma {:induction false} LeftAndAfter(s: seq<Scalar>, n: nat)
    requires n <= ByteLength(s)
    ensures Left(s, n) <= 3 && n + Left(s, n) + ByteLength(After(s, n)) == ByteLength(s)
  {
    if n > 0 && n >= Width(s[0]) {
      LeftAndAfter(s[1..], n - Width(s[0]));
    }
  }

  lemma BytesFirst(s: seq<Scalar>)
    requires s != []
    ensures Bytes(s) == Encode(s[0]) + Bytes(s[1..]) && |Encode(s[0])| == Width(s[0])
  {
  }

  lemma DropFromConcat(a: seq<Byte>, b: seq<Byte>, n: nat)
    requires n <= |a| + |b|
    ensures (a + b)[n..] == if n < |a| then a[n..] + b else b[n - |a|..]
  {
  }

  /** An encoding cut at byte `n` decodes to a replacement for each byte left of the character that was cut, and then
      the characters after it. */
  lemma {:induction false} CutDecodesTo(s: seq<Scalar>, n: nat)
    requires n <= ByteLength(s)
    ensures n <= |Bytes(s)| && Lossy(Bytes(s)[n..]) == Replacements(Left(s, n)) + After(s, n)
  {
    LengthIsSize(s);
    if n == 0 {
      LossyRoundTrip(s);
      assert Replacements(0) + s == s && Bytes(s)[0..] == Bytes(s);
    } else {
      BytesFirst(s);
      DropFromConcat(Encode(s[0]), Bytes(s[1..]), n);
      if n < Width(s[0]) {
        RestIsReplaced(s[0], n, s[1..]);
      } else {
        CutDecodesTo(s[1..], n - Width(s[0]));
      }
    }
  }

  /** What stripping one replacement changes: the size wanted, plus two for each byte left of a cut character and
      minus three for the replacement stripped, whether decoding put it there or the text did. */
  function Adjustment(s: seq<Scalar>, n: nat): int
    requires n <= ByteLength(s)
  {
    if Left(s, n) > 0 then 2 * Left(s, n) - 3
    else if After(s, n) != [] && After(s, n)[0] == REPLACEMENT then -3
    else 0
  }

  lemma {:induction false} ReplacementLength(n: nat, rest: seq<Scalar>)
    ensures ByteLength(Replacements(n) + rest) == 3 * n + ByteLength(rest)
  {
    if n == 0 {
      assert Replacements(0) + rest == rest;
    } else {
      ReplacementLength(n - 1, rest);
      ReplacedOnce(n - 1, rest);
      assert ([REPLACEMENT] + (Replacements(n - 1) + rest))[1..] == Replacements(n - 1) + rest;
    }
  }

  lemma StrippedExactly(j: nat, rest: seq<Scalar>)
    ensures ByteLength(Strip(Replacements(j) + rest)) ==
            ByteLength(rest) + (if j > 0 then 3 * j - 3 else if rest != [] && rest[0] == REPLACEMENT then -3 else 0)
  {
    hide Strip;
    if j > 0 {
      StripReplacement(j, rest);
      ReplacementLength(j - 1, rest);
    } else {
      assert Replacements(0) + rest == rest;
      StripPlain(rest);
    }
  }

  lemma StripPlain(s: seq<Scalar>)
    ensures ByteLength(Strip(s)) == ByteLength(s) - if s != [] && s[0] == REPLACEMENT then 3 else 0
  {
  }

  lemma ShortenIsExact(c: Chunk, overflow: nat)
    requires overflow <= ByteLength(c.data)
    ensures Shorten(c, overflow).bytes == ByteLength(c.data) - overflow + Adjustment(c.data, overflow)
  {
    CutDecodesTo(c.data, overflow);
    LeftAndAfter(c.data, overflow);
    StrippedExactly(Left(c.data, overflow), After(c.data, overflow));
  }

  // ----- the whole ring -----

  /** The text a ring retains. */
  function Text(chunks: seq<Chunk>): seq<Scalar> { if chunks == [] then [] else chunks[0].data + Text(chunks[1..]) }

  lemma {:induction false} LeftOfConcat(a: seq<Scalar>, b: seq<Scalar>, n: nat)
    requires n <= ByteLength(a) + ByteLength(b)
    ensures ByteLength(a + b) == ByteLength(a) + ByteLength(b)
    ensures Left(a + b, n) == if n < ByteLength(a) then Left(a, n) else Left(b, n - ByteLength(a))
  {
    if a == [] {
      assert a + b == b;
    } else {
      assert (a + b)[1..] == a[1..] + b;
      LeftOfConcat(a[1..], b, if n < Width(a[0]) then 0 else n - Width(a[0]));
    }
  }

  lemma {:induction false} TextSize(chunks: seq<Chunk>)
    requires forall i :: 0 <= i < |chunks| ==> chunks[i].bytes == ByteLength(chunks[i].data)
    ensures ByteLength(Text(chunks)) == Total(chunks)
  {
    if chunks != [] {
      TextSize(chunks[1..]);
      LeftOfConcat(chunks[0].data, Text(chunks[1..]), 0);
    }
  }

  /** What remains of a ring over the limit, by the character that the first byte to be retained belongs to. */
  ghost predicate Exact(r: Ring, t: Ring)
    requires r.outputBytes > LIMIT && r.outputBytes == ByteLength(Text(r.chunks))
  {
    var j := Left(Text(r.chunks), r.outputBytes - LIMIT);
    && j <= 3
    && (j > 0 ==> t.outputBytes == LIMIT + 2 * j - 3)
    && (j == 0 ==> t.outputBytes == LIMIT || t.outputBytes == LIMIT - 3)
  }

  lemma SizesAgree(r: Ring)
    requires Valid(r)
    ensures r.outputBytes == ByteLength(Text(r.chunks))
  {
    TextSize(r.chunks);
  }

  /** Whole chunks that go do not change which character is cut. */
  lemma ExactWithoutFirst(r: Ring, dropped: Ring, t: Ring)
    requires Valid(r) && r.outputBytes > LIMIT && r.chunks != [] && r.chunks[0].bytes <= r.outputBytes - LIMIT
    requires Valid(dropped) && dropped.chunks == r.chunks[1..] && dropped.outputBytes == r.outputBytes - r.chunks[0].bytes
    requires if dropped.outputBytes > LIMIT then dropped.outputBytes == ByteLength(Text(dropped.chunks)) && Exact(dropped, t) else t == dropped
    ensures r.outputBytes == ByteLength(Text(r.chunks)) && Exact(r, t)
  {
    SizesAgree(r);
    SizesAgree(dropped);
    LeftOfConcat(r.chunks[0].data, Text(dropped.chunks), r.outputBytes - LIMIT);
  }

  lemma ExactWithFirst(r: Ring, t: Ring)
    requires Valid(r) && r.outputBytes > LIMIT && r.chunks != [] && r.chunks[0].bytes > r.outputBytes - LIMIT
    requires var j := Left(r.chunks[0].data, r.outputBytes - LIMIT);
             j <= 3 && (j > 0 ==> t.outputBytes == LIMIT + 2 * j - 3) && (j == 0 ==> t.outputBytes == LIMIT || t.outputBytes == LIMIT - 3)
    ensures r.outputBytes == ByteLength(Text(r.chunks)) && Exact(r, t)
  {
    SizesAgree(r);
    TextSize(r.chunks[1..]);
    LeftOfConcat(r.chunks[0].data, Text(r.chunks[1..]), r.outputBytes - LIMIT);
  }

  lemma {:induction false} TrimIsExact(r: Ring)
    requires Valid(r) && r.outputBytes > LIMIT
    ensures r.outputBytes == ByteLength(Text(r.chunks)) && Exact(r, Trim(r))
    decreases |r.chunks|
  {
    hide Lossy;
    if r.chunks[0].bytes <= r.outputBytes - LIMIT {
      TrimDrops(r);
      var dropped := r.(chunks := r.chunks[1..], outputBytes := r.outputBytes - r.chunks[0].bytes);
      if dropped.outputBytes > LIMIT { TrimIsExact(dropped); } else { TrimKeepsNewest(dropped); }
      ExactWithoutFirst(r, dropped, Trim(dropped));
    } else {
      ShortenLeaves(r, r.outputBytes - LIMIT);
      ExactWithFirst(r, Trim(r));
    }
  }

  lemma ShortenLeaves(r: Ring, overflow: nat)
    requires Valid(r) && r.chunks != [] && r.outputBytes == LIMIT + overflow && overflow < r.chunks[0].bytes
    ensures var t, j := Replaced(r, Shorten(r.chunks[0], overflow)), Left(r.chunks[0].data, overflow);
            && j <= 3
            && (j > 0 ==> t.outputBytes == LIMIT + 2 * j - 3)
            && (j == 0 ==> t.outputBytes == LIMIT || t.outputBytes == LIMIT - 3)
  {
    ShortenIsExact(r.chunks[0], overflow);
    LeftAndAfter(r.chunks[0].data, overflow);
  }

  /** After an append the ring is over its limit exactly when it had to be cut and two or three bytes were left of
      the character that was cut through; it is then over by one or three bytes. */
  lemma ExceedsExactlyWhen(r: Ring, input: seq<Byte>)
    requires Valid(r)
    ensures var p, t := Push(r, Lossy(input)), Append(r, input);
            && p.outputBytes == ByteLength(Text(p.chunks))
            && (p.outputBytes <= LIMIT ==> t.outputBytes == p.outputBytes)
            && (p.outputBytes > LIMIT ==> Exact(p, t))
            && (t.outputBytes > LIMIT <==> p.outputBytes > LIMIT && Left(Text(p.chunks), p.outputBytes - LIMIT) >= 2)
  {
    PushIsValid(r, Lossy(input));
    TrimmedExactly(Push(r, Lossy(input)));
  }

  lemma TrimmedExactly(p: Ring)
    requires Valid(p)
    ensures p.outputBytes == ByteLength(Text(p.chunks))
    ensures p.outputBytes <= LIMIT ==> Trim(p) == p
    ensures p.outputBytes > LIMIT ==> Exact(p, Trim(p)) && (Trim(p).outputBytes > LIMIT <==> Left(Text(p.chunks), p.outputBytes - LIMIT) >= 2)
  {
    hide Shorten;
    SizesAgree(p);
    if p.outputBytes > LIMIT { TrimIsExact(p); }
  }

  // ----- the text that is kept -----

  lemma {:induction false} AfterOfConcat(a: seq<Scalar>, b: seq<Scalar>, n: nat)
    requires n <= ByteLength(a) + ByteLength(b)
    ensures ByteLength(a + b) == ByteLength(a) + ByteLength(b)
    ensures After(a + b, n) == if n < ByteLength(a) then After(a, n) + b else After(b, n - ByteLength(a))
  {
    if a == [] {
      assert a + b == b;
    } else {
      assert (a + b)[1..] == a[1..] + b;
      if n > 0 { AfterOfConcat(a[1..], b, if n < Width(a[0]) then 0 else n - Width(a[0])); } else { AfterOfConcat(a[1..], b, 0); }
    }
  }

  /** The text from byte `n` on, with a replacement less than there are bytes left of the character cut through; where none
      is, the text may lose a replacement that it begins with. */
  ghost predicate Kept(text: seq<Scalar>, n: nat, kept: seq<Scalar>)
    requires n <= ByteLength(text)
  {
    LeftOver(Left(text, n), After(text, n), kept)
  }

  ghost predicate LeftOver(j: nat, rest: seq<Scalar>, kept: seq<Scalar>) {
    || kept == Replacements(if j == 0 then 0 else j - 1) + rest
    || (j == 0 && rest != [] && rest[0] == REPLACEMENT && kept == rest[1..])
  }

  lemma StripLeaves(j: nat, rest: seq<Scalar>)
    ensures LeftOver(j, rest, Strip(Replacements(j) + rest))
  {
    if j > 0 { StripReplacement(j, rest); } else { assert Replacements(0) + rest == rest; }
  }

  lemma ShortenKeeps(c: Chunk, overflow: nat)
    requires overflow <= ByteLength(c.data)
    ensures Kept(c.data, overflow, Shorten(c, overflow).data)
  {
    hide Lossy, LeftOver;
    CutDecodesTo(c.data, overflow);
    StripLeaves(Left(c.data, overflow), After(c.data, overflow));
  }

  lemma KeptOfConcat(a: seq<Scalar>, b: seq<Scalar>, n: nat, kept: seq<Scalar>)
    requires n < ByteLength(a) && Kept(a, n, kept)
    ensures n <= ByteLength(a + b) && Kept(a + b, n, kept + b)
  {
    LeftOfConcat(a, b, n);
    AfterOfConcat(a, b, n);
    var j, rest := Left(a, n), After(a, n);
    var marks := Replacements(if j == 0 then 0 else j - 1);
    assert marks + rest + b == marks + (rest + b);
    if rest != [] { assert (rest + b)[1..] == rest[1..] + b; }
  }

  lemma TextOfFirst(chunks: seq<Chunk>)
    requires chunks != []
    ensures Text(chunks) == chunks[0].data + Text(chunks[1..])
  {
  }

  lemma DropKeeps(a: seq<Scalar>, b: seq<Scalar>, n: nat, kept: seq<Scalar>)
    requires ByteLength(a) <= n <= ByteLength(a) + ByteLength(b) && Kept(b, n - ByteLength(a), kept)
    ensures n <= ByteLength(a + b) && Kept(a + b, n, kept)
  {
    LeftOfConcat(a, b, n);
    AfterOfConcat(a, b, n);
  }

  lemma NothingCut(text: seq<Scalar>)
    ensures Kept(text, 0, text)
  {
    assert Replacements(0) + text == text;
  }

  /** The text of what is left when the oldest chunks go and the next one is shortened by what still exceeds the limit. */
  lemma ShortenedText(left: seq<Chunk>, now: Chunk)
    requires left != [] && LIMIT <= Total(left) == ByteLength(Text(left)) && ShortenedFrom(left, now)
    ensures Kept(Text(left), Total(left) - LIMIT, now.data + Text(left[1..]))
  {
    hide Lossy;
    var excess := Total(left) - LIMIT;
    if excess == 0 {
      NothingCut(Text(left));
    } else {
      ShortenKeeps(left[0], excess);
      KeptOfConcat(left[0].data, Text(left[1..]), excess, now.data);
    }
  }

  lemma {:induction false} TextConcat(a: seq<Chunk>, b: seq<Chunk>)
    ensures Text(a + b) == Text(a) + Text(b)
  {
    if a == [] {
      assert a + b == b;
    } else {
      assert (a + b)[1..] == a[1..] + b;
      TextConcat(a[1..], b);
    }
  }

  lemma PushText(r: Ring, data: seq<Scalar>)
    ensures Text(Push(r, data).chunks) == Text(r.chunks) + data
  {
    var last := [Chunk(r.nextSequence, data, ByteLength(data))];
    TextConcat(r.chunks, last);
    TextOfFirst(last);
    assert last[1..] == [] && data + [] == data;
  }

  /** Trimming leaves a text within the limit, or what remains when the first bytes over the limit are cut off. */
  lemma TrimmedText(p: Ring)
    requires Valid(p)
    ensures var text := Text(p.chunks);
            if ByteLength(text) <= LIMIT then Text(Trim(p).chunks) == text else Kept(text, ByteLength(text) - LIMIT, Text(Trim(p).chunks))
  {
    hide Shorten, LeftOver;
    SizesAgree(p);
    TrimKeepsNewest(p);
    if p.outputBytes > LIMIT { TrimmedKeeps(p, Trim(p)); }
  }

  lemma TrimmedKeeps(p: Ring, t: Ring)
    requires Valid(p) && p.outputBytes > LIMIT && Trimmed(p, t)
    ensures p.outputBytes == ByteLength(Text(p.chunks)) && Kept(Text(p.chunks), p.outputBytes - LIMIT, Text(t.chunks))
  {
    hide Shorten, Kept;
    var k := |p.chunks| - |t.chunks|;
    var gone, left := p.chunks[..k], p.chunks[k..];
    assert p.chunks == gone + left;
    TextConcat(gone, left);
    TotalConcat(gone, left);
    TextSize(p.chunks);
    TextSize(gone);
    TextSize(left);
    assert t.chunks[1..] == left[1..];
    TextOfFirst(t.chunks);
    ShortenedText(left, t.chunks[0]);
    DropKeeps(Text(gone), Text(left), p.outputBytes - LIMIT, Text(t.chunks));
  }

  /** What a ring retains after an append is the text it had followed by the decoded output, or, beyond the limit, what is
      left of that when the first bytes over the limit are cut off. */
  lemma AppendKeepsText(r: Ring, input: seq<Byte>)
    requires Valid(r)
    ensures var text, kept := Text(r.chunks) + Lossy(input), Text(Append(r, input).chunks);
            if ByteLength(text) <= 65536 then kept == text else Kept(text, ByteLength(text) - 65536, kept)
  {
    var p := Push(r, Lossy(input));
    PushText(r, Lossy(input));
    PushIsValid(r, Lossy(input));
    TrimmedText(p);
  }

  // ----- a ring that is over by three -----

  function Letters(n: nat): seq<Scalar> { if n == 0 then [] else [0x61] + Letters(n - 1) }

  lemma {:induction false} LettersSize(n: nat)
    ensures ByteLength(Letters(n)) == n
  {
    if n > 0 {
      LettersSize(n - 1);
    }
  }

  /** An empty ring that is given one character of four bytes and then ASCII, one byte too many in all, keeps three
      bytes more than its limit. */
  lemma OverByThree()
    ensures var r := Ring([], 0, 0);
            Valid(r) && Append(r, Bytes([0x10000] + Letters(LIMIT - 3))).outputBytes == LIMIT + 3
  {
    var r, s := Ring([], 0, 0), [0x10000 as Scalar] + Letters(LIMIT - 3);
    LettersSize(LIMIT - 3);
    assert s[1..] == Letters(LIMIT - 3);
    LossyRoundTrip(s);
    ExceedsExactlyWhen(r, Bytes(s));
    OneChunk(s);
  }

  lemma OneChunk(s: seq<Scalar>)
    ensures Push(Ring([], 0, 0), s) == Ring([Chunk(0, s, ByteLength(s))], ByteLength(s), 1) && Text([Chunk(0, s, ByteLength(s))]) == s
  {
    var chunks := [Chunk(0, s, ByteLength(s))];
    assert chunks[1..] == [] && Text(chunks) == s + [];
  }
}
