/** The two truncations of text to a number of UTF-8 bytes.  A text is a sequence of UTF-16 code units, in which
    a surrogate without its partner is encoded as the replacement character. */
module Truncation {
  import opened Options
  import opened Utf8

  type Unit = x: int | 0 <= x < 0x10000

  predicate High(u: Unit) { 0xD800 <= u < 0xDC00 }
  predicate Low(u: Unit) { 0xDC00 <= u < 0xE000 }

  function Pair(h: Unit, l: Unit): Scalar
    requires High(h) && Low(l)
  {
    var a: int, b: int := h, l;
    0x10000 + (a - 0xD800) * 0x400 + (b - 0xDC00)
  }

  /** The characters of a text. */
  function Scalars(s: seq<Unit>): seq<Scalar> {
    if s == [] then []
    else if High(s[0]) && |s| > 1 && Low(s[1]) then [Pair(s[0], s[1])] + Scalars(s[2..])
    else if High(s[0]) || Low(s[0]) then [REPLACEMENT] + Scalars(s[1..])
    else [s[0]] + Scalars(s[1..])
  }

  function Size(s: seq<Unit>): nat { |Bytes(Scalars(s))| }

  function Units(c: Scalar): (r: seq<Unit>)
    ensures 1 <= |r| <= 2
  {
    if c < 0x10000 then [c]
    else
      var x: int := c - 0x10000;
      [0xD800 + x / 0x400, 0xDC00 + x % 0x400]
  }

  function Text(s: seq<Scalar>): seq<Unit> { if s == [] then [] else Units(s[0]) + Text(s[1..]) }

  lemma TextSplits(s: seq<Scalar>, rest: seq<Unit>)
    requires s != []
    ensures Text(s) + rest == Units(s[0]) + (Text(s[1..]) + rest)
  {
  }

  lemma FirstAndRest(s: seq<Scalar>, t: seq<Scalar>)
    requires s != []
    ensures [s[0]] + (s[1..] + t) == s + t
  {
  }

  lemma {:induction false} TextRoundTrip(s: seq<Scalar>, rest: seq<Unit>)
    ensures Scalars(Text(s) + rest) == s + Scalars(rest)
  {
    if s == [] {
      assert Text(s) + rest == rest && s + Scalars(rest) == Scalars(rest);
    } else {
      var tail := Text(s[1..]) + rest;
      calc {
        Scalars(Text(s) + rest);
      == { TextSplits(s, rest); }
        Scalars(Units(s[0]) + tail);
      == { UnitsFirst(s[0], tail); }
        [s[0]] + Scalars(tail);
      == { TextRoundTrip(s[1..], rest); }
        [s[0]] + (s[1..] + Scalars(rest));
      == { FirstAndRest(s, Scalars(rest)); }
        s + Scalars(rest);
      }
    }
  }

  lemma UnitsFirst(c: Scalar, rest: seq<Unit>)
    ensures Scalars(Units(c) + rest) == [c] + Scalars(rest)
  {
    var u := Units(c) + rest;
    if c < 0x10000 {
      assert u[1..] == rest;
    } else {
      var x: int := c - 0x10000;
      assert 0 <= x / 0x400 < 0x400 && x == x / 0x400 * 0x400 + x % 0x400;
      assert u[2..] == rest && Pair(u[0], u[1]) == c;
    }
  }

  // ----- backing off to a character boundary -----

  const MARKER: seq<Unit> := [0x0A, 0x2026]

  lemma MarkerSize()
    ensures Scalars(MARKER) == [0x0A, 0x2026] && Size(MARKER) == 4
  {
    assert MARKER[1..] == [0x2026] && MARKER[1..][1..] == [];
    assert Scalars(MARKER) == [0x0A] + ([0x2026] + []);
    assert Bytes([0x0A, 0x2026]) == Encode(0x0A) + (Encode(0x2026) + Bytes([])) by {
      assert [0x0A as Scalar, 0x2026][1..] == [0x2026] && [0x2026 as Scalar][1..] == [];
    }
  }

  const BOM: Scalar := 0xFEFF

  /** The strict decoder drops a byte order mark at the beginning. */
  function WithoutMark(s: seq<Scalar>): seq<Scalar> { if s != [] && s[0] == BOM then s[1..] else s }

  function Decoded(b: seq<Byte>): Option<seq<Unit>> {
    if Strict(b).None? then None else Some(Text(WithoutMark(Strict(b).value)))
  }

  /** The first `k` characters of `value`, marked as cut. */
  function Cut(value: seq<Unit>, k: nat): seq<Unit>
    requires k <= |Scalars(value)|
  {
    Text(WithoutMark(Scalars(value)[..k])) + MARKER
  }

  lemma CutSize(value: seq<Unit>, k: nat)
    requires k <= |Scalars(value)|
    ensures Size(Cut(value, k)) == |Bytes(WithoutMark(Scalars(value)[..k]))| + 4
  {
    var s := WithoutMark(Scalars(value)[..k]);
    TextRoundTrip(s, MARKER);
    MarkerSize();
    BytesConcat(s, Scalars(MARKER));
  }

  lemma WithoutMarkSize(s: seq<Scalar>)
    ensures |Bytes(WithoutMark(s))| == |Bytes(s)| - if s != [] && s[0] == BOM then 3 else 0
  {
    if s != [] && s[0] == BOM { assert Bytes(s) == Encode(s[0]) + Bytes(s[1..]); }
  }

  lemma BytesOfSome(s: seq<Scalar>)
    ensures |Bytes(s)| >= |s|
  {
    if s != [] { BytesOfSome(s[1..]); }
  }

  lemma CutFits(value: seq<Unit>, k: nat)
    requires k <= |Scalars(value)|
    ensures |Bytes(Scalars(value)[..k])| + 1 <= Size(Cut(value, k)) <= |Bytes(Scalars(value)[..k])| + 4
  {
    CutSize(value, k);
    WithoutMarkSize(Scalars(value)[..k]);
  }

  lemma NothingCut(value: seq<Unit>)
    ensures Cut(value, 0) == MARKER && Size(MARKER) == 4
  {
    MarkerSize();
    assert Text(WithoutMark(Scalars(value)[..0])) == [];
  }

  /** `k` characters are as many as leave room for the marker, or up to three bytes fewer. */
  ghost predicate Close(value: seq<Unit>, maximum: nat, k: nat) {
    k <= |Scalars(value)| && maximum - 3 <= |Bytes(Scalars(value)[..k])| + 4 <= maximum
  }

  /** Backs off from `end` until what precedes it decodes. */
  method BackOff(encoded: seq<Byte>, end: nat, ghost s: seq<Scalar>) returns (r: Option<seq<Unit>>, ghost k: nat)
    requires encoded == Bytes(s) && end <= |encoded|
    ensures k <= |s| && end - 3 <= |Bytes(s[..k])| <= end
    ensures r == if k == 0 then None else Some(Text(WithoutMark(s[..k])))
  {
    var at := end;
    ghost var j;
    k, j := StrictPrefix(s, end);
    BytesOfSome(s[..k]);
    while at > 0
      invariant at <= end <= |encoded| && at == |Bytes(s[..k])| + j && j <= 3 && k <= |s| && end - 3 <= |Bytes(s[..k])|
      invariant encoded[..at - j] == Bytes(s[..k]) && Strict(encoded[..at - j]) == Some(s[..k])
      invariant forall m :: at - j < m <= at ==> Strict(encoded[..m]).None?
    {
      var decoded := Decoded(encoded[..at]);
      if decoded.Some? {
        assert k > 0;
        return decoded, k;
      }
      j := j - 1;
      at := at - 1;
    }
    return None, k;
  }

  /** Within the bound the text is unchanged; beyond it, it is cut after the last character that leaves room for
      the marker, at most three bytes early, and the result keeps the bound.  A leading byte order mark is lost. */
  method TruncateInstructions(value: seq<Unit>, maximum: nat) returns (r: seq<Unit>)
    ensures Size(value) <= maximum ==> r == value
    ensures Size(r) <= maximum
    ensures Size(value) > maximum && maximum < 4 ==> r == []
    ensures Size(value) > maximum >= 4 ==> exists k :: Close(value, maximum, k) && r == Cut(value, k)
    ensures Size(value) > maximum >= 4 ==> Size(r) >= maximum - 6
  {
    var encoded := Bytes(Scalars(value));
    if |encoded| <= maximum { return value; }
    var end := if maximum >= 4 then maximum - 4 else 0;
    var decoded;
    ghost var k;
    decoded, k := BackOff(encoded, end, Scalars(value));
    CutFits(value, k);
    BytesOfSome(Scalars(value)[..k]);
    NothingCut(value);
    assert maximum >= 4 ==> Close(value, maximum, k);
    if decoded.Some? {
      return decoded.value + MARKER;
    }
    return if 4 <= maximum then MARKER else [];
  }

  // ----- the instructions of a generation -----

  const GENERATION_LIMIT := 64 * 1024

  /** A server's instructions, and whether it offers anything to use. */
  datatype Server = Server(name: string, content: seq<Unit>, usable: bool)

  datatype Instruction = Instruction(serverName: string, content: seq<Unit>)

  function TotalSize(r: seq<Instruction>): nat { if r == [] then 0 else TotalSize(r[..|r| - 1]) + Size(r[|r| - 1].content) }

  lemma TotalSizeGrows(r: seq<Instruction>, x: Instruction)
    ensures TotalSize(r + [x]) == TotalSize(r) + Size(x.content)
  {
    assert (r + [x])[..|r|] == r;
  }

  predicate Offers(s: Server) { s.content != [] && s.usable }

  /** Every usable server's instructions, unchanged. */
  function Whole(servers: seq<Server>): seq<Instruction> {
    if servers == [] then []
    else
      var last := servers[|servers| - 1];
      Whole(servers[..|servers| - 1]) + if Offers(last) then [Instruction(last.name, last.content)] else []
  }

  predicate FitsAll(servers: seq<Server>) { TotalSize(Whole(servers)) <= GENERATION_LIMIT }

  lemma SizeOfSome(s: seq<Unit>)
    requires s != []
    ensures Size(s) > 0
  {
    BytesOfSome(Scalars(s));
  }

  lemma WholeGrows(servers: seq<Server>, s: Server)
    ensures Whole(servers + [s]) == Whole(servers) + if Offers(s) then [Instruction(s.name, s.content)] else []
    ensures TotalSize(Whole(servers + [s])) == TotalSize(Whole(servers)) + if Offers(s) then Size(s.content) else 0
    ensures FitsAll(servers + [s]) ==> FitsAll(servers)
  {
    assert (servers + [s])[..|servers|] == servers;
    TotalSizeGrows(Whole(servers), Instruction(s.name, s.content));
    assert Whole(servers) + [] == Whole(servers);
  }

  /** All that was offered is included, or there was no room for it. */
  ghost predicate Filled(r: seq<Instruction>, before: seq<Server>) {
    if FitsAll(before) then r == Whole(before) else TotalSize(r) >= 65536 - 6
  }

  /** One server's share of what remains. */
  method Include(s: Server, r: seq<Instruction>, remaining: int, ghost before: seq<Server>) returns (r': seq<Instruction>, remaining': int)
    requires 0 <= remaining && TotalSize(r) + remaining == GENERATION_LIMIT && Filled(r, before)
    ensures 0 <= remaining' && TotalSize(r') + remaining' == GENERATION_LIMIT && Filled(r', before + [s])
    ensures r' == r || (Offers(s) && |r'| == |r| + 1 && r'[..|r|] == r && r'[|r|].serverName == s.name)
  {
    WholeGrows(before, s);
    r', remaining' := r, remaining;
    if Offers(s) {
      SizeOfSome(s.content);
      if remaining > 0 {
        var bounded := TruncateInstructions(s.content, remaining);
        if bounded != [] {
          TotalSizeGrows(r, Instruction(s.name, bounded));
          r' := r + [Instruction(s.name, bounded)];
          remaining' := if remaining >= Size(bounded) then remaining - Size(bounded) else 0;
        }
      }
    }
  }

  /** However many servers there are, their instructions together keep the limit.  If all of them fit they are all
      included unchanged; otherwise the limit is used up to at most six bytes. */
  method GenerationInstructions(servers: seq<Server>) returns (r: seq<Instruction>)
    ensures TotalSize(r) <= 65536
    ensures Filled(r, servers)
  {
    r := [];
    var remaining := GENERATION_LIMIT;
    for k := 0 to |servers|
      invariant 0 <= remaining && TotalSize(r) + remaining == GENERATION_LIMIT
      invariant Filled(r, servers[..k])
    {
      r, remaining := Include(servers[k], r, remaining, servers[..k]);
      assert servers[..k + 1] == servers[..k] + [servers[k]];
    }
    assert servers[..|servers|] == servers;
  }
}
