/** UTF-8 as section 3 of RFC 3629 defines it: encoding, strict decoding and decoding with replacement. */
module Utf8 {
  import opened Options

  type Byte = x: int | 0 <= x < 0x100
  type Scalar = x: int | 0 <= x < 0x110000 && !(0xD800 <= x < 0xE000)

  const REPLACEMENT: Scalar := 0xFFFD

  // ----- encoding -----

  function Tail(x: int): Byte { 0x80 + x % 0x40 }

  function Encode(c: Scalar): (r: seq<Byte>)
    ensures 1 <= |r| <= 4
  {
    if c < 0x80 then [c]
    else if c < 0x800 then [0xC0 + c / 0x40, Tail(c)]
    else if c < 0x10000 then [0xE0 + c / 0x1000, Tail(c / 0x40), Tail(c)]
    else [0xF0 + c / 0x40000, Tail(c / 0x1000), Tail(c / 0x40), Tail(c)]
  }

  function Bytes(s: seq<Scalar>): seq<Byte> { if s == [] then [] else Encode(s[0]) + Bytes(s[1..]) }

  lemma {:induction false} BytesConcat(s: seq<Scalar>, t: seq<Scalar>)
    ensures Bytes(s + t) == Bytes(s) + Bytes(t)
  {
    hide Encode;
    if s == [] {
      assert s + t == t;
    } else {
      BytesConcat(s[1..], t);
      assert (s + t)[1..] == s[1..] + t;
    }
  }

  function Width(c: Scalar): nat { if c < 0x80 then 1 else if c < 0x800 then 2 else if c < 0x10000 then 3 else 4 }

  /** The size of an encoding, without encoding. */
  function ByteLength(s: seq<Scalar>): nat { if s == [] then 0 else Width(s[0]) + ByteLength(s[1..]) }

  lemma {:induction false} LengthIsSize(s: seq<Scalar>)
    ensures ByteLength(s) == |Bytes(s)|
  {
    if s != [] {
      LengthIsSize(s[1..]);
    }
  }

  // ----- one character -----

  predicate IsTail(b: Byte) { 0x80 <= b < 0xC0 }

  /** The bytes that may follow a first byte. */
  predicate IsSecond(a: Byte, b: Byte) {
    if 0xC2 <= a < 0xE0 then IsTail(b)
    else if a == 0xE0 then 0xA0 <= b < 0xC0
    else if a == 0xED then 0x80 <= b < 0xA0
    else if 0xE1 <= a < 0xF0 then IsTail(b)
    else if a == 0xF0 then 0x90 <= b < 0xC0
    else if 0xF1 <= a < 0xF4 then IsTail(b)
    else a == 0xF4 && 0x80 <= b < 0x90
  }

  /** The length of the character that begins `b`, or 0 if none does. */
  function Length(b: seq<Byte>): (n: nat)
    ensures n <= |b|
  {
    if |b| == 0 then 0
    else if b[0] < 0x80 then 1
    else if |b| < 2 || !IsSecond(b[0], b[1]) then 0
    else if b[0] < 0xE0 then 2
    else if |b| < 3 || !IsTail(b[2]) then 0
    else if b[0] < 0xF0 then 3
    else if |b| < 4 || !IsTail(b[3]) then 0
    else 4
  }

  /** The number that one to four bytes stand for. */
  function Number(b: seq<Byte>): int
    requires 1 <= |b| <= 4
  {
    var lead: int := b[0];
    if |b| == 1 then lead
    else
      var second: int := b[1];
      if |b| == 2 then (lead - 0xC0) * 0x40 + (second - 0x80)
      else
        var third: int := b[2];
        if |b| == 3 then (lead - 0xE0) * 0x1000 + (second - 0x80) * 0x40 + (third - 0x80)
        else
          var fourth: int := b[3];
          (lead - 0xF0) * 0x40000 + (second - 0x80) * 0x1000 + (third - 0x80) * 0x40 + (fourth - 0x80)
  }

  function First(b: seq<Byte>): (c: Scalar)
    requires Length(b) > 0
    ensures Encode(c) == b[..Length(b)]
  {
    NumberIsScalar(b);
    Number(b[..Length(b)])
  }

  lemma NumberIsScalar(b: seq<Byte>)
    requires Length(b) > 0
    ensures var c := Number(b[..Length(b)]); 0 <= c < 0x110000 && !(0xD800 <= c < 0xE000) && Encode(c) == b[..Length(b)]
  {
    var n := Length(b);
    if n == 2 { TwoBytes(b[0], b[1]); }
    else if n == 3 { ThreeBytes(b[0], b[1], b[2]); }
    else if n == 4 { FourBytes(b[0], b[1], b[2], b[3]); }
  }

  lemma TwoBytes(a: int, b: int)
    requires 0xC2 <= a < 0xE0 && 0x80 <= b < 0xC0
    ensures var c := (a - 0xC0) * 0x40 + (b - 0x80); 0x80 <= c < 0x800 && 0xC0 + c / 0x40 == a && 0x80 + c % 0x40 == b
  {
  }

  lemma ThreeBytes(a: int, b: int, d: int)
    requires 0xE0 <= a < 0xF0 && 0x80 <= b < 0xC0 && 0x80 <= d < 0xC0 && (a == 0xE0 ==> b >= 0xA0) && (a == 0xED ==> b < 0xA0)
    ensures var c := (a - 0xE0) * 0x1000 + (b - 0x80) * 0x40 + (d - 0x80);
            && 0x800 <= c < 0x10000 && !(0xD800 <= c < 0xE000)
            && 0xE0 + c / 0x1000 == a && 0x80 + c / 0x40 % 0x40 == b && 0x80 + c % 0x40 == d
  {
    var c := (a - 0xE0) * 0x1000 + (b - 0x80) * 0x40 + (d - 0x80);
    assert c / 0x40 == (a - 0xE0) * 0x40 + (b - 0x80);
  }

  lemma FourBytes(a: int, b: int, d: int, e: int)
    requires 0xF0 <= a <= 0xF4 && 0x80 <= b < 0xC0 && 0x80 <= d < 0xC0 && 0x80 <= e < 0xC0
    requires (a == 0xF0 ==> b >= 0x90) && (a == 0xF4 ==> b < 0x90)
    ensures var c := (a - 0xF0) * 0x40000 + (b - 0x80) * 0x1000 + (d - 0x80) * 0x40 + (e - 0x80);
            && 0x10000 <= c < 0x110000
            && 0xF0 + c / 0x40000 == a && 0x80 + c / 0x1000 % 0x40 == b && 0x80 + c / 0x40 % 0x40 == d && 0x80 + c % 0x40 == e
  {
    var c := (a - 0xF0) * 0x40000 + (b - 0x80) * 0x1000 + (d - 0x80) * 0x40 + (e - 0x80);
    assert c / 0x40 == (a - 0xF0) * 0x1000 + (b - 0x80) * 0x40 + (d - 0x80);
    assert c / 0x1000 == (a - 0xF0) * 0x40 + (b - 0x80);
  }

  lemma NumberOfEncoding(c: Scalar)
    ensures Number(Encode(c)) == c
  {
    var n: int := c;
    if 0x800 <= n < 0x10000 {
      assert n / 0x1000 == n / 0x40 / 0x40;
    } else if 0x10000 <= n {
      assert n / 0x1000 == n / 0x40 / 0x40 && n / 0x40000 == n / 0x1000 / 0x40;
    }
  }

  lemma EncodedLength(c: Scalar, rest: seq<Byte>)
    ensures Length(Encode(c) + rest) == |Encode(c)|
  {
    var b := Encode(c) + rest;
    if c < 0x800 {
    } else if c < 0x10000 {
      SecondOfThree(c);
      assert b[0] == 0xE0 + c / 0x1000 && b[1] == Tail(c / 0x40) && b[2] == Tail(c);
    } else {
      SecondOfFour(c);
      assert b[0] == 0xF0 + c / 0x40000 && b[1] == Tail(c / 0x1000) && b[2] == Tail(c / 0x40) && b[3] == Tail(c);
    }
  }

  lemma SecondOfThree(c: Scalar)
    requires 0x800 <= c < 0x10000
    ensures IsSecond(0xE0 + c / 0x1000, Tail(c / 0x40)) && 0xE0 <= 0xE0 + c / 0x1000 < 0xF0
  {
  }

  lemma SecondOfFour(c: Scalar)
    requires 0x10000 <= c
    ensures IsSecond(0xF0 + c / 0x40000, Tail(c / 0x1000)) && 0xF0 <= 0xF0 + c / 0x40000
  {
  }

  lemma EncodedFirst(c: Scalar, rest: seq<Byte>)
    ensures var b := Encode(c) + rest; Length(b) == |Encode(c)| && First(b) == c && b[Length(b)..] == rest
  {
    var b := Encode(c) + rest;
    EncodedLength(c, rest);
    assert b[..|Encode(c)|] == Encode(c);
    NumberOfEncoding(c);
  }

  function Payload(tail: Byte): int { tail as int - 0x80 }

  /** The table of section 3 of RFC 3629: how many bytes a character takes, which ranges they lie in, and that their
      payloads together are the character. */
  lemma EncodingIsTheTable(c: Scalar)
    ensures var b := Encode(c);
            && (forall i :: 1 <= i < |b| ==> 0x80 <= b[i] < 0xC0)
            && (c < 0x80 ==> |b| == 1 && (b[0] as int) == c)
            && (0x80 <= c < 0x800 ==> |b| == 2 && 0xC2 <= b[0] < 0xE0 && c == (b[0] as int - 0xC0) * 64 + Payload(b[1]))
            && (0x800 <= c < 0x10000 ==>
                  |b| == 3 && 0xE0 <= b[0] < 0xF0 && c == (b[0] as int - 0xE0) * 4096 + Payload(b[1]) * 64 + Payload(b[2]))
            && (0x10000 <= c ==>
                  && |b| == 4 && 0xF0 <= b[0] < 0xF5
                  && c == (b[0] as int - 0xF0) * 262144 + Payload(b[1]) * 4096 + Payload(b[2]) * 64 + Payload(b[3]))
  {
    NumberOfEncoding(c);
  }

  // ----- strict decoding -----

  function Strict(b: seq<Byte>): (r: Option<seq<Scalar>>)
    ensures r.Some? ==> Bytes(r.value) == b
  {
    if b == [] then Some([])
    else if Length(b) == 0 then None
    else
      var rest := Strict(b[Length(b)..]);
      if rest.None? then None
      else
        assert b == b[..Length(b)] + b[Length(b)..];
        Some([First(b)] + rest.value)
  }

  /** Strict decoding succeeds exactly on encodings, and gives back what was encoded. */
  lemma {:induction false} StrictRoundTrip(s: seq<Scalar>)
    ensures Strict(Bytes(s)) == Some(s)
  {
    hide Encode, Length, First;
    if s != [] {
      EncodedFirst(s[0], Bytes(s[1..]));
      StrictRoundTrip(s[1..]);
      assert s == [s[0]] + s[1..];
    }
  }

  // ----- decoding with replacement -----

  /** How many bytes one replacement character stands for: as many as could have begun a character. */
  function Skip(b: seq<Byte>): (n: nat)
    requires b != [] && Length(b) == 0
    ensures 1 <= n <= |b|
  {
    if |b| < 2 || !IsSecond(b[0], b[1]) then 1
    else if |b| < 3 || b[0] < 0xF0 || !IsTail(b[2]) then 2
    else 3
  }

  function Lossy(b: seq<Byte>): seq<Scalar> {
    if b == [] then []
    else if Length(b) > 0 then [First(b)] + Lossy(b[Length(b)..])
    else [REPLACEMENT] + Lossy(b[Skip(b)..])
  }

  /** A proper part of the encoding of some character, from its first byte on. */
  ghost predicate Unfinished(b: seq<Byte>) { exists c: Scalar :: b < Encode(c) }

  lemma UnfinishedByTwo(b: seq<Byte>)
    requires |b| == 2 && b[0] >= 0xE0 && IsSecond(b[0], b[1])
    ensures Unfinished(b)
  {
    var whole := if b[0] < 0xF0 then b + [0x80 as Byte] else b + [0x80 as Byte, 0x80 as Byte];
    assert whole[..Length(whole)] == whole;
    assert b < Encode(First(whole));
  }

  lemma UnfinishedByThree(b: seq<Byte>)
    requires |b| == 3 && b[0] >= 0xF0 && IsSecond(b[0], b[1]) && IsTail(b[2])
    ensures Unfinished(b)
  {
    var whole := b + [0x80 as Byte];
    assert whole[..Length(whole)] == whole;
    assert b < Encode(First(whole));
  }

  lemma UnfinishedBytes(b: seq<Byte>)
    requires Unfinished(b) && b != []
    ensures |b| <= 3 && Length(b) == 0
    ensures |b| >= 2 ==> b[0] >= 0xE0 && IsSecond(b[0], b[1])
    ensures |b| == 3 ==> b[0] >= 0xF0 && IsTail(b[2])
  {
    var c :| b < Encode(c);
    EncodedLength(c, []);
    assert Encode(c) + [] == Encode(c);
    assert b == Encode(c)[..|b|];
    if |b| >= 2 { assert b[0] == Encode(c)[0] && b[1] == Encode(c)[1]; }
    if |b| == 3 { assert b[2] == Encode(c)[2]; }
  }

  /** A replacement stands for the longest part of what is left that an encoding could have begun with, and for one byte
      if there is none. */
  lemma SkipIsTheLongest(b: seq<Byte>)
    requires b != [] && Length(b) == 0
    ensures Skip(b) > 1 ==> Unfinished(b[..Skip(b)])
    ensures forall n :: 0 < n <= |b| && Unfinished(b[..n]) ==> n <= Skip(b)
  {
    if Skip(b) == 2 { UnfinishedByTwo(b[..2]); }
    if Skip(b) == 3 { UnfinishedByThree(b[..3]); }
    forall n | 0 < n <= |b| && Unfinished(b[..n]) ensures n <= Skip(b) {
      UnfinishedBytes(b[..n]);
    }
  }

  lemma {:induction false} LossyRoundTrip(s: seq<Scalar>)
    ensures Lossy(Bytes(s)) == s
  {
    hide Encode, Length, First;
    if s != [] {
      EncodedFirst(s[0], Bytes(s[1..]));
      LossyRoundTrip(s[1..]);
    }
  }

  // ----- cutting -----

  /** Every position in an encoding is at most three bytes after a character boundary: `k` characters lie before
      it, and `j` bytes of the next one. */
  lemma {:induction false} Boundary(s: seq<Scalar>, n: nat) returns (k: nat, j: nat)
    requires n <= |Bytes(s)|
    ensures k <= |s| && j <= 3 && n == |Bytes(s[..k])| + j && Bytes(s)[..n - j] == Bytes(s[..k])
    ensures j > 0 ==> k < |s| && j < |Encode(s[k])|
    decreases |s|
  {
    if n == 0 {
      k, j := 0, 0;
    } else if n < |Encode(s[0])| {
      k, j := 0, n;
    } else {
      var m := |Encode(s[0])|;
      k, j := Boundary(s[1..], n - m);
      k := k + 1;
      assert s[..k] == [s[0]] + s[1..][..k - 1];
      assert s[..k][1..] == s[1..][..k - 1];
      assert Bytes(s)[..n - j] == Encode(s[0]) + Bytes(s[1..])[..n - m - j];
    }
  }

  function Replacements(n: nat): seq<Scalar> { if n == 0 then [] else [REPLACEMENT] + Replacements(n - 1) }

  lemma TailIsReplaced(tail: Byte, more: seq<Byte>)
    requires IsTail(tail)
    ensures Lossy([tail] + more) == [REPLACEMENT] + Lossy(more)
  {
    var b := [tail] + more;
    assert Length(b) == 0 && Skip(b) == 1 && b[1..] == more;
  }

  lemma ReplacedOnce(n: nat, last: seq<Scalar>)
    ensures [REPLACEMENT] + (Replacements(n) + last) == Replacements(n + 1) + last
  {
  }

  /** Bytes that cannot begin a character are replaced one by one. */
  lemma {:induction false} TailsAreReplaced(tails: seq<Byte>, rest: seq<Byte>)
    requires forall i :: 0 <= i < |tails| ==> IsTail(tails[i])
    ensures Lossy(tails + rest) == Replacements(|tails|) + Lossy(rest)
  {
    hide Lossy;
    if tails == [] {
      assert tails + rest == rest && Replacements(0) + Lossy(rest) == Lossy(rest);
    } else {
      var more := tails[1..] + rest;
      TailsAreReplaced(tails[1..], rest);
      TailIsReplaced(tails[0], more);
      ReplacedOnce(|tails| - 1, Lossy(rest));
      assert tails + rest == [tails[0]] + more;
    }
  }

  lemma EncodedTails(c: Scalar, i: nat)
    requires 1 <= i < |Encode(c)|
    ensures IsTail(Encode(c)[i])
  {
  }

  lemma CutInside(s: seq<Scalar>, i: nat, into: nat)
    requires i < |s| && 0 < into < |Encode(s[i])|
    ensures var n := |Bytes(s[..i])| + into;
            n <= |Bytes(s)| && Bytes(s)[n..] == Encode(s[i])[into..] + Bytes(s[i + 1..])
  {
    BytesConcat(s[..i], s[i..]);
    assert s == s[..i] + s[i..] && s[i..][1..] == s[i + 1..];
    assert Bytes(s[i..]) == Encode(s[i]) + Bytes(s[i + 1..]);
  }

  lemma CutBetween(s: seq<Scalar>, i: nat)
    requires i <= |s|
    ensures var n := |Bytes(s[..i])|; n <= |Bytes(s)| && Bytes(s)[n..] == Bytes(s[i..])
  {
    BytesConcat(s[..i], s[i..]);
    assert s == s[..i] + s[i..];
  }

  lemma RestIsReplaced(c: Scalar, into: nat, rest: seq<Scalar>)
    requires 0 < into < |Encode(c)|
    ensures Lossy(Encode(c)[into..] + Bytes(rest)) == Replacements(|Encode(c)| - into) + rest
  {
    var tails := Encode(c)[into..];
    forall t | 0 <= t < |tails| ensures IsTail(tails[t]) { EncodedTails(c, into + t); }
    TailsAreReplaced(tails, Bytes(rest));
    LossyRoundTrip(rest);
  }

  /** What decoding makes of `tail`, the end of an encoding of `s`: a replacement for each of the `j` bytes left
      of a character that was cut through, then the characters after it. */
  ghost predicate Decodes(tail: seq<Byte>, s: seq<Scalar>, k: nat, j: nat) {
    k <= |s| && j <= 3 && Lossy(tail) == Replacements(j) + s[k..] && |tail| == j + |Bytes(s[k..])|
  }

  lemma CutInsideDecodes(s: seq<Scalar>, i: nat, into: nat, n: nat)
    requires i < |s| && 0 < into < |Encode(s[i])| && n == |Bytes(s[..i])| + into
    ensures n <= |Bytes(s)| && Decodes(Bytes(s)[n..], s, i + 1, |Encode(s[i])| - into)
  {
    hide Lossy;
    CutInside(s, i, into);
    RestIsReplaced(s[i], into, s[i + 1..]);
  }

  lemma CutBetweenDecodes(s: seq<Scalar>, i: nat, n: nat)
    requires i <= |s| && n == |Bytes(s[..i])|
    ensures n <= |Bytes(s)| && Decodes(Bytes(s)[n..], s, i, 0)
  {
    CutBetween(s, i);
    LossyRoundTrip(s[i..]);
    assert Replacements(0) + s[i..] == s[i..];
  }

  lemma CutAndDecode(s: seq<Scalar>, n: nat) returns (k: nat, j: nat)
    requires n <= |Bytes(s)|
    ensures Decodes(Bytes(s)[n..], s, k, j)
  {
    var i, into := Boundary(s, n);
    if into == 0 {
      k, j := i, 0;
      CutBetweenDecodes(s, i, n);
    } else {
      k, j := i + 1, |Encode(s[i])| - into;
      CutInsideDecodes(s, i, into, n);
    }
  }

  /** A prefix of an encoding is an encoding exactly at the character boundaries. */
  lemma StrictPrefix(s: seq<Scalar>, n: nat) returns (k: nat, j: nat)
    requires n <= |Bytes(s)|
    ensures k <= |s| && j <= 3 && n == |Bytes(s[..k])| + j && Bytes(s)[..n - j] == Bytes(s[..k])
    ensures Strict(Bytes(s)[..n - j]) == Some(s[..k])
    ensures forall m :: n - j < m <= n ==> Strict(Bytes(s)[..m]).None?
  {
    k, j := Boundary(s, n);
    StrictRoundTrip(s[..k]);
    forall m | n - j < m <= n ensures Strict(Bytes(s)[..m]).None? {
      BytesConcat(s[..k], s[k..]);
      assert s == s[..k] + s[k..];
      assert Bytes(s[k..]) == Encode(s[k]) + Bytes(s[k + 1..]);
      var t := m - (n - j);
      assert Bytes(s)[..m] == Bytes(s[..k]) + Encode(s[k])[..t];
      CutIsRefused(s[..k], s[k], t);
    }
  }

  lemma CutLength(c: Scalar, t: nat)
    requires 0 < t < |Encode(c)|
    ensures Length(Encode(c)[..t]) == 0
  {
  }

  lemma {:induction false} CutIsRefused(s: seq<Scalar>, c: Scalar, t: nat)
    requires 0 < t < |Encode(c)|
    ensures Strict(Bytes(s) + Encode(c)[..t]).None?
  {
    if s == [] {
      CutLength(c, t);
      assert Bytes(s) + Encode(c)[..t] == Encode(c)[..t];
    } else {
      var rest := Bytes(s[1..]) + Encode(c)[..t];
      assert Bytes(s) + Encode(c)[..t] == Encode(s[0]) + rest;
      EncodedFirst(s[0], rest);
      CutIsRefused(s[1..], c, t);
    }
  }
}
