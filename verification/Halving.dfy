/** The truncation that halves the excess instead of looking for a character boundary. */
module Halving {
  import opened Utf8
  import opened Truncation

  /** What is taken away for `excess` bytes too many. */
  function Step(excess: int): int { if excess <= 1 then 1 else (excess + 1) / 2 }

  /** Where the search for the end stops. */
  function Settle(value: seq<Unit>, maximum: nat, end: nat): (r: nat)
    requires end <= |value| && end <= maximum
    ensures r <= end
    decreases end
  {
    if end == 0 || Size(value[..end]) <= maximum then end
    else
      UnitsAreAtMostThree(value[..end]);
      Settle(value, maximum, end - Step(Size(value[..end]) - maximum))
  }

  function Start(value: seq<Unit>, maximum: nat): nat { if |value| < maximum then |value| else maximum }

  /** A code unit accounts for at most three bytes, which is why the end never becomes negative. */
  lemma {:induction false} UnitsAreAtMostThree(s: seq<Unit>)
    ensures Size(s) <= 3 * |s|
  {
    if s != [] {
      if High(s[0]) && |s| > 1 && Low(s[1]) {
        UnitsAreAtMostThree(s[2..]);
        FirstSize(Pair(s[0], s[1]), Scalars(s[2..]));
      } else {
        UnitsAreAtMostThree(s[1..]);
        FirstSize(Scalars(s)[0], Scalars(s[1..]));
        assert Scalars(s) == [Scalars(s)[0]] + Scalars(s[1..]);
      }
    }
  }

  lemma FirstSize(c: Scalar, rest: seq<Scalar>)
    ensures |Bytes([c] + rest)| == |Encode(c)| + |Bytes(rest)|
  {
    assert ([c] + rest)[1..] == rest;
  }

  lemma SettlesOn(value: seq<Unit>, maximum: nat, end: nat)
    requires 0 < end <= |value| && end <= maximum && Size(value[..end]) > maximum
    ensures var next := end - Step(Size(value[..end]) - maximum); 0 <= next < end && Settle(value, maximum, next) == Settle(value, maximum, end)
  {
    UnitsAreAtMostThree(value[..end]);
  }

  method TruncateUtf8(value: seq<Unit>, maximum: nat) returns (r: seq<Unit>, truncated: bool)
    ensures truncated <==> Size(value) > maximum
    ensures r == if truncated then value[..Settle(value, maximum, Start(value, maximum))] else value
    ensures Size(r) <= maximum
  {
    if Size(value) <= maximum { return value, false; }
    var end: int := if |value| < maximum then |value| else maximum;
    while end > 0 && Size(value[..end]) > maximum
      invariant 0 <= end <= |value| && end <= maximum
      invariant Settle(value, maximum, end) == Settle(value, maximum, Start(value, maximum))
    {
      SettlesOn(value, maximum, end);
      end := end - Step(Size(value[..end]) - maximum);
    }
    return value[..end], true;
  }

  // ----- how much is kept -----

  /** One code unit more makes a text one to three bytes longer, completing a surrogate pair included. */
  lemma {:induction false} UnitAdds(s: seq<Unit>, u: Unit)
    ensures Size(s) + 1 <= Size(s + [u]) <= Size(s) + 3
  {
    if s == [] {
      assert s + [u] == [u] && [u][1..] == [];
      OneUnit(u);
    } else if High(s[0]) && |s| > 1 && Low(s[1]) {
      assert (s + [u])[2..] == s[2..] + [u];
      UnitAdds(s[2..], u);
      FirstSize(Pair(s[0], s[1]), Scalars(s[2..]));
      FirstSize(Pair(s[0], s[1]), Scalars(s[2..] + [u]));
    } else if High(s[0]) && |s| == 1 && Low(u) {
      PairSize(s[0], u);
      assert s == [s[0]] && s + [u] == [s[0], u];
    } else {
      assert (s + [u])[1..] == s[1..] + [u];
      UnitAdds(s[1..], u);
      var c := if High(s[0]) || Low(s[0]) then REPLACEMENT else s[0];
      FirstSize(c, Scalars(s[1..]));
      FirstSize(c, Scalars(s[1..] + [u]));
    }
  }

  lemma OneUnit(u: Unit)
    ensures 1 <= Size([u]) <= 3
  {
    assert [u][1..] == [];
    var c := if High(u) || Low(u) then REPLACEMENT else u;
    assert Scalars([u]) == [c] + [];
    FirstSize(c, []);
  }

  lemma PairSize(h: Unit, l: Unit)
    requires High(h) && Low(l)
    ensures Size([h]) == 3 && Size([h, l]) == 4
  {
    assert [h][1..] == [] && [h, l][2..] == [] && Scalars([]) == [] && Bytes([]) == [];
    assert Scalars([h]) == [REPLACEMENT] + [] by { assert !Low(h); }
    assert Scalars([h, l]) == [Pair(h, l)] + [];
    FirstSize(REPLACEMENT, []);
    FirstSize(Pair(h, l), []);
    assert |Encode(REPLACEMENT)| == 3 && |Encode(Pair(h, l))| == 4;
  }

  lemma {:induction false} UnitsAdd(s: seq<Unit>, n: nat)
    requires n <= |s|
    ensures Size(s[..n]) + (|s| - n) <= Size(s) <= Size(s[..n]) + 3 * (|s| - n)
    decreases |s|
  {
    if n == |s| {
      assert s[..n] == s;
    } else {
      var front := s[..|s| - 1];
      UnitsAdd(front, n);
      assert front[..n] == s[..n] && s == front + [s[|s| - 1]];
      UnitAdds(front, s[|s| - 1]);
    }
  }

  lemma {:induction false} SettleLoses(value: seq<Unit>, maximum: nat, end: nat)
    requires end <= |value| && end <= maximum && Size(value[..end]) > maximum
    ensures Size(value[..Settle(value, maximum, end)]) <= maximum
    ensures 2 * Size(value[..Settle(value, maximum, end)]) >= 2 * maximum - (Size(value[..end]) - maximum) - 3
    decreases end
  {
    SettlesOn(value, maximum, end);
    var next := end - Step(Size(value[..end]) - maximum);
    StepLoses(value, maximum, end, next);
    if Size(value[..next]) > maximum {
      SettleLoses(value, maximum, next);
    } else {
      assert Settle(value, maximum, next) == next;
    }
  }

  lemma StepLoses(value: seq<Unit>, maximum: nat, end: nat, next: nat)
    requires end <= |value| && Size(value[..end]) > maximum && next < end && next == end - Step(Size(value[..end]) - maximum)
    ensures Size(value[..next]) < Size(value[..end])
    ensures 2 * Size(value[..next]) >= 2 * maximum - (Size(value[..end]) - maximum) - 3
  {
    var now := value[..end];
    UnitsAdd(now, next);
    assert now[..next] == value[..next];
  }

  /** For any text, surrogates included: what is cut keeps the bound, and of the bound at most half the excess of the
      first attempt, and a byte and a half, goes unused. */
  lemma LossIsHalfTheExcess(value: seq<Unit>, maximum: nat)
    requires Size(value) > maximum
    ensures var first := value[..Start(value, maximum)];
            var kept := value[..Settle(value, maximum, Start(value, maximum))];
            && Size(kept) <= maximum
            && (Size(first) <= maximum ==> kept == first && Size(kept) == maximum)
            && (Size(first) > maximum ==> 2 * Size(kept) >= 2 * maximum - (Size(first) - maximum) - 3)
  {
    var end := Start(value, maximum);
    if end == |value| { assert value[..end] == value; }
    if Size(value[..end]) > maximum {
      SettleLoses(value, maximum, end);
    } else {
      UnitsAdd(value[..end], 0);
      assert value[..end][..0] == [];
    }
  }

  ghost predicate Narrow(s: seq<Unit>) { forall i :: 0 <= i < |s| ==> s[i] < 0x800 }

  lemma {:induction false} NarrowSize(s: seq<Unit>, n: nat)
    requires Narrow(s) && n <= |s|
    ensures Size(s[..n]) + (|s| - n) <= Size(s) <= Size(s[..n]) + 2 * (|s| - n)
  {
    if s == [] {
    } else if n == 0 {
      NarrowSize(s[1..], 0);
      FirstSize(s[0], Scalars(s[1..]));
    } else {
      NarrowSize(s[1..], n - 1);
      assert s[..n][1..] == s[1..][..n - 1];
      FirstSize(s[0], Scalars(s[1..]));
      FirstSize(s[0], Scalars(s[1..][..n - 1]));
    }
  }

  lemma {:induction false} NarrowSettles(value: seq<Unit>, maximum: nat, end: nat)
    requires Narrow(value) && end <= |value| && end <= maximum && Size(value[..end]) >= maximum - 1
    ensures maximum - 1 <= Size(value[..Settle(value, maximum, end)]) <= maximum
    decreases end
  {
    if end > 0 && Size(value[..end]) > maximum {
      var now := value[..end];
      UnitsAreAtMostThree(now);
      var next := end - Step(Size(now) - maximum);
      NarrowSize(now, next);
      assert now[..next] == value[..next];
      NarrowSettles(value, maximum, next);
    }
  }

  /** Text of characters of one or two bytes is cut at most one byte early. */
  lemma NarrowTextIsCutClosely(value: seq<Unit>, maximum: nat)
    requires Narrow(value) && Size(value) > maximum
    ensures maximum - 1 <= Size(value[..Settle(value, maximum, Start(value, maximum))]) <= maximum
  {
    var end := Start(value, maximum);
    if end == |value| { assert value[..end] == value; }
    NarrowSize(value[..end], 0);
    assert value[..end][..0] == [];
    NarrowSettles(value, maximum, end);
  }

  ghost predicate Wide(s: seq<Unit>) { forall i :: 0 <= i < |s| ==> 0x800 <= s[i] && !(0xD800 <= s[i] < 0xE000) }

  lemma {:induction false} WideSize(s: seq<Unit>)
    requires Wide(s)
    ensures Size(s) == 3 * |s|
  {
    if s != [] {
      WideSize(s[1..]);
      FirstSize(s[0], Scalars(s[1..]));
    }
  }

  /** Text of characters of three bytes is not: the first step already goes too far.  Of `n` characters tried,
      `(maximum - n) / 2` are kept where `maximum / 3` would fit, and none of a text as long as the bound. */
  lemma WideTextIsCutShort(value: seq<Unit>, maximum: nat)
    requires Wide(value) && Size(value) > maximum
    ensures Settle(value, maximum, Start(value, maximum)) == (maximum - Start(value, maximum)) / 2
    ensures |value| >= maximum ==> value[..Settle(value, maximum, Start(value, maximum))] == []
    ensures (maximum - Start(value, maximum)) / 2 <= maximum / 3
  {
    var n := Start(value, maximum);
    WideSize(value);
    WideSize(value[..n]);
    WideSize(value[..(maximum - n) / 2]);
  }
}
