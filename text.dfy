/** String helpers the report is assembled with: Python's `str.join`,
    `str.split` on a one-character separator, and decimal formatting of
    integers (`str(n)`), each with the lemmas that say what they produce. */
module Text {

  /** `sep.join(parts)`: the parts in order with `sep` between neighbours. */
  function Join(sep: string, parts: seq<string>): string
    decreases |parts|
  {
    if |parts| == 0 then ""
    else if |parts| == 1 then parts[0]
    else parts[0] + sep + Join(sep, parts[1..])
  }

  /** The index at which part `k` begins inside `Join(sep, parts)`. */
  function PartStart(sep: string, parts: seq<string>, k: nat): nat
    requires k < |parts|
  {
    if k == 0 then 0 else |parts[0]| + |sep| + PartStart(sep, parts[1..], k - 1)
  }

  /** `t` is found in `s` starting at index `i`. */
  ghost predicate OccursAt(s: string, t: string, i: int)
  {
    0 <= i && i + |t| <= |s| && s[i..i + |t|] == t
  }

  /** `t in s`, Python's substring test. */
  ghost predicate Contains(s: string, t: string)
  {
    exists i :: OccursAt(s, t, i)
  }

  lemma {:induction false} OccursBetween(p: string, x: string, q: string)
    ensures OccursAt(p + x + q, x, |p|)
  {
    assert (p + x + q)[|p|..|p| + |x|] == x;
  }

  lemma AtStart(x: string, rest: string)
    ensures OccursAt(x + rest, x, 0)
  {
    assert (x + rest)[..|x|] == x;
  }

  /** In a right-nested frame `a + (w + (b + (x + ...)))`, the `n`-th field
      begins after the pieces before it: `NestedAt1` .. `NestedAt4`. */
  lemma NestedAt1(a: string, w: string, r: string)
    ensures OccursAt(a + (w + r), w, |a|)
  {
    AtStart(w, r);
    ShiftRight(a, w + r, w, 0);
  }

  lemma NestedAt2(a: string, w: string, b: string, x: string, r: string)
    ensures OccursAt(a + (w + (b + (x + r))), x, |a| + |w| + |b|)
  {
    NestedAt1(b, x, r);
    ShiftRight(w, b + (x + r), x, |b|);
    ShiftRight(a, w + (b + (x + r)), x, |w| + |b|);
  }

  lemma NestedAt3(a: string, w: string, b: string, x: string, c: string, y: string, r: string)
    ensures OccursAt(a + (w + (b + (x + (c + (y + r))))), y, |a| + |w| + |b| + |x| + |c|)
  {
    NestedAt2(b, x, c, y, r);
    ShiftRight(w, b + (x + (c + (y + r))), y, |b| + |x| + |c|);
    ShiftRight(a, w + (b + (x + (c + (y + r)))), y, |w| + |b| + |x| + |c|);
  }

  lemma NestedAt4(a: string, w: string, b: string, x: string, c: string, y: string, d: string, z: string, r: string)
    ensures OccursAt(a + (w + (b + (x + (c + (y + (d + (z + r))))))), z, |a| + |w| + |b| + |x| + |c| + |y| + |d|)
  {
    NestedAt3(b, x, c, y, d, z, r);
    ShiftRight(w, b + (x + (c + (y + (d + (z + r))))), z, |b| + |x| + |c| + |y| + |d|);
    ShiftRight(a, w + (b + (x + (c + (y + (d + (z + r)))))), z, |w| + |b| + |x| + |c| + |y| + |d|);
  }

  /** After a prefix, each part of a join is found shifted by its length. */
  lemma {:induction false} PrefixedJoinPart(p: string, sep: string, parts: seq<string>, k: nat)
    requires k < |parts|
    ensures OccursAt(p + Join(sep, parts), parts[k], |p| + PartStart(sep, parts, k))
  {
    JoinPartAt(sep, parts, k);
    ShiftRight(p, Join(sep, parts), parts[k], PartStart(sep, parts, k));
  }

  /** After a prefix, the parts of a join are found shifted by its length,
      in order. */
  lemma {:induction false} PrefixedJoinParts(p: string, sep: string, parts: seq<string>, j: nat, k: nat)
    requires j < k < |parts|
    ensures OccursAt(p + Join(sep, parts), parts[j], |p| + PartStart(sep, parts, j))
    ensures OccursAt(p + Join(sep, parts), parts[k], |p| + PartStart(sep, parts, k))
    ensures PartStart(sep, parts, j) + |parts[j]| + |sep| <= PartStart(sep, parts, k)
  {
    PrefixedJoinPart(p, sep, parts, j);
    PrefixedJoinPart(p, sep, parts, k);
    PartsInOrder(sep, parts, j, k);
  }

  lemma {:induction false} ShiftRight(x: string, y: string, t: string, i: int)
    requires OccursAt(y, t, i)
    ensures OccursAt(x + y, t, |x| + i)
  {
    assert (x + y)[|x| + i..|x| + i + |t|] == y[i..i + |t|];
  }

  lemma {:induction false} ExtendLeft(x: string, y: string, t: string, i: int)
    requires OccursAt(x, t, i)
    ensures OccursAt(x + y, t, i)
  {
    assert (x + y)[i..i + |t|] == x[i..i + |t|];
  }

  /** A piece of a piece of `s` is a piece of `s`, at the summed offset. */
  lemma {:induction false} OccursWithin(s: string, t: string, u: string, i: int, j: int)
    requires OccursAt(s, t, i) && OccursAt(t, u, j)
    ensures OccursAt(s, u, i + j)
  {
    forall m | 0 <= m < |u| ensures s[i + j + m] == u[m] {
      assert t[j + m] == u[m];
      assert s[i + (j + m)] == t[j + m];
    }
  }

  /** Every part of a join is found in it, where `PartStart` says. */
  lemma {:induction false} JoinPartAt(sep: string, parts: seq<string>, k: nat)
    requires k < |parts|
    ensures OccursAt(Join(sep, parts), parts[k], PartStart(sep, parts, k))
  {
    if |parts| == 1 {
      assert Join(sep, parts) == parts[0];
    } else if k == 0 {
      assert Join(sep, parts) == parts[0] + (sep + Join(sep, parts[1..]));
      ExtendLeft(parts[0], sep + Join(sep, parts[1..]), parts[0], 0);
    } else {
      JoinPartAt(sep, parts[1..], k - 1);
      assert Join(sep, parts) == (parts[0] + sep) + Join(sep, parts[1..]);
      ShiftRight(parts[0] + sep, Join(sep, parts[1..]), parts[k], PartStart(sep, parts[1..], k - 1));
    }
  }

  /** Where a join is found, each of its parts is found too. */
  lemma {:induction false} JoinPartWithin(s: string, i: int, sep: string, parts: seq<string>, k: nat)
    requires OccursAt(s, Join(sep, parts), i)
    requires k < |parts|
    ensures OccursAt(s, parts[k], i + PartStart(sep, parts, k))
  {
    JoinPartAt(sep, parts, k);
    OccursWithin(s, Join(sep, parts), parts[k], i, PartStart(sep, parts, k));
  }

  /** The parts of a join appear in their input order, separated by `sep`. */
  lemma {:induction false} PartsInOrder(sep: string, parts: seq<string>, j: nat, k: nat)
    requires j < k < |parts|
    ensures PartStart(sep, parts, j) + |parts[j]| + |sep| <= PartStart(sep, parts, k)
  {
    if j > 0 {
      PartsInOrder(sep, parts[1..], j - 1, k - 1);
    }
  }

  /** Joining all but the last part and then the last one gives the whole join. */
  lemma {:induction false} JoinSnoc(sep: string, parts: seq<string>)
    requires |parts| >= 2
    ensures Join(sep, parts) == Join(sep, parts[..|parts| - 1]) + sep + parts[|parts| - 1]
  {
    var n := |parts|;
    if n == 2 {
      assert parts[..1] == [parts[0]];
      assert parts[1..] == [parts[1]];
    } else {
      JoinSnoc(sep, parts[1..]);
      assert parts[1..][..n - 2] == parts[..n - 1][1..];
      assert parts[..n - 1][0] == parts[0];
    }
  }

  /** `s.split(c)`: the maximal runs of `s` free of `c`, in order; there is
      always at least one piece, and `"".split(c) == [""]`. */
  function Split(s: string, c: char): (pieces: seq<string>)
    ensures |pieces| >= 1
  {
    if |s| == 0 then [""]
    else
      var rest := Split(s[1..], c);
      if s[0] == c then [""] + rest else [[s[0]] + rest[0]] + rest[1..]
  }

  /** The pieces of a split contain no separator and join back to the input. */
  lemma {:induction false} JoinSplit(s: string, c: char)
    ensures Join([c], Split(s, c)) == s
    ensures forall k :: 0 <= k < |Split(s, c)| ==> c !in Split(s, c)[k]
  {
    if |s| > 0 {
      var rest := Split(s[1..], c);
      JoinSplit(s[1..], c);
      if s[0] == c {
        assert ([""] + rest)[1..] == rest;
        assert s == [c] + s[1..];
      } else if |rest| == 1 {
        assert Join([c], rest) == rest[0];
        assert s == [s[0]] + s[1..];
      } else {
        var pieces := [[s[0]] + rest[0]] + rest[1..];
        assert pieces[1..] == rest[1..];
        assert Join([c], rest) == rest[0] + [c] + Join([c], rest[1..]);
        assert s == [s[0]] + s[1..];
        forall k | 0 <= k < |pieces| ensures c !in pieces[k] {
          if k > 0 { assert pieces[k] == rest[k]; }
        }
      }
    }
  }

  /** A prefix free of the separator fuses with the first piece of the rest. */
  lemma {:induction false} SplitFreePrefix(a: string, b: string, c: char)
    requires c !in a
    ensures Split(a + b, c) == [a + Split(b, c)[0]] + Split(b, c)[1..]
  {
    if |a| > 0 {
      SplitFreePrefix(a[1..], b, c);
      assert (a + b)[1..] == a[1..] + b;
      assert (a + b)[0] == a[0];
      assert [a[0]] + (a[1..] + Split(b, c)[0]) == a + Split(b, c)[0];
    } else {
      var pieces := Split(b, c);
      assert a + b == b;
      assert a + pieces[0] == pieces[0];
      assert [pieces[0]] + pieces[1..] == pieces;
    }
  }

  /** Splitting a join of separator-free parts gives the parts back
      (`"\n".join(ls).split("\n") == ls` for a non-empty `ls`). */
  lemma {:induction false} SplitJoin(parts: seq<string>, c: char)
    requires |parts| >= 1
    requires forall k :: 0 <= k < |parts| ==> c !in parts[k]
    ensures Split(Join([c], parts), c) == parts
  {
    if |parts| == 1 {
      SplitFreePrefix(parts[0], "", c);
      assert parts[0] + "" == parts[0];
    } else {
      var tail := Join([c], parts[1..]);
      SplitJoin(parts[1..], c);
      assert Join([c], parts) == parts[0] + ([c] + tail);
      SplitFreePrefix(parts[0], [c] + tail, c);
      assert ([c] + tail)[1..] == tail;
      assert Split([c] + tail, c) == [""] + parts[1..];
      assert parts[0] + "" == parts[0];
    }
  }

  /** `s.split(c)[-1]`: what follows the last `c` in `s`. */
  function LastPiece(s: string, c: char): string
  {
    var pieces := Split(s, c);
    pieces[|pieces| - 1]
  }

  /** `s.split(c)[-1]` is the suffix of `s` after its last `c`, or all of
      `s` when `s` has no `c`: a suffix, free of `c`, and either the whole
      string or preceded by `c`. */
  lemma {:induction false} LastPieceAfterLastSeparator(s: string, c: char)
    ensures |LastPiece(s, c)| <= |s|
    ensures s[|s| - |LastPiece(s, c)|..] == LastPiece(s, c)
    ensures c !in LastPiece(s, c)
    ensures |LastPiece(s, c)| < |s| ==> s[|s| - |LastPiece(s, c)| - 1] == c
  {
    var pieces := Split(s, c);
    var n := |pieces|;
    JoinSplit(s, c);
    if n >= 2 {
      JoinSnoc([c], pieces);
      var front := Join([c], pieces[..n - 1]) + [c];
      assert s == front + pieces[n - 1];
      assert s[|s| - |pieces[n - 1]| - 1] == front[|front| - 1];
    } else {
      assert s == pieces[0];
    }
  }

  /** The decimal digit for `d`. */
  function DigitChar(d: nat): (ch: char)
    requires d < 10
    ensures '0' <= ch <= '9' && ch as int - '0' as int == d
  {
    ('0' as int + d) as char
  }

  ghost predicate AllDigits(s: string)
  {
    forall i :: 0 <= i < |s| ==> '0' <= s[i] <= '9'
  }

  /** `str(n)` for a natural number: its decimal digits, most significant
      first, without leading zeros. */
  function NatToString(n: nat): (s: string)
    ensures |s| >= 1 && AllDigits(s)
    ensures |s| > 1 ==> s[0] != '0'
  {
    if n < 10 then [DigitChar(n)] else NatToString(n / 10) + [DigitChar(n % 10)]
  }

  /** The number a string of decimal digits denotes. */
  function DigitsValue(s: string): nat
    requires AllDigits(s)
  {
    if |s| == 0 then 0
    else DigitsValue(s[..|s| - 1]) * 10 + (s[|s| - 1] as int - '0' as int)
  }

  /** Reading back the digits `str(n)` wrote gives `n`. */
  lemma {:induction false} NatToStringRoundTrip(n: nat)
    ensures DigitsValue(NatToString(n)) == n
  {
    if n >= 10 {
      NatToStringRoundTrip(n / 10);
      var s := NatToString(n);
      assert s[..|s| - 1] == NatToString(n / 10);
    }
  }

  /** `str(i)` for any integer, with a leading `-` when negative. */
  function IntToString(i: int): (s: string)
    ensures |s| >= 1
    ensures i < 0 <==> s[0] == '-'
    ensures i >= 0 ==> AllDigits(s) && DigitsValue(s) == i
    ensures i < 0 ==> AllDigits(s[1..]) && DigitsValue(s[1..]) == -i
  {
    if i < 0 then
      NatToStringRoundTrip(-i);
      "-" + NatToString(-i)
    else
      NatToStringRoundTrip(i);
      NatToString(i)
  }
}
