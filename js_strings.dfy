/**
 * The three JavaScript string operations the core relies on:
 * `String.prototype.trim`, `String.prototype.split` with a non-empty string
 * separator, and `Array.prototype.join` over strings.
 */
module JsStrings {

  /** ECMAScript WhiteSpace and LineTerminator code points, the set `trim` removes. */
  predicate IsWhitespace(c: char) {
    var n := c as int;
    (0x09 <= n <= 0x0D) || n == 0x20 || n == 0xA0 || n == 0x1680 ||
    (0x2000 <= n <= 0x200A) || n == 0x2028 || n == 0x2029 || n == 0x202F ||
    n == 0x205F || n == 0x3000 || n == 0xFEFF
  }

  predicate AllWhitespace(s: string) {
    forall i :: 0 <= i < |s| ==> IsWhitespace(s[i])
  }

  /** Neither end of `s` is whitespace (what `trim` guarantees of its result). */
  predicate IsTrimmed(s: string) {
    s == [] || (!IsWhitespace(s[0]) && !IsWhitespace(s[|s| - 1]))
  }

  /** The first index at or after `i` that is not whitespace, `|s|` if there is none. */
  function StartIndex(s: string, i: nat): (k: nat)
    requires i <= |s|
    ensures i <= k <= |s|
    ensures forall m :: i <= m < k ==> IsWhitespace(s[m])
    ensures k < |s| ==> !IsWhitespace(s[k])
    decreases |s| - i
  {
    if i < |s| && IsWhitespace(s[i]) then StartIndex(s, i + 1) else i
  }

  /** The end of `s[k..j]` once its trailing whitespace is dropped. */
  function EndIndex(s: string, k: nat, j: nat): (e: nat)
    requires k <= j <= |s|
    ensures k <= e <= j
    ensures forall m :: e <= m < j ==> IsWhitespace(s[m])
    ensures e > k ==> !IsWhitespace(s[e - 1])
    decreases j - k
  {
    if j > k && IsWhitespace(s[j - 1]) then EndIndex(s, k, j - 1) else j
  }

  /** `String.prototype.trim`: strips leading and trailing whitespace. */
  function Trim(s: string): (r: string)
    ensures IsTrimmed(r)
    ensures var k := StartIndex(s, 0);
      k + |r| <= |s| && r == s[k..k + |r|] &&
      (forall i :: 0 <= i < k ==> IsWhitespace(s[i])) &&
      (forall i :: k + |r| <= i < |s| ==> IsWhitespace(s[i]))
    ensures r == [] <==> AllWhitespace(s)
    ensures IsTrimmed(s) ==> r == s
  {
    var k := StartIndex(s, 0);
    var e := EndIndex(s, k, |s|);
    assert e == k ==> AllWhitespace(s);
    s[k..e]
  }

  /**
   * `trim` is determined by its contract: a trimmed slice of `s` with only
   * white space around it is `Trim(s)`.
   */
  lemma TrimUnique(s: string, r: string, k: nat)
    requires k + |r| <= |s| && s[k..k + |r|] == r && IsTrimmed(r)
    requires forall i :: 0 <= i < k ==> IsWhitespace(s[i])
    requires forall i :: k + |r| <= i < |s| ==> IsWhitespace(s[i])
    ensures Trim(s) == r
  {
    if r == [] {
      assert AllWhitespace(s);
    } else {
      var t := Trim(s);
      var k' := StartIndex(s, 0);
      assert !IsWhitespace(s[k]) by { assert s[k] == r[0]; }
      assert t != [];
      assert !IsWhitespace(s[k']) by { assert s[k'] == t[0]; }
      assert k == k';
      var e := k + |r| - 1;
      var e' := k + |t| - 1;
      assert !IsWhitespace(s[e]) by { assert s[e] == r[|r| - 1]; }
      assert !IsWhitespace(s[e']) by { assert s[e'] == t[|t| - 1]; }
      assert e == e';
    }
  }

  /** White space in front of a string does not change its trim. */
  lemma TrimPrefix(a: string, x: string)
    requires AllWhitespace(a)
    ensures Trim(a + x) == Trim(x)
  {
    var s := a + x;
    var r := Trim(x);
    var kx := StartIndex(x, 0);
    assert forall i :: 0 <= i < |x| ==> s[|a| + i] == x[i];
    assert s[|a| + kx..|a| + kx + |r|] == r by {
      assert forall i :: 0 <= i < |r| ==> s[|a| + kx + i] == x[kx + i] == r[i];
    }
    forall i | 0 <= i < |a| + kx ensures IsWhitespace(s[i]) {
      if i >= |a| { assert s[i] == x[i - |a|]; }
    }
    forall i | |a| + kx + |r| <= i < |s| ensures IsWhitespace(s[i]) {
      assert s[i] == x[i - |a|];
    }
    TrimUnique(s, r, |a| + kx);
  }

  /** White space after a string does not change its trim. */
  lemma TrimSuffix(x: string, b: string)
    requires AllWhitespace(b)
    ensures Trim(x + b) == Trim(x)
  {
    var s := x + b;
    var r := Trim(x);
    var kx := StartIndex(x, 0);
    assert forall i :: 0 <= i < |x| ==> s[i] == x[i];
    assert s[kx..kx + |r|] == r by {
      assert forall i :: 0 <= i < |r| ==> s[kx + i] == x[kx + i] == r[i];
    }
    forall i | 0 <= i < kx ensures IsWhitespace(s[i]) {
      assert s[i] == x[i];
    }
    forall i | kx + |r| <= i < |s| ensures IsWhitespace(s[i]) {
      if i < |x| { assert s[i] == x[i]; } else { assert s[i] == b[i - |x|]; }
    }
    TrimUnique(s, r, kx);
  }

  /** White space added around a string does not change its trim. */
  lemma TrimAround(a: string, x: string, b: string)
    requires AllWhitespace(a) && AllWhitespace(b)
    ensures Trim(a + x + b) == Trim(x)
  {
    assert a + x + b == a + (x + b);
    TrimPrefix(a, x + b);
    TrimSuffix(x, b);
  }

  /** `pieces.map(s => s.trim())`. */
  function TrimAll(pieces: seq<string>): (r: seq<string>)
    ensures |r| == |pieces|
    ensures forall i :: 0 <= i < |pieces| ==> r[i] == Trim(pieces[i]) && IsTrimmed(r[i])
  {
    seq(|pieces|, i requires 0 <= i < |pieces| => Trim(pieces[i]))
  }

  /**
   * `s.split(d)` for a non-empty separator: the pieces between the leftmost
   * non-overlapping occurrences of `d`, scanning from the left. There is
   * always at least one piece; `"".split(d)` is `[""]`.
   */
  function Split(s: string, d: string): (r: seq<string>)
    requires d != []
    ensures |r| >= 1
    decreases |s|
  {
    if |s| < |d| then [s]
    else if s[..|d|] == d then [""] + Split(s[|d|..], d)
    else
      var rest := Split(s[1..], d);
      [[s[0]] + rest[0]] + rest[1..]
  }

  /** `parts.join(d)`; `[].join(d)` is the empty string. */
  function Join(parts: seq<string>, d: string): (r: string)
    ensures |parts| == 1 ==> r == parts[0]
    decreases |parts|
  {
    if |parts| == 0 then ""
    else if |parts| == 1 then parts[0]
    else parts[0] + d + Join(parts[1..], d)
  }

  /** Joining a piece in front of at least one other puts one separator after it. */
  lemma JoinCons(x: string, rest: seq<string>, d: string)
    requires |rest| >= 1
    ensures Join([x] + rest, d) == x + d + Join(rest, d)
  {
    assert ([x] + rest)[1..] == rest;
  }

  /** Extending the first piece extends the joined string by the same prefix. */
  lemma JoinExtendHead(a: string, rest: seq<string>, d: string)
    requires |rest| >= 1
    ensures Join([a + rest[0]] + rest[1..], d) == a + Join(rest, d)
  {
    if |rest| > 1 {
      JoinCons(a + rest[0], rest[1..], d);
      assert Join(rest, d) == rest[0] + d + Join(rest[1..], d);
    }
  }

  /** Joining the pieces of a split with the same separator rebuilds the string. */
  lemma {:induction false} JoinSplit(s: string, d: string)
    requires d != []
    ensures Join(Split(s, d), d) == s
    decreases |s|
  {
    if |s| < |d| {
    } else if s[..|d|] == d {
      var rest := Split(s[|d|..], d);
      JoinSplit(s[|d|..], d);
      JoinCons("", rest, d);
      assert s == s[..|d|] + s[|d|..];
    } else {
      var rest := Split(s[1..], d);
      JoinSplit(s[1..], d);
      JoinExtendHead([s[0]], rest, d);
      assert s == [s[0]] + s[1..];
    }
  }

  /** A string free of the one-character separator `c` splits into itself. */
  lemma {:induction false} SplitNoSeparator(a: string, c: char)
    requires c !in a
    ensures Split(a, [c]) == [a]
    decreases |a|
  {
    if |a| >= 1 {
      assert a[..1] == [a[0]];
      SplitNoSeparator(a[1..], c);
      assert [a[0]] + a[1..] == a;
    }
  }

  /** The first occurrence of a one-character separator ends the first piece. */
  lemma {:induction false} SplitAtFirst(a: string, c: char, b: string)
    requires c !in a
    ensures Split(a + [c] + b, [c]) == [a] + Split(b, [c])
    decreases |a|
  {
    var s := a + [c] + b;
    if a == [] {
      assert s[..1] == [c];
      assert s[1..] == b;
    } else {
      assert s[..1] == [a[0]];
      assert s[1..] == a[1..] + [c] + b;
      SplitAtFirst(a[1..], c, b);
      assert [a[0]] + a[1..] == a;
    }
  }

  /**
   * Splitting on a one-character separator undoes joining with it, provided
   * no part contains the separator.
   */
  lemma {:induction false} SplitJoin(parts: seq<string>, c: char)
    requires |parts| >= 1
    requires forall i :: 0 <= i < |parts| ==> c !in parts[i]
    ensures Split(Join(parts, [c]), [c]) == parts
    decreases |parts|
  {
    if |parts| == 1 {
      SplitNoSeparator(parts[0], c);
    } else {
      SplitJoin(parts[1..], c);
      SplitAtFirst(parts[0], c, Join(parts[1..], [c]));
      assert [parts[0]] + parts[1..] == parts;
    }
  }

  /** A separator-free prefix joins the first piece. */
  lemma {:induction false} SplitPrepend(w: string, x: string, c: char)
    requires c !in w
    ensures var p := Split(x, [c]); Split(w + x, [c]) == [w + p[0]] + p[1..]
    decreases |w|
  {
    var p := Split(x, [c]);
    if w == [] {
      assert w + x == x && w + p[0] == p[0];
      assert [p[0]] + p[1..] == p;
    } else {
      var s := w + x;
      assert s[..1] == [w[0]] && s[1..] == w[1..] + x;
      SplitPrepend(w[1..], x, c);
      assert [w[0]] + (w[1..] + p[0]) == w + p[0];
    }
  }

  /** A separator-free suffix joins the last piece. */
  lemma {:induction false} SplitAppend(x: string, w: string, c: char)
    requires c !in w
    ensures var p := Split(x, [c]); Split(x + w, [c]) == p[..|p| - 1] + [p[|p| - 1] + w]
    decreases |x|
  {
    var p := Split(x, [c]);
    var s := x + w;
    if x == [] {
      assert s == w;
      SplitNoSeparator(w, c);
    } else {
      assert s[..1] == [x[0]] && s[1..] == x[1..] + w;
      var q := Split(x[1..], [c]);
      SplitAppend(x[1..], w, c);
      if x[..1] == [c] {
        assert p == [""] + q;
      } else {
        assert p == [[x[0]] + q[0]] + q[1..];
        if |q| == 1 {
          assert [x[0]] + (q[0] + w) == [x[0]] + q[0] + w;
        } else {
          var rest := q[..|q| - 1] + [q[|q| - 1] + w];
          assert rest[0] == q[0] && rest[1..] == q[1..|q| - 1] + [q[|q| - 1] + w];
          assert p[..|p| - 1] == [[x[0]] + q[0]] + q[1..|q| - 1];
        }
      }
    }
  }

  /** Separator-free text around a string joins its first and its last piece. */
  lemma SplitAround(a: string, t: string, b: string, c: char)
    requires c !in a && c !in b
    ensures var p := Split(t, [c]); var q := Split(a + t + b, [c]);
      |q| == |p| &&
      forall i :: 0 <= i < |p| ==> q[i] == (if i == 0 then a else "") + p[i] + (if i == |p| - 1 then b else "")
  {
    var p := Split(t, [c]);
    var n := |p|;
    SplitAppend(t, b, c);
    var r := p[..n - 1] + [p[n - 1] + b];
    SplitPrepend(a, t + b, c);
    assert a + (t + b) == a + t + b;
    var q := [a + r[0]] + r[1..];
    assert Split(a + t + b, [c]) == q;
    forall i | 0 <= i < n
      ensures q[i] == (if i == 0 then a else "") + p[i] + (if i == n - 1 then b else "")
    {
      if i == 0 && n == 1 {
        assert q[0] == a + (p[0] + b);
      } else if i == 0 {
        assert q[0] == a + p[0];
      } else if i == n - 1 {
        assert q[i] == p[i] + b;
      } else {
        assert q[i] == p[i];
      }
    }
  }

  /**
   * With a one-character separator that is not white space, trimming a line
   * before splitting it does not change the trimmed pieces.
   */
  lemma SplitTrimmedPieces(s: string, c: char)
    requires !IsWhitespace(c)
    ensures TrimAll(Split(Trim(s), [c])) == TrimAll(Split(s, [c]))
  {
    var t := Trim(s);
    var k := StartIndex(s, 0);
    var a := s[..k];
    var b := s[k + |t|..];
    assert s == a + t + b;
    assert AllWhitespace(a) && AllWhitespace(b);
    assert c !in a && c !in b;
    SplitAround(a, t, b, c);
    var p := Split(t, [c]);
    var q := Split(s, [c]);
    forall i | 0 <= i < |p| ensures Trim(q[i]) == Trim(p[i]) {
      TrimAround(if i == 0 then a else "", p[i], if i == |p| - 1 then b else "");
    }
  }
}
