/**
 * String operations of JavaScript's `String.prototype` used by the dashboard,
 * over Dafny strings (sequences of Unicode scalar values).
 */
module Text {

  /** `s.split(c)` for a one-character separator: the maximal `c`-free pieces, empty ones included. */
  function Split(s: string, c: char): (r: seq<string>)
    ensures |r| >= 1
    ensures forall i :: 0 <= i < |r| ==> c !in r[i]
  {
    if s == [] then [""]
    else if s[0] == c then [""] + Split(s[1..], c)
    else
      var rest := Split(s[1..], c);
      [[s[0]] + rest[0]] + rest[1..]
  }

  /** `xs.join(sep)`. */
  function Join(xs: seq<string>, sep: string): string
  {
    if |xs| == 0 then ""
    else if |xs| == 1 then xs[0]
    else xs[0] + sep + Join(xs[1..], sep)
  }

  /** `xs.filter(Boolean)` on strings: the non-empty strings, in order. */
  function NonEmpty(xs: seq<string>): (r: seq<string>)
    ensures |r| <= |xs|
    ensures forall i :: 0 <= i < |r| ==> r[i] != "" && r[i] in xs
  {
    if xs == [] then []
    else if xs[0] == "" then NonEmpty(xs[1..])
    else [xs[0]] + NonEmpty(xs[1..])
  }

  /** `xs.reverse()` (on a fresh array, so only the value matters). */
  function Reverse<T>(xs: seq<T>): (r: seq<T>)
    ensures |r| == |xs|
    ensures forall i :: 0 <= i < |xs| ==> r[i] == xs[|xs| - 1 - i]
  {
    if xs == [] then [] else Reverse(xs[1..]) + [xs[0]]
  }

  /** The number of occurrences of `c` in `s`. */
  function Count(s: string, c: char): nat
  {
    if s == [] then 0 else (if s[0] == c then 1 else 0) + Count(s[1..], c)
  }

  /** `s.replace(c, "")` with a one-character string pattern: only the FIRST occurrence is removed. */
  function RemoveFirst(s: string, c: char): (r: string)
  {
    if s == [] then []
    else if s[0] == c then s[1..]
    else [s[0]] + RemoveFirst(s[1..], c)
  }

  /** `s.replace(/c/g, "")`: every occurrence is removed. */
  function RemoveAll(s: string, c: char): (r: string)
    ensures c !in r
    ensures |r| <= |s|
  {
    if s == [] then []
    else if s[0] == c then RemoveAll(s[1..], c)
    else [s[0]] + RemoveAll(s[1..], c)
  }

  /** `ch.toUpperCase()` read as ASCII upper-casing. */
  function UpperAscii(ch: char): (r: char)
    ensures 'a' <= ch <= 'z' ==> 'A' <= r <= 'Z' && r as int == ch as int - 32
    ensures !('a' <= ch <= 'z') ==> r == ch
  {
    if 'a' <= ch <= 'z' then (ch as int - 32) as char else ch
  }

  /**
   * The characters `String.prototype.trim` removes: WhiteSpace and LineTerminator of
   * ECMAScript (section 12.2 and 12.3 of ECMA-262), with the Space_Separator category written out.
   */
  predicate IsJsWhitespace(ch: char)
  {
    ch == '\t' || ch == '\n' || ch == '\U{000B}' || ch == '\U{000C}' || ch == '\r' || ch == ' '
    || ch == '\U{00A0}' || ch == '\U{1680}' || ('\U{2000}' <= ch <= '\U{200A}')
    || ch == '\U{2028}' || ch == '\U{2029}' || ch == '\U{202F}' || ch == '\U{205F}' || ch == '\U{3000}'
    || ch == '\U{FEFF}'
  }

  function TrimStart(s: string): (r: string)
    ensures |r| <= |s| && r == s[|s| - |r|..]
    ensures r != [] ==> !IsJsWhitespace(r[0])
    ensures forall i :: 0 <= i < |s| - |r| ==> IsJsWhitespace(s[i])
  {
    if s != [] && IsJsWhitespace(s[0]) then TrimStart(s[1..]) else s
  }

  function TrimEnd(s: string): (r: string)
    ensures |r| <= |s| && r == s[..|r|]
    ensures r != [] ==> !IsJsWhitespace(r[|r| - 1])
    ensures forall i :: |r| <= i < |s| ==> IsJsWhitespace(s[i])
  {
    if s != [] && IsJsWhitespace(s[|s| - 1]) then TrimEnd(s[..|s| - 1]) else s
  }

  /** `s.trim()`. */
  function Trim(s: string): string
  {
    TrimEnd(TrimStart(s))
  }

  /** Ordinal (code point by code point) order: `a` sorts no later than `b`. */
  predicate OrdinalLe(a: string, b: string)
  {
    if a == [] then true
    else if b == [] then false
    else if a[0] != b[0] then a[0] < b[0]
    else OrdinalLe(a[1..], b[1..])
  }

  // ---------------------------------------------------------------------------
  // Lemmas

  /** Joining the pieces of a split with the separator gives back the string. */
  lemma {:induction false} JoinSplit(s: string, c: char)
    ensures Join(Split(s, c), [c]) == s
  {
    if s == [] {
    } else if s[0] == c {
      var rest := Split(s[1..], c);
      JoinSplit(s[1..], c);
      assert Split(s, c) == [""] + rest;
      assert ([""] + rest)[1..] == rest;
    } else {
      var rest := Split(s[1..], c);
      JoinSplit(s[1..], c);
      var r := [[s[0]] + rest[0]] + rest[1..];
      assert r[1..] == rest[1..];
      if |rest| == 1 {
        assert Join(rest, [c]) == rest[0];
      } else {
        assert Join(rest, [c]) == rest[0] + [c] + Join(rest[1..], [c]);
        assert Join(r, [c]) == r[0] + [c] + Join(rest[1..], [c]);
      }
    }
  }

  /** Splitting a string that starts with a `c`-free piece `x` and then a `c`. */
  lemma {:induction false} SplitAfterPiece(x: string, c: char, t: string)
    requires c !in x
    ensures Split(x + [c] + t, c) == [x] + Split(t, c)
  {
    if x == [] {
      assert x + [c] + t == [c] + t;
      assert ([c] + t)[1..] == t;
    } else {
      assert (x + [c] + t)[1..] == x[1..] + [c] + t;
      SplitAfterPiece(x[1..], c, t);
      assert [x[0]] + x[1..] == x;
    }
  }

  /** `s.split(c)` has one piece more than `s` has occurrences of `c`. */
  lemma {:induction false} SplitLength(s: string, c: char)
    ensures |Split(s, c)| == Count(s, c) + 1
  {
    if s != [] {
      SplitLength(s[1..], c);
    }
  }

  /** A `c`-free piece followed by `c` can be read back from the front of a string. */
  lemma PieceUnique(x: string, t: string, x': string, t': string, c: char)
    requires c !in x && c !in x'
    requires x + [c] + t == x' + [c] + t'
    ensures x == x' && t == t'
  {
    SplitAfterPiece(x, c, t);
    SplitAfterPiece(x', c, t');
    assert ([x] + Split(t, c))[0] == x;
    assert ([x'] + Split(t', c))[0] == x';
    assert x == x';
    assert t == (x + [c] + t)[|x| + 1..];
    assert t' == (x' + [c] + t')[|x'| + 1..];
  }

  /** A common prefix can be cancelled. */
  lemma PrefixCancel(p: string, a: string, b: string)
    requires p + a == p + b
    ensures a == b
  {
    assert a == (p + a)[|p|..];
    assert b == (p + b)[|p|..];
  }

  /** A `c`-free string is a single piece. */
  lemma {:induction false} SplitPiece(x: string, c: char)
    requires c !in x
    ensures Split(x, c) == [x]
  {
    if x != [] {
      SplitPiece(x[1..], c);
      assert [x[0]] + x[1..] == x;
    }
  }

  /** Splitting a join of `c`-free pieces gives back the pieces. */
  lemma {:induction false} SplitJoin(xs: seq<string>, c: char)
    requires |xs| >= 1
    requires forall i :: 0 <= i < |xs| ==> c !in xs[i]
    ensures Split(Join(xs, [c]), c) == xs
  {
    if |xs| == 1 {
      SplitPiece(xs[0], c);
    } else {
      SplitJoin(xs[1..], c);
      SplitAfterPiece(xs[0], c, Join(xs[1..], [c]));
      assert [xs[0]] + xs[1..] == xs;
    }
  }

  /** `Join` of a concatenation with one more element. */
  lemma {:induction false} JoinSnoc(xs: seq<string>, x: string, sep: string)
    requires |xs| >= 1
    ensures Join(xs + [x], sep) == Join(xs, sep) + sep + x
  {
    if |xs| == 1 {
      assert (xs + [x])[1..] == [x];
    } else {
      assert (xs + [x])[1..] == xs[1..] + [x];
      JoinSnoc(xs[1..], x, sep);
    }
  }

  /** `NonEmpty` keeps exactly the non-empty strings, in order. */
  lemma {:induction false} NonEmptyOfNonEmpty(xs: seq<string>)
    requires forall i :: 0 <= i < |xs| ==> xs[i] != ""
    ensures NonEmpty(xs) == xs
  {
    if xs != [] {
      NonEmptyOfNonEmpty(xs[1..]);
      assert [xs[0]] + xs[1..] == xs;
    }
  }

  lemma {:induction false} NonEmptyAppend(xs: seq<string>, ys: seq<string>)
    ensures NonEmpty(xs + ys) == NonEmpty(xs) + NonEmpty(ys)
  {
    if xs == [] {
      assert xs + ys == ys;
    } else {
      assert (xs + ys)[1..] == xs[1..] + ys;
      NonEmptyAppend(xs[1..], ys);
    }
  }

  /** Removing the first `c` takes exactly one `c` away when there is one. */
  lemma {:induction false} RemoveFirstCount(s: string, c: char)
    ensures Count(s, c) >= 1 ==> Count(RemoveFirst(s, c), c) == Count(s, c) - 1
    ensures Count(s, c) == 0 ==> RemoveFirst(s, c) == s
    ensures |RemoveFirst(s, c)| == |s| - (if Count(s, c) >= 1 then 1 else 0)
  {
    if s != [] && s[0] != c {
      RemoveFirstCount(s[1..], c);
      assert RemoveFirst(s, c)[1..] == RemoveFirst(s[1..], c);
      assert [s[0]] + s[1..] == s;
    }
  }

  /** `Count` is zero exactly for strings without `c`. */
  lemma {:induction false} CountZero(s: string, c: char)
    ensures Count(s, c) == 0 <==> c !in s
  {
    if s != [] {
      CountZero(s[1..], c);
      assert s == [s[0]] + s[1..];
    }
  }

  /** Removing every `c` from a `c`-free string changes nothing (so `RemoveAll` is idempotent). */
  lemma {:induction false} RemoveAllNoop(s: string, c: char)
    requires c !in s
    ensures RemoveAll(s, c) == s
  {
    if s != [] {
      RemoveAllNoop(s[1..], c);
      assert [s[0]] + s[1..] == s;
    }
  }

  /** Removing every `c` keeps all other characters, in order: it is the `c`-free subsequence. */
  lemma {:induction false} RemoveAllKeeps(s: string, c: char, d: char)
    requires d != c
    ensures Count(RemoveAll(s, c), d) == Count(s, d)
  {
    if s != [] {
      RemoveAllKeeps(s[1..], c, d);
      if s[0] != c {
        assert ([s[0]] + RemoveAll(s[1..], c))[1..] == RemoveAll(s[1..], c);
      }
    }
  }

  /** The trimmed string is empty exactly when the input is all whitespace. */
  lemma TrimEmpty(s: string)
    ensures Trim(s) == "" <==> forall i :: 0 <= i < |s| ==> IsJsWhitespace(s[i])
  {
    var t := TrimStart(s);
    if t != [] {
      assert !IsJsWhitespace(t[0]);
      assert t[0] == s[|s| - |t|];
    }
  }

  /** Trimming is a contiguous slice of the input with no whitespace at either end. */
  lemma TrimSlice(s: string)
    ensures exists i, j :: 0 <= i <= j <= |s| && Trim(s) == s[i..j]
    ensures Trim(s) != [] ==> !IsJsWhitespace(Trim(s)[0]) && !IsJsWhitespace(Trim(s)[|Trim(s)| - 1])
  {
    var t := TrimStart(s);
    var u := TrimEnd(t);
    var i := |s| - |t|;
    assert t == s[i..] && u == t[..|u|];
    assert u == s[i..i + |u|];
    if u != [] {
      assert u[0] == t[0];
    }
  }

  /** Trimming twice trims nothing more. */
  lemma TrimIdempotent(s: string)
    ensures Trim(Trim(s)) == Trim(s)
  {
    var t := TrimStart(s);
    var u := TrimEnd(t);
    if u != [] {
      assert u[0] == t[0];
    }
    assert TrimStart(u) == u;
  }

  /** The ordinal order is total, transitive and antisymmetric. */
  lemma {:induction false} OrdinalTotal(a: string, b: string)
    ensures OrdinalLe(a, b) || OrdinalLe(b, a)
  {
    if a != [] && b != [] && a[0] == b[0] {
      OrdinalTotal(a[1..], b[1..]);
    }
  }

  lemma {:induction false} OrdinalReflexive(a: string)
    ensures OrdinalLe(a, a)
  {
    if a != [] {
      OrdinalReflexive(a[1..]);
    }
  }

  lemma {:induction false} OrdinalTransitive(a: string, b: string, c: string)
    requires OrdinalLe(a, b) && OrdinalLe(b, c)
    ensures OrdinalLe(a, c)
  {
    if a != [] && b != [] && c != [] && a[0] == b[0] && b[0] == c[0] {
      OrdinalTransitive(a[1..], b[1..], c[1..]);
    }
  }

  lemma {:induction false} OrdinalAntisymmetric(a: string, b: string)
    requires OrdinalLe(a, b) && OrdinalLe(b, a)
    ensures a == b
  {
    if a != [] && b != [] {
      OrdinalAntisymmetric(a[1..], b[1..]);
      assert a == [a[0]] + a[1..] && b == [b[0]] + b[1..];
    }
  }
}
