/** The string handling the file-name code relies on: Python's `str.split` with a
    one-character separator, `str.join`, `os.path.split(...)[-1]`, `int(...)` on a string
    of ASCII digits, and zero-padded decimal formatting (`%04d`, `{:02d}`). */
module Text {
  import opened Wrappers

  predicate IsDigit(c: char) {
    '0' <= c <= '9'
  }

  predicate AllDigits(s: string) {
    forall i :: 0 <= i < |s| ==> IsDigit(s[i])
  }

  function DigitValue(c: char): nat
    requires IsDigit(c)
  {
    c as int - '0' as int
  }

  function Digit(d: nat): (c: char)
    requires d < 10
    ensures IsDigit(c) && DigitValue(c) == d
  {
    (('0' as int) + d) as char
  }

  /** The number a string of decimal digits denotes, most significant digit first. */
  function Value(s: string): nat
    requires AllDigits(s)
  {
    if s == [] then 0 else Value(s[..|s| - 1]) * 10 + DigitValue(s[|s| - 1])
  }

  /** `int(s)` narrowed to plain ASCII digits: the value of a non-empty run of them,
      and `None` (the ValueError) for anything else. */
  function ParseNat(s: string): (r: Option<nat>)
    ensures r.Some? <==> s != [] && AllDigits(s)
  {
    if s != [] && AllDigits(s) then Some(Value(s)) else None
  }

  function Pow10(k: nat): (p: nat)
    ensures 1 <= p
  {
    if k == 0 then 1 else 10 * Pow10(k - 1)
  }

  /** `n` in decimal, padded on the left with zeros to at least `width` digits. */
  function PadDecimal(n: nat, width: nat): (s: string)
    decreases n + width
  {
    if n < 10 && width <= 1 then [Digit(n)]
    else PadDecimal(n / 10, if width == 0 then 0 else width - 1) + [Digit(n % 10)]
  }

  /** Padding produces digits only, at least `width` and at least one of them, and
      reading them back gives `n`. */
  lemma {:induction false} PadDecimalValue(n: nat, width: nat)
    ensures var s := PadDecimal(n, width);
      1 <= |s| && width <= |s| && AllDigits(s) && Value(s) == n
    decreases n + width
  {
    var s := PadDecimal(n, width);
    if n < 10 && width <= 1 {
      assert s == [Digit(n)];
      assert s[..0] == [];
    } else {
      var w := if width == 0 then 0 else width - 1;
      PadDecimalValue(n / 10, w);
      var t := PadDecimal(n / 10, w);
      assert s == t + [Digit(n % 10)];
      assert s[..|s| - 1] == t;
    }
  }

  /** A number below 10^width is padded to exactly `width` digits. */
  lemma {:induction false} PadDecimalLength(n: nat, width: nat)
    requires 1 <= width && n < Pow10(width)
    ensures |PadDecimal(n, width)| == width
    decreases width
  {
    if n < 10 && width <= 1 {
    } else {
      assert n / 10 < Pow10(width - 1);
      PadDecimalLength(n / 10, width - 1);
    }
  }

  /** Python's `s.split(c)`: the maximal pieces between occurrences of `c`, so that
      there is always at least one piece and `c` never occurs in a piece. */
  function Split(s: string, c: char): (parts: seq<string>)
    ensures 1 <= |parts|
    ensures forall k :: 0 <= k < |parts| ==> c !in parts[k]
  {
    if s == [] then [""]
    else if s[0] == c then [""] + Split(s[1..], c)
    else
      var rest := Split(s[1..], c);
      [[s[0]] + rest[0]] + rest[1..]
  }

  /** Python's `sep.join(parts)`. */
  function Join(parts: seq<string>, sep: string): string {
    if |parts| == 0 then ""
    else if |parts| == 1 then parts[0]
    else parts[0] + sep + Join(parts[1..], sep)
  }

  /** Joining the pieces of a split with the separator gives back the string. */
  lemma {:induction false} JoinSplit(s: string, c: char)
    ensures Join(Split(s, c), [c]) == s
  {
    if s == [] {
    } else if s[0] == c {
      JoinSplit(s[1..], c);
      var rest := Split(s[1..], c);
      assert Split(s, c) == [""] + rest;
      assert ([""] + rest)[1..] == rest;
    } else {
      JoinSplit(s[1..], c);
      var rest := Split(s[1..], c);
      var parts := Split(s, c);
      assert parts == [[s[0]] + rest[0]] + rest[1..];
      if |rest| == 1 {
        assert parts == [[s[0]] + rest[0]];
      } else {
        assert parts[1..] == rest[1..];
        assert Join(rest, [c]) == rest[0] + [c] + Join(rest[1..], [c]);
        assert s == [s[0]] + s[1..];
      }
    }
  }

  /** Splitting a join of pieces free of the separator gives back the pieces. */
  lemma {:induction false} SplitJoin(parts: seq<string>, c: char)
    requires 1 <= |parts|
    requires forall k :: 0 <= k < |parts| ==> c !in parts[k]
    ensures Split(Join(parts, [c]), c) == parts
    decreases |parts|, |parts[0]|
  {
    var p := parts[0];
    if |parts| == 1 {
      SplitFree(p, c);
    } else if p == [] {
      var tail := parts[1..];
      SplitJoin(tail, c);
      assert Join(parts, [c]) == [c] + Join(tail, [c]);
      assert (Join(parts, [c]))[1..] == Join(tail, [c]);
      assert parts == [""] + tail;
    } else {
      var shorter := [p[1..]] + parts[1..];
      assert c !in p[1..] by {
        assert forall i :: 0 <= i < |p[1..]| ==> p[1..][i] == p[i + 1];
      }
      SplitJoin(shorter, c);
      assert shorter[1..] == parts[1..];
      var j := Join(parts, [c]);
      assert j == [p[0]] + Join(shorter, [c]);
      assert j[0] == p[0] && j[1..] == Join(shorter, [c]);
      assert p == [p[0]] + p[1..];
      assert Split(j, c) == [[p[0]] + p[1..]] + parts[1..];
    }
  }

  /** A string without the separator splits into itself alone. */
  lemma {:induction false} SplitFree(s: string, c: char)
    requires c !in s
    ensures Split(s, c) == [s]
  {
    if s != [] {
      assert c !in s[1..];
      SplitFree(s[1..], c);
      assert s == [s[0]] + s[1..];
    }
  }

  /** `os.path.split(path)[-1]`: whatever follows the last '/'. */
  function Basename(path: string): (b: string)
    ensures '/' !in b
  {
    var parts := Split(path, '/');
    parts[|parts| - 1]
  }

  /** The base name of a path is what follows its last '/'. */
  lemma {:induction false} BasenameAfterSlash(dir: string, name: string)
    requires '/' !in name
    ensures Basename(dir + "/" + name) == name
  {
    SplitAfter(dir, name, '/');
  }

  /** Splitting at `c` a string that ends with `c` and a piece free of `c` gives at least
      two pieces, the last of them that piece. */
  lemma {:induction false} SplitAfter(s: string, name: string, c: char)
    requires c !in name
    ensures var parts := Split(s + [c] + name, c);
      2 <= |parts| && parts[|parts| - 1] == name
    decreases |s|
  {
    var x := s + [c] + name;
    if s == [] {
      assert x[0] == c && x[1..] == name;
      SplitFree(name, c);
    } else {
      assert x[0] == s[0] && x[1..] == s[1..] + [c] + name;
      SplitAfter(s[1..], name, c);
    }
  }

  /** Splitting at `c` two strings joined by `c` gives the pieces of the first followed by
      the pieces of the second. */
  lemma {:induction false} SplitConcat(a: string, b: string, c: char)
    ensures Split(a + [c] + b, c) == Split(a, c) + Split(b, c)
    decreases |a|
  {
    var x := a + [c] + b;
    if a == [] {
      assert x[0] == c && x[1..] == b;
    } else {
      assert x[0] == a[0] && x[1..] == a[1..] + [c] + b;
      SplitConcat(a[1..], b, c);
      if a[0] != c {
        var rest := Split(a[1..], c);
        assert (rest + Split(b, c))[0] == rest[0];
        assert (rest + Split(b, c))[1..] == rest[1..] + Split(b, c);
      }
    }
  }
}
