/**
 * The Python string and path primitives the scripts rely on: str.startswith,
 * str(int), sep.join, str.split, str.format with `{}` fields, and the
 * POSIX forms of os.path.join, os.path.basename and os.path.splitext.
 */
module Text {

  /** str.startswith */
  predicate StartsWith(s: string, prefix: string) {
    |prefix| <= |s| && s[..|prefix|] == prefix
  }

  /** str.endswith */
  predicate EndsWith(s: string, suffix: string) {
    |suffix| <= |s| && s[|s| - |suffix|..] == suffix
  }

  predicate IsDigit(c: char) {
    '0' <= c <= '9'
  }

  predicate AllDigits(s: string) {
    forall i :: 0 <= i < |s| ==> IsDigit(s[i])
  }

  function DigitChar(d: nat): (c: char)
    requires d < 10
    ensures IsDigit(c) && c as int - '0' as int == d
  {
    (d + '0' as int) as char
  }

  /** str(n) for a non-negative int: decimal digits, no leading zero. */
  function NatToDecimal(n: nat): (s: string)
    ensures |s| >= 1 && AllDigits(s)
    ensures s[0] == '0' ==> n == 0
  {
    if n < 10 then [DigitChar(n)] else NatToDecimal(n / 10) + [DigitChar(n % 10)]
  }

  /** The number a string of decimal digits denotes. */
  function DecimalValue(s: string): nat
    requires AllDigits(s)
  {
    if |s| == 0 then 0 else 10 * DecimalValue(s[..|s| - 1]) + (s[|s| - 1] as int - '0' as int)
  }

  lemma {:induction false} DecimalRoundTrip(n: nat)
    ensures DecimalValue(NatToDecimal(n)) == n
  {
    if n >= 10 {
      var s := NatToDecimal(n);
      assert s[..|s| - 1] == NatToDecimal(n / 10);
      DecimalRoundTrip(n / 10);
    }
  }

  /** Different numbers are written differently. */
  lemma NatToDecimalInjective(m: nat, n: nat)
    ensures NatToDecimal(m) == NatToDecimal(n) <==> m == n
  {
    DecimalRoundTrip(m);
    DecimalRoundTrip(n);
  }

  /** str(i) for any int. */
  function IntToDecimal(i: int): (s: string)
    ensures |s| >= 1
    ensures s[0] == '-' <==> i < 0
    ensures i >= 0 ==> AllDigits(s) && DecimalValue(s) == i
  {
    DecimalRoundTrip(if i < 0 then -i else i);
    if i < 0 then "-" + NatToDecimal(-i) else NatToDecimal(i)
  }

  /** sep.join(xs) */
  function Join(sep: string, xs: seq<string>): (s: string)
  {
    if |xs| == 0 then "" else if |xs| == 1 then xs[0] else xs[0] + sep + Join(sep, xs[1..])
  }

  /** s.split(c) for a one-character separator: never empty, no part holds the separator. */
  function Split(s: string, c: char): (parts: seq<string>)
    ensures |parts| >= 1
    ensures forall i :: 0 <= i < |parts| ==> c !in parts[i]
    ensures StartsWith(s, parts[0])
    ensures |parts[0]| == |s| || s[|parts[0]|] == c
  {
    if |s| == 0 then [""]
    else
      var rest := Split(s[1..], c);
      if s[0] == c then [""] + rest else [[s[0]] + rest[0]] + rest[1..]
  }

  /** Joining the parts of a split with the separator gives the string back. */
  lemma {:induction false} JoinSplit(s: string, c: char)
    ensures Join([c], Split(s, c)) == s
  {
    if |s| > 0 {
      var rest := Split(s[1..], c);
      JoinSplit(s[1..], c);
      if s[0] == c {
        assert Split(s, c) == [""] + rest;
        assert ([""] + rest)[1..] == rest;
      } else if |rest| > 1 {
        assert Split(s, c) == [[s[0]] + rest[0]] + rest[1..];
        assert ([[s[0]] + rest[0]] + rest[1..])[1..] == rest[1..];
      }
    }
  }

  lemma {:induction false} SplitWithoutSeparator(x: string, c: char)
    requires c !in x
    ensures Split(x, c) == [x]
  {
    if |x| > 0 {
      assert c !in x[1..] by {
        forall i | 0 <= i < |x[1..]| ensures x[1..][i] != c { assert x[1..][i] == x[i + 1]; }
      }
      SplitWithoutSeparator(x[1..], c);
      assert [x[0]] + x[1..] == x;
    }
  }

  lemma {:induction false} SplitAtSeparator(x: string, c: char, t: string)
    requires c !in x
    ensures Split(x + [c] + t, c) == [x] + Split(t, c)
  {
    if |x| == 0 {
      assert x + [c] + t == [c] + t;
      assert ([c] + t)[1..] == t;
    } else {
      assert (x + [c] + t)[1..] == x[1..] + [c] + t;
      SplitAtSeparator(x[1..], c, t);
      assert [x[0]] + x[1..] == x;
    }
  }

  /** Splitting a join recovers the joined strings when none holds the separator. */
  lemma {:induction false} SplitJoin(xs: seq<string>, c: char)
    requires |xs| >= 1
    requires forall i :: 0 <= i < |xs| ==> c !in xs[i]
    ensures Split(Join([c], xs), c) == xs
  {
    if |xs| == 1 {
      SplitWithoutSeparator(xs[0], c);
    } else {
      SplitJoin(xs[1..], c);
      SplitAtSeparator(xs[0], c, Join([c], xs[1..]));
      assert [xs[0]] + xs[1..] == xs;
    }
  }

  /**
   * template.format(*args) for a template whose only replacement fields are
   * `{}`: the template is given as the literal pieces around those fields.
   */
  function Fill(pieces: seq<string>, args: seq<string>): (s: string)
    requires |pieces| == |args| + 1
    ensures StartsWith(s, pieces[0])
    ensures EndsWith(s, pieces[|pieces| - 1])
  {
    if |args| == 0 then pieces[0] else pieces[0] + args[0] + Fill(pieces[1..], args[1..])
  }

  /** The arguments of a filled two-field template stand verbatim at fixed offsets. */
  lemma FillTwoFields(pieces: seq<string>, a: string, b: string)
    requires |pieces| == 3
    ensures var s := Fill(pieces, [a, b]);
      var i := |pieces[0]|;
      var j := i + |a| + |pieces[1]|;
      && |s| == j + |b| + |pieces[2]|
      && s[..i] == pieces[0] && s[i..i + |a|] == a
      && s[i + |a|..j] == pieces[1] && s[j..j + |b|] == b
      && s[j + |b|..] == pieces[2]
  {
    assert [a, b][1..] == [b] && [b][1..] == [];
    assert pieces[1..][1..] == pieces[2..];
    assert Fill(pieces[2..], []) == pieces[2];
    assert Fill(pieces[1..], [b]) == pieces[1] + b + pieces[2];
  }

  /** The last index of c in s, or -1 (str.rfind). */
  function RFind(s: string, c: char): (i: int)
    ensures -1 <= i < |s|
    ensures i >= 0 ==> s[i] == c
    ensures forall j :: i < j < |s| ==> s[j] != c
  {
    if |s| == 0 then -1 else if s[|s| - 1] == c then |s| - 1 else RFind(s[..|s| - 1], c)
  }

  /** os.path.join(dir, name) on POSIX. */
  function PathJoin(dir: string, name: string): (p: string)
    ensures EndsWith(p, name)
  {
    if StartsWith(name, "/") then name
    else if dir == "" || EndsWith(dir, "/") then dir + name
    else dir + "/" + name
  }

  /** Inside one directory, different names give different paths. */
  lemma PathJoinInjective(dir: string, a: string, b: string)
    requires StartsWith(a, "/") == StartsWith(b, "/")
    ensures PathJoin(dir, a) == PathJoin(dir, b) <==> a == b
  {
    if !StartsWith(a, "/") {
      var k := if dir == "" || EndsWith(dir, "/") then |dir| else |dir| + 1;
      assert PathJoin(dir, a)[k..] == a;
      assert PathJoin(dir, b)[k..] == b;
    }
  }

  /** os.path.basename on POSIX: everything after the last '/'. */
  function Basename(p: string): string {
    p[RFind(p, '/') + 1..]
  }

  /** The basename has no '/', ends the path, and is preceded by a '/' unless it is the whole path. */
  lemma BasenameShape(p: string)
    ensures var b := Basename(p);
      && '/' !in b
      && EndsWith(p, b)
      && (|b| < |p| ==> p[|p| - |b| - 1] == '/')
  {
    var i := RFind(p, '/');
    var b := p[i + 1..];
    forall k | 0 <= k < |b| ensures b[k] != '/' {
      assert b[k] == p[i + 1 + k];
    }
  }

  predicate AllDots(s: string) {
    forall i :: 0 <= i < |s| ==> s[i] == '.'
  }

  /**
   * The root part of os.path.splitext on POSIX: the text before the last '.'
   * of the last path component, unless that component has only dots before it.
   */
  function StripExtension(p: string): string {
    var sep := RFind(p, '/');
    var dot := RFind(p, '.');
    if dot > sep && !AllDots(p[sep + 1..dot]) then p[..dot] else p
  }

  /** The root is a prefix of the path; anything cut off starts at a '.' and has no further '.' or '/'. */
  lemma StripExtensionShape(p: string)
    ensures var root := StripExtension(p);
      && StartsWith(p, root)
      && (|root| < |p| ==> p[|root|] == '.')
      && (|root| < |p| ==> forall j :: |root| < j < |p| ==> p[j] != '.' && p[j] != '/')
  {
  }
}
