/** The few Python 2 `str` operations the modelled code relies on, on `seq<char>`. */
module PyStr {
  import opened Wrappers

  /** The characters Python 2's `str.isspace` accepts: space, \t, \n, \v, \f, \r. */
  const Whitespace: set<char> := {' ', '\t', '\n', '\r', 11 as char, 12 as char}

  /** `s.rstrip(chars)`: drop the longest suffix made of characters in `cs`. */
  function RStripSet(s: string, cs: set<char>): (r: string)
    ensures r <= s
    ensures forall i :: |r| <= i < |s| ==> s[i] in cs
    ensures r == [] || r[|r| - 1] !in cs
  {
    if |s| > 0 && s[|s| - 1] in cs then RStripSet(s[..|s| - 1], cs) else s
  }

  /** `s.lstrip(chars)`: drop the longest prefix made of characters in `cs`. */
  function LStripSet(s: string, cs: set<char>): (r: string)
    ensures |r| <= |s| && r == s[|s| - |r|..]
    ensures forall i :: 0 <= i < |s| - |r| ==> s[i] in cs
    ensures r == [] || r[0] !in cs
  {
    if |s| > 0 && s[0] in cs then LStripSet(s[1..], cs) else s
  }

  /** Characters stripped from the end of a suffix do not reach into what precedes it
      when the suffix keeps a character outside `cs`. */
  lemma {:induction false} RStripSetAppend(a: string, b: string, cs: set<char>)
    requires RStripSet(b, cs) != []
    ensures RStripSet(a + b, cs) == a + RStripSet(b, cs)
  {
    if |b| > 0 && b[|b| - 1] in cs {
      RStripSetAppend(a, b[..|b| - 1], cs);
      assert (a + b)[..|a + b| - 1] == a + b[..|b| - 1];
    }
  }

  /** Appending characters of `cs` changes nothing that `rstrip` keeps. */
  lemma {:induction false} RStripSetTrailing(x: string, ws: string, cs: set<char>)
    requires forall i :: 0 <= i < |ws| ==> ws[i] in cs
    ensures RStripSet(x + ws, cs) == RStripSet(x, cs)
  {
    if ws == [] {
      assert x + ws == x;
    } else {
      RStripSetTrailing(x, ws[..|ws| - 1], cs);
      assert (x + ws)[..|x + ws| - 1] == x + ws[..|ws| - 1];
    }
  }

  /** A string that does not end in a character of `cs` is kept whole. */
  lemma RStripSetKeeps(x: string, cs: set<char>)
    requires x == [] || x[|x| - 1] !in cs
    ensures RStripSet(x, cs) == x
  {
  }

  /** Python's `lst[i]`: a negative index counts from the end. */
  function ListIndex(i: int, len: nat): (r: Option<nat>)
    ensures r.Some? <==> 0 <= i + len && i < len
    ensures r.Some? ==> r.value < len && (r.value == i || r.value == i + len)
  {
    if 0 <= i < len then Some(i) else if 0 <= i + len && i < 0 then Some(i + len) else None
  }

  /** `s.rstrip()` */
  function RStrip(s: string): string { RStripSet(s, Whitespace) }

  /** `s.lstrip().rstrip()` */
  function Strip(s: string): string { RStripSet(LStripSet(s, Whitespace), Whitespace) }

  /** `s.split(c)` for a one-character separator: every piece between two separators,
      empty pieces included. */
  function Split(s: string, c: char): (parts: seq<string>)
    ensures |parts| >= 1
    ensures forall i :: 0 <= i < |parts| ==> c !in parts[i]
  {
    if s == [] then [[]]
    else
      var t := Split(s[1..], c);
      if s[0] == c then [[]] + t else [[s[0]] + t[0]] + t[1..]
  }

  /** `sep.join(parts)` */
  function Join(parts: seq<string>, sep: string): string
  {
    if |parts| == 0 then []
    else if |parts| == 1 then parts[0]
    else parts[0] + sep + Join(parts[1..], sep)
  }

  /** Joining the pieces of a split with the separator gives the string back. */
  lemma {:induction false} JoinSplit(s: string, c: char)
    ensures Join(Split(s, c), [c]) == s
  {
    if s != [] {
      var t := Split(s[1..], c);
      JoinSplit(s[1..], c);
      if s[0] == c {
        assert Split(s, c) == [[]] + t;
      } else {
        var parts := Split(s, c);
        assert parts == [[s[0]] + t[0]] + t[1..];
        if |t| == 1 {
          assert Join(t, [c]) == t[0];
        } else {
          assert Join(t, [c]) == t[0] + [c] + Join(t[1..], [c]);
          assert parts[1..] == t[1..];
        }
      }
    }
  }

  lemma {:induction false} SplitNoSeparator(s: string, c: char)
    requires c !in s
    ensures Split(s, c) == [s]
  {
    if s != [] {
      SplitNoSeparator(s[1..], c);
      assert s[0] != c;
      assert [s[0]] + s[1..] == s;
    }
  }

  lemma {:induction false} SplitAtFirst(a: string, c: char, b: string)
    requires c !in a
    ensures Split(a + [c] + b, c) == [a] + Split(b, c)
  {
    if a == [] {
      assert a + [c] + b == [c] + b;
      assert ([c] + b)[1..] == b;
    } else {
      SplitAtFirst(a[1..], c, b);
      var s := a + [c] + b;
      assert s[0] == a[0] && a[0] != c;
      assert s[1..] == a[1..] + [c] + b;
      assert [a[0]] + a[1..] == a;
    }
  }

  /** Splitting a join on a separator that occurs in no piece gives the pieces back. */
  lemma {:induction false} SplitJoin(parts: seq<string>, c: char)
    requires |parts| >= 1
    requires forall i :: 0 <= i < |parts| ==> c !in parts[i]
    ensures Split(Join(parts, [c]), c) == parts
  {
    if |parts| == 1 {
      SplitNoSeparator(parts[0], c);
    } else {
      SplitJoin(parts[1..], c);
      SplitAtFirst(parts[0], c, Join(parts[1..], [c]));
      assert [parts[0]] + parts[1..] == parts;
    }
  }

  lemma SplitCons(x: char, s: string, c: char)
    ensures Split([x] + s, c) == if x == c then [[]] + Split(s, c)
      else [[x] + Split(s, c)[0]] + Split(s, c)[1..]
  {
    assert ([x] + s)[1..] == s;
  }

  lemma SplitConsAppend(x: char, u: seq<string>, v: seq<string>, y: seq<string>, c: char)
    requires |u| >= 1
    requires y == (if x == c then [[]] + u else [[x] + u[0]] + u[1..])
    ensures (if x == c then [[]] + (u + v) else [[x] + (u + v)[0]] + (u + v)[1..]) == y + v
  {
    assert (u + v)[0] == u[0];
    assert (u + v)[1..] == u[1..] + v;
  }

  /** Splitting at one separator splits the two sides independently. */
  lemma {:induction false} SplitConcat(a: string, c: char, b: string)
    ensures Split(a + [c] + b, c) == Split(a, c) + Split(b, c)
  {
    if a == [] {
      assert a + [c] + b == [c] + b;
      SplitCons(c, b, c);
    } else {
      var a' := a[1..];
      SplitConcat(a', c, b);
      assert a + [c] + b == [a[0]] + (a' + [c] + b);
      assert a == [a[0]] + a';
      SplitCons(a[0], a' + [c] + b, c);
      SplitCons(a[0], a', c);
      SplitConsAppend(a[0], Split(a', c), Split(b, c), Split(a, c), c);
    }
  }

  /** A command line joined from fixed words and one free-form piece `p` splits back
      into those words, with the pieces of `p` in its place. */
  lemma {:induction false} SplitTemplate(a: seq<string>, p: string, b: seq<string>, c: char)
    requires forall i :: 0 <= i < |a| ==> c !in a[i]
    requires forall i :: 0 <= i < |b| ==> c !in b[i]
    ensures Split(Join(a + [p] + b, [c]), c) == a + Split(p, c) + b
  {
    if a == [] {
      assert a + [p] + b == [p] + b;
      SplitTemplateFirst(p, b, c);
    } else {
      SplitTemplate(a[1..], p, b, c);
      SplitTemplateStep(a, p, b, c);
    }
  }

  lemma SplitTemplateFirst(p: string, b: seq<string>, c: char)
    requires forall i :: 0 <= i < |b| ==> c !in b[i]
    ensures Split(Join([p] + b, [c]), c) == Split(p, c) + b
  {
    var ws := [p] + b;
    if b == [] {
      assert Join(ws, [c]) == p;
    } else {
      assert ws[1..] == b;
      assert Join(ws, [c]) == p + [c] + Join(b, [c]);
      SplitConcat(p, c, Join(b, [c]));
      SplitJoin(b, c);
    }
  }

  lemma SplitTemplateStep(a: seq<string>, p: string, b: seq<string>, c: char)
    requires a != [] && c !in a[0]
    requires Split(Join(a[1..] + [p] + b, [c]), c) == a[1..] + Split(p, c) + b
    ensures Split(Join(a + [p] + b, [c]), c) == a + Split(p, c) + b
  {
    var rest := a[1..] + [p] + b;
    var tail := Join(rest, [c]);
    JoinCons(a + [p] + b, a[0], rest, [c]);
    SplitAtFirst(a[0], c, tail);
    SeqCons(a, Split(p, c), b);
  }

  lemma JoinCons(ws: seq<string>, x: string, rest: seq<string>, sep: string)
    requires ws == [x] + rest && |rest| >= 1
    ensures Join(ws, sep) == x + sep + Join(rest, sep)
  {
    assert ws[1..] == rest;
  }

  lemma SeqCons<T>(a: seq<T>, m: seq<T>, b: seq<T>)
    requires a != []
    ensures [a[0]] + (a[1..] + m + b) == a + m + b
  {
    assert [a[0]] + a[1..] == a;
  }

  /** `sub` occurs in `s` starting at index `j`. */
  predicate OccursAt(s: string, sub: string, j: int)
  {
    0 <= j && j + |sub| <= |s| && s[j..j + |sub|] == sub
  }

  lemma OccursShift(s: string, sub: string, j: int)
    requires |s| >= 1 && j >= 1
    ensures OccursAt(s, sub, j) <==> OccursAt(s[1..], sub, j - 1)
  {
    if j + |sub| <= |s| {
      assert s[1..][j - 1..j - 1 + |sub|] == s[j..j + |sub|];
    }
  }

  /** `s.find(sub)`: the first index where `sub` occurs, if any. */
  function Find(s: string, sub: string): (r: Option<nat>)
    ensures r.Some? ==> OccursAt(s, sub, r.value)
    ensures r.Some? ==> forall j :: 0 <= j < r.value ==> !OccursAt(s, sub, j)
    ensures r.None? ==> forall j :: !OccursAt(s, sub, j)
    decreases |s|
  {
    if |s| < |sub| then None
    else if s[..|sub|] == sub then Some(0)
    else
      var t := Find(s[1..], sub);
      FindStep(s, sub, t);
      if t.None? then None else Some(t.value + 1)
  }

  lemma FindStep(s: string, sub: string, t: Option<nat>)
    requires |s| >= 1 && |s| >= |sub| && s[..|sub|] != sub
    requires t.Some? ==> OccursAt(s[1..], sub, t.value)
    requires t.Some? ==> forall j :: 0 <= j < t.value ==> !OccursAt(s[1..], sub, j)
    requires t.None? ==> forall j :: !OccursAt(s[1..], sub, j)
    ensures t.Some? ==> OccursAt(s, sub, t.value + 1)
    ensures t.Some? ==> forall j :: 0 <= j < t.value + 1 ==> !OccursAt(s, sub, j)
    ensures t.None? ==> forall j :: !OccursAt(s, sub, j)
  {
    assert !OccursAt(s, sub, 0);
    forall j | j >= 1 ensures OccursAt(s, sub, j) <==> OccursAt(s[1..], sub, j - 1) {
      OccursShift(s, sub, j);
    }
  }

  /** `sub in s` */
  predicate Contains(s: string, sub: string) { Find(s, sub).Some? }

  /** A string occurs in any concatenation that has it as a piece. */
  lemma ContainsMiddle(a: string, sub: string, b: string)
    ensures Contains(a + sub + b, sub)
  {
    assert (a + sub + b)[|a|..|a| + |sub|] == sub;
    assert OccursAt(a + sub + b, sub, |a|);
  }

  function LowerChar(c: char): char
  {
    if 'A' <= c <= 'Z' then (c as int - 'A' as int + 'a' as int) as char else c
  }

  /** `s.lower()` on ASCII letters, as Python 2 does for a byte string. */
  function Lower(s: string): (r: string)
    ensures |r| == |s|
  {
    seq(|s|, i requires 0 <= i < |s| => LowerChar(s[i]))
  }

  /** `[x] * n`; a negative count gives the empty list. */
  function Repeat(x: string, n: int): (r: seq<string>)
    ensures |r| == if n < 0 then 0 else n
    ensures forall i :: 0 <= i < |r| ==> r[i] == x
  {
    seq(if n < 0 then 0 else n, _ => x)
  }

  predicate IsDigit(c: char) { '0' <= c <= '9' }

  function DigitChar(d: nat): (c: char)
    requires d < 10
    ensures IsDigit(c)
  {
    ('0' as int + d) as char
  }

  /** `str(n)` for a non-negative integer. */
  function NatToString(n: nat): (s: string)
    ensures |s| >= 1
    ensures forall i :: 0 <= i < |s| ==> IsDigit(s[i])
    ensures s[0] == '0' ==> n == 0 && |s| == 1
  {
    if n < 10 then [DigitChar(n)] else NatToString(n / 10) + [DigitChar(n % 10)]
  }

  /** The value of a string of decimal digits. */
  function DigitsValue(s: string): nat
    requires forall i :: 0 <= i < |s| ==> IsDigit(s[i])
  {
    if s == [] then 0
    else
      assert IsDigit(s[|s| - 1]);
      DigitsValue(s[..|s| - 1]) * 10 + (s[|s| - 1] as int - '0' as int)
  }

  /** `str(n)` is read back as `n`, so distinct numbers print differently. */
  lemma {:induction false} NatToStringValue(n: nat)
    ensures DigitsValue(NatToString(n)) == n
  {
    if n >= 10 {
      NatToStringValue(n / 10);
      var s := NatToString(n);
      assert s[..|s| - 1] == NatToString(n / 10);
    }
  }

  /** `str(i)` for any integer. */
  function IntToString(i: int): (s: string)
    ensures |s| >= 1
    ensures s[0] == '-' <==> i < 0
  {
    if i < 0 then "-" + NatToString(-i) else NatToString(i)
  }

  /** The text of a `%`-format and the number of `%s` conversions it consumed;
      None when it holds a conversion other than `%s` and `%%`. */
  function Expand(p: string, arg: string): (r: Option<(string, nat)>)
  {
    if p == [] then Some(([], 0))
    else if p[0] != '%' then
      match Expand(p[1..], arg)
      case None => None
      case Some((t, k)) => Some(([p[0]] + t, k))
    else if |p| >= 2 && p[1] == 's' then
      match Expand(p[2..], arg)
      case None => None
      case Some((t, k)) => Some((arg + t, k + 1))
    else if |p| >= 2 && p[1] == '%' then
      match Expand(p[2..], arg)
      case None => None
      case Some((t, k)) => Some(("%" + t, k))
    else None
  }

  /** `pattern % arg` with one string argument: exactly one `%s` must consume it. */
  function PercentFormat(pattern: string, arg: string): (r: Result<string>)
  {
    match Expand(pattern, arg)
    case None => Err(ValueError("unsupported format character"))
    case Some((t, k)) =>
      if k == 1 then Ok(t)
      else if k == 0 then Err(TypeError("not all arguments converted during string formatting"))
      else Err(TypeError("not enough arguments for format string"))
  }

  lemma {:induction false} ExpandPlain(p: string, arg: string)
    requires '%' !in p
    ensures Expand(p, arg) == Some((p, 0))
  {
    if p != [] {
      ExpandPlain(p[1..], arg);
      assert [p[0]] + p[1..] == p;
    }
  }

  /** A pattern with one `%s` and no other `%` puts the argument in its place. */
  lemma {:induction false} PercentFormatOne(a: string, b: string, arg: string)
    requires '%' !in a && '%' !in b
    ensures PercentFormat(a + "%s" + b, arg) == Ok(a + arg + b)
  {
    ExpandOne(a, b, arg);
  }

  lemma {:induction false} ExpandOne(a: string, b: string, arg: string)
    requires '%' !in a && '%' !in b
    ensures Expand(a + "%s" + b, arg) == Some((a + arg + b, 1))
  {
    if a == [] {
      ExpandPlain(b, arg);
      ExpandAtPlaceholder(b, arg);
      assert a + "%s" + b == "%s" + b;
      assert a + arg + b == arg + b;
    } else {
      ExpandOne(a[1..], b, arg);
      ExpandPlainChar(a[0], a[1..] + "%s" + b, arg);
      assert a + "%s" + b == [a[0]] + (a[1..] + "%s" + b);
      assert [a[0]] + (a[1..] + arg + b) == a + arg + b;
    }
  }

  lemma ExpandAtPlaceholder(b: string, arg: string)
    ensures var e := Expand(b, arg);
      Expand("%s" + b, arg) == if e.None? then None else Some((arg + e.value.0, e.value.1 + 1))
  {
    assert ("%s" + b)[2..] == b;
  }

  lemma ExpandPlainChar(x: char, rest: string, arg: string)
    requires x != '%'
    ensures var e := Expand(rest, arg);
      Expand([x] + rest, arg) == if e.None? then None else Some(([x] + e.value.0, e.value.1))
  {
    assert ([x] + rest)[1..] == rest;
  }

  /** A pattern without `%` cannot consume the argument and raises. */
  lemma NoPlaceholderRaises(p: string, arg: string)
    requires '%' !in p
    ensures PercentFormat(p, arg).Err?
  {
    ExpandPlain(p, arg);
  }
}
