/**
  Character-level helpers shared by the scene builder: an Option type, joining
  and splitting on a separator, searching for a character, and the decimal
  rendering of integers that Python's f-strings use (`str(int)`), together with
  the parsers that undo them.
 */
module Text {

  datatype Option<T> = None | Some(value: T)

  // ---------------------------------------------------------------------------
  // Searching

  /** The position of the first `c` in `s`, if any. */
  function IndexOf(s: string, c: char): (r: Option<nat>)
    ensures r.None? <==> c !in s
    ensures r.Some? ==> r.value < |s| && s[r.value] == c && c !in s[..r.value]
  {
    if |s| == 0 then None
    else if s[0] == c then Some(0)
    else match IndexOf(s[1..], c)
      case None => None
      case Some(k) => Some(k + 1)
  }

  /** The position of the last `c` in `s`, if any. */
  function LastIndexOf(s: string, c: char): (r: Option<nat>)
    ensures r.None? <==> c !in s
    ensures r.Some? ==> r.value < |s| && s[r.value] == c && c !in s[r.value + 1..]
  {
    if |s| == 0 then None
    else if s[|s| - 1] == c then Some(|s| - 1)
    else LastIndexOf(s[..|s| - 1], c)
  }

  lemma IndexOfAfterPrefix(a: string, c: char, b: string)
    requires c !in a
    ensures IndexOf(a + [c] + b, c) == Some(|a|)
  {
    var s := a + [c] + b;
    assert s[|a|] == c;
    assert s[..|a|] == a;
  }

  /** A `c` with no `c` after it is the last one. */
  lemma LastIndexOfAt(s: string, c: char, i: nat)
    requires i < |s| && s[i] == c && c !in s[i + 1..]
    ensures LastIndexOf(s, c) == Some(i)
  {
    assert c in s;
  }

  // ---------------------------------------------------------------------------
  // Joining and splitting

  /** The parts written one after the other with `sep` between neighbours. */
  function Join(parts: seq<string>, sep: char): string
  {
    if |parts| == 0 then ""
    else if |parts| == 1 then parts[0]
    else parts[0] + [sep] + Join(parts[1..], sep)
  }

  /** A character other than the separator occurs in a join only if it occurs in a part. */
  lemma {:induction false} JoinAvoids(parts: seq<string>, sep: char, c: char)
    requires c != sep
    requires forall i :: 0 <= i < |parts| ==> c !in parts[i]
    ensures c !in Join(parts, sep)
    decreases |parts|
  {
    if |parts| > 1 {
      JoinAvoids(parts[1..], sep, c);
    }
  }

  /** One step of `Join`: the first part, a separator, then the join of the rest. */
  lemma JoinCons(p: string, rest: seq<string>, sep: char)
    requires |rest| > 0
    ensures Join([p] + rest, sep) == p + [sep] + Join(rest, sep)
  {
    assert ([p] + rest)[1..] == rest;
  }

  lemma JoinFour(a: string, b: string, c: string, d: string, sep: char)
    ensures Join([a, b, c, d], sep) == a + [sep] + (b + [sep] + (c + [sep] + d))
  {
    JoinCons(a, [b, c, d], sep);
    JoinCons(b, [c, d], sep);
    JoinCons(c, [d], sep);
  }

  lemma JoinSeven(a: string, b: string, c: string, d: string, e: string, f: string, g: string, sep: char)
    ensures Join([a, b, c, d, e, f, g], sep)
         == a + [sep] + (b + [sep] + (c + [sep] + (d + [sep] + (e + [sep] + (f + [sep] + g)))))
  {
    JoinCons(a, [b, c, d, e, f, g], sep);
    JoinCons(b, [c, d, e, f, g], sep);
    JoinCons(c, [d, e, f, g], sep);
    JoinCons(d, [e, f, g], sep);
    JoinCons(e, [f, g], sep);
    JoinCons(f, [g], sep);
  }

  /** Joining two nonempty lists one after the other joins their joins. */
  lemma {:induction false} JoinSplit(a: seq<string>, b: seq<string>, sep: char)
    requires |a| > 0 && |b| > 0
    ensures Join(a + b, sep) == Join(a, sep) + [sep] + Join(b, sep)
    decreases |a|
  {
    if |a| == 1 {
      assert a + b == [a[0]] + b;
      JoinCons(a[0], b, sep);
    } else {
      assert a + b == [a[0]] + (a[1..] + b);
      assert a == [a[0]] + a[1..];
      JoinCons(a[0], a[1..] + b, sep);
      JoinCons(a[0], a[1..], sep);
      JoinSplit(a[1..], b, sep);
    }
  }

  /** Joining one more part onto a text `h` followed by a join appends a separator and that part. */
  lemma PrefixJoinSnoc(h: string, front: seq<string>, last: string, sep: char)
    requires |front| > 0
    ensures h + Join(front + [last], sep) == h + Join(front, sep) + [sep] + last
  {
    JoinSplit(front, [last], sep);
  }

  lemma PrefixJoinSplit(h: string, a: seq<string>, b: seq<string>, sep: char)
    requires |a| > 0 && |b| > 0
    ensures h + Join(a + b, sep) == h + Join(a, sep) + [sep] + Join(b, sep)
  {
    JoinSplit(a, b, sep);
  }

  /** A text `p` followed by the join of seven parts, written out from left to right. */
  lemma JoinSevenAfter(p: string, a: string, b: string, c: string, d: string, e: string, f: string, g: string, sep: char)
    ensures p + Join([a, b, c, d, e, f, g], sep)
         == p + a + [sep] + b + [sep] + c + [sep] + d + [sep] + e + [sep] + f + [sep] + g
  {
    assert [a, b, c, d, e, f] + [g] == [a, b, c, d, e, f, g];
    PrefixJoinSnoc(p, [a, b, c, d, e, f], g, sep);
    assert [a, b, c, d, e] + [f] == [a, b, c, d, e, f];
    PrefixJoinSnoc(p, [a, b, c, d, e], f, sep);
    assert [a, b, c, d] + [e] == [a, b, c, d, e];
    PrefixJoinSnoc(p, [a, b, c, d], e, sep);
    assert [a, b, c] + [d] == [a, b, c, d];
    PrefixJoinSnoc(p, [a, b, c], d, sep);
    assert [a, b] + [c] == [a, b, c];
    PrefixJoinSnoc(p, [a, b], c, sep);
    assert [a] + [b] == [a, b];
    PrefixJoinSnoc(p, [a], b, sep);
  }

  /** A text `p` followed by the join of fourteen parts, written out from left to right. */
  lemma JoinFourteenAfter(p: string, a: string, b: string, c: string, d: string, e: string, f: string, g: string,
                          h: string, i: string, j: string, k: string, l: string, m: string, n: string, sep: char)
    ensures p + Join([a, b, c, d, e, f, g, h, i, j, k, l, m, n], sep)
         == p + a + [sep] + b + [sep] + c + [sep] + d + [sep] + e + [sep] + f + [sep] + g + [sep]
            + h + [sep] + i + [sep] + j + [sep] + k + [sep] + l + [sep] + m + [sep] + n
  {
    assert [a, b, c, d, e, f, g] + [h, i, j, k, l, m, n] == [a, b, c, d, e, f, g, h, i, j, k, l, m, n];
    PrefixJoinSplit(p, [a, b, c, d, e, f, g], [h, i, j, k, l, m, n], sep);
    JoinSevenAfter(p, a, b, c, d, e, f, g, sep);
    JoinSevenAfter(p + a + [sep] + b + [sep] + c + [sep] + d + [sep] + e + [sep] + f + [sep] + g + [sep], h, i, j, k, l, m, n, sep);
  }

  /** The maximal pieces of `s` that contain no `sep`, in order. */
  function Split(s: string, sep: char): (parts: seq<string>)
    ensures |parts| > 0
  {
    if |s| == 0 then [""]
    else
      var rest := Split(s[1..], sep);
      if s[0] == sep then [""] + rest else [[s[0]] + rest[0]] + rest[1..]
  }

  lemma {:induction false} SplitWithoutSeparator(s: string, sep: char)
    requires sep !in s
    ensures Split(s, sep) == [s]
  {
    if |s| > 0 {
      assert sep !in s[1..];
      SplitWithoutSeparator(s[1..], sep);
      assert [s[0]] + s[1..] == s;
    }
  }

  /** One step of `Split`: a leading separator starts a new piece, any other character extends the first one. */
  lemma SplitCons(c: char, t: string, sep: char)
    ensures Split([c] + t, sep)
         == if c == sep then [""] + Split(t, sep) else [[c] + Split(t, sep)[0]] + Split(t, sep)[1..]
  {
    assert ([c] + t)[0] == c && ([c] + t)[1..] == t;
  }

  lemma ExtendFirst(c: char, pa: seq<string>, pb: seq<string>)
    requires |pa| > 0
    ensures [[c] + (pa + pb)[0]] + (pa + pb)[1..] == ([[c] + pa[0]] + pa[1..]) + pb
  {
    assert (pa + pb)[0] == pa[0];
    assert (pa + pb)[1..] == pa[1..] + pb;
  }

  lemma ConsAppend(x: string, pa: seq<string>, pb: seq<string>)
    ensures [x] + (pa + pb) == ([x] + pa) + pb
  {
  }

  /** Splitting distributes over one separator: the pieces of `a` and of `b` are kept apart. */
  lemma {:induction false} SplitAround(a: string, sep: char, b: string)
    ensures Split(a + [sep] + b, sep) == Split(a, sep) + Split(b, sep)
    decreases |a|
  {
    if |a| == 0 {
      assert a + [sep] + b == [sep] + b;
      SplitCons(sep, b, sep);
    } else {
      var c, t := a[0], a[1..];
      assert a == [c] + t;
      assert a + [sep] + b == [c] + (t + [sep] + b);
      SplitCons(c, t + [sep] + b, sep);
      SplitCons(c, t, sep);
      SplitAround(t, sep, b);
      if c == sep {
        ConsAppend("", Split(t, sep), Split(b, sep));
      } else {
        ExtendFirst(c, Split(t, sep), Split(b, sep));
      }
    }
  }

  /** Splitting undoes joining when no part contains the separator. */
  lemma {:induction false} SplitJoin(parts: seq<string>, sep: char)
    requires |parts| > 0
    requires forall i :: 0 <= i < |parts| ==> sep !in parts[i]
    ensures Split(Join(parts, sep), sep) == parts
    decreases |parts|
  {
    if |parts| == 1 {
      SplitWithoutSeparator(parts[0], sep);
    } else {
      SplitAround(parts[0], sep, Join(parts[1..], sep));
      SplitWithoutSeparator(parts[0], sep);
      SplitJoin(parts[1..], sep);
    }
  }

  // ---------------------------------------------------------------------------
  // Python's rendering of integers

  predicate IsDigit(c: char) {
    '0' <= c <= '9'
  }

  function DigitChar(d: nat): (c: char)
    requires d < 10
    ensures IsDigit(c)
  {
    ('0' as int + d) as char
  }

  /** The decimal digits of `n`, most significant first, without leading zeros. */
  function Digits(n: nat): (s: string)
    ensures |s| > 0
    ensures forall k :: 0 <= k < |s| ==> IsDigit(s[k])
    ensures |s| > 1 ==> s[0] != '0'
    decreases n
  {
    if n < 10 then [DigitChar(n)] else Digits(n / 10) + [DigitChar(n % 10)]
  }

  /** `str(i)` for a Python int: optional minus sign, then the digits of `|i|`. */
  function IntText(i: int): (s: string)
    ensures |s| > 0 && (s[0] == '-' <==> i < 0)
  {
    if i < 0 then "-" + Digits(-i) else Digits(i)
  }

  /** A rendered integer holds only a sign and digits (no separator, quote or line break). */
  lemma IntTextCharacters(i: int)
    ensures |IntText(i)| > 0
    ensures forall k :: 0 <= k < |IntText(i)| ==> IsDigit(IntText(i)[k]) || (k == 0 && IntText(i)[k] == '-')
  {
  }

  /** The value of a nonempty string of decimal digits. */
  function ParseNat(s: string): Option<nat>
    decreases |s|
  {
    if |s| == 0 || !IsDigit(s[|s| - 1]) then None
    else
      var d := s[|s| - 1] as int - '0' as int;
      if |s| == 1 then Some(d)
      else match ParseNat(s[..|s| - 1])
        case None => None
        case Some(n) => Some(10 * n + d)
  }

  /** The value of an optionally negated decimal numeral. */
  function ParseInt(s: string): Option<int>
  {
    if |s| > 0 && s[0] == '-' then
      match ParseNat(s[1..])
      case None => None
      case Some(n) => Some(-(n as int))
    else
      match ParseNat(s)
      case None => None
      case Some(n) => Some(n)
  }

  lemma {:induction false} ParseDigits(n: nat)
    ensures ParseNat(Digits(n)) == Some(n)
    decreases n
  {
    if n >= 10 {
      var s := Digits(n);
      assert s[..|s| - 1] == Digits(n / 10);
      ParseDigits(n / 10);
    }
  }

  lemma ParseNegative(n: nat)
    requires n > 0
    ensures ParseInt("-" + Digits(n)) == Some(-(n as int))
  {
    var s := "-" + Digits(n);
    assert s[0] == '-' && s[1..] == Digits(n);
    ParseDigits(n);
  }

  lemma ParseNonNegative(n: nat)
    ensures ParseInt(Digits(n)) == Some(n)
  {
    assert IsDigit(Digits(n)[0]);
    ParseDigits(n);
  }

  /** Parsing recovers every integer from its rendering, so the rendering is injective. */
  lemma ParseIntText(i: int)
    ensures ParseInt(IntText(i)) == Some(i)
  {
    if i < 0 {
      ParseNegative(-i);
    } else {
      ParseNonNegative(i);
    }
  }

  lemma IntTextInjective(i: int, j: int)
    ensures IntText(i) == IntText(j) <==> i == j
  {
    ParseIntText(i);
    ParseIntText(j);
  }
}
