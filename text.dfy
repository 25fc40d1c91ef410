/**
 * The pieces of Go's `strings`, `path` and `strconv` packages that the cgroup
 * and network code rely on, over `string` (one char stands for one byte of a Go string).
 */
module Text {
  import opened Wrappers

  /** Number of occurrences of `c` in `s`. */
  function Count(s: string, c: char): nat
  {
    if s == [] then 0 else (if s[0] == c then 1 else 0) + Count(s[1..], c)
  }

  /**
   * strings.Split(s, string(sep)) for a one-character separator: the pieces
   * between separators, empty pieces included, so there is always one more
   * piece than there are separators, and no piece holds a separator.
   */
  function Split(s: string, sep: char): (parts: seq<string>)
    ensures |parts| == Count(s, sep) + 1
    ensures forall i :: 0 <= i < |parts| ==> sep !in parts[i]
    decreases |s|
  {
    if s == [] then [[]]
    else
      var rest := Split(s[1..], sep);
      if s[0] == sep then [[]] + rest
      else [[s[0]] + rest[0]] + rest[1..]
  }

  /** strings.Join(parts, string(sep)). */
  function Join(parts: seq<string>, sep: char): string
    decreases |parts|
  {
    if |parts| == 0 then []
    else if |parts| == 1 then parts[0]
    else parts[0] + [sep] + Join(parts[1..], sep)
  }

  /** Joining the pieces of a split gives back the original text. */
  lemma {:induction false} JoinSplit(s: string, sep: char)
    ensures Join(Split(s, sep), sep) == s
    decreases |s|
  {
    if s != [] {
      var rest := Split(s[1..], sep);
      JoinSplit(s[1..], sep);
      if s[0] == sep {
        assert ([[]] + rest)[1..] == rest;
        assert s == [sep] + s[1..];
      } else {
        if |rest| > 1 {
          assert ([[s[0]] + rest[0]] + rest[1..])[1..] == rest[1..];
        }
        assert s == [s[0]] + s[1..];
      }
    }
  }

  /** A separator-free word followed by a separator comes out as the first piece. */
  lemma {:induction false} SplitAfterWord(w: string, t: string, sep: char)
    requires sep !in w
    ensures Split(w + [sep] + t, sep) == [w] + Split(t, sep)
    decreases |w|
  {
    if w == [] {
      assert w + [sep] + t == [sep] + t;
      assert ([sep] + t)[1..] == t;
    } else {
      SplitAfterWord(w[1..], t, sep);
      assert (w + [sep] + t)[1..] == w[1..] + [sep] + t;
      assert w == [w[0]] + w[1..];
    }
  }

  /** A separator-free word is a single piece. */
  lemma {:induction false} SplitWord(w: string, sep: char)
    requires sep !in w
    ensures Split(w, sep) == [w]
    decreases |w|
  {
    if w != [] {
      SplitWord(w[1..], sep);
      assert w == [w[0]] + w[1..];
    }
  }

  /** Splitting a join of separator-free pieces gives back exactly those pieces. */
  lemma {:induction false} SplitJoin(parts: seq<string>, sep: char)
    requires |parts| >= 1
    requires forall i :: 0 <= i < |parts| ==> sep !in parts[i]
    ensures Split(Join(parts, sep), sep) == parts
    decreases |parts|
  {
    if |parts| == 1 {
      SplitWord(parts[0], sep);
    } else {
      SplitJoin(parts[1..], sep);
      SplitAfterWord(parts[0], Join(parts[1..], sep), sep);
      assert parts == [parts[0]] + parts[1..];
    }
  }

  /** strings.HasSuffix. */
  predicate HasSuffix(s: string, suffix: string)
  {
    |suffix| <= |s| && s[|s| - |suffix|..] == suffix
  }

  /**
   * The `file` half of path.Split(p): the longest '/'-free suffix of `p`,
   * which is everything after the final '/'.
   */
  function Base(p: string): (file: string)
    ensures |file| <= |p|
    ensures forall j :: 0 <= j < |file| ==> file[j] == p[|p| - |file| + j]
    ensures '/' !in file
    ensures |file| < |p| ==> p[|p| - |file| - 1] == '/'
    decreases |p|
  {
    if p == [] || p[|p| - 1] == '/' then []
    else
      var front := p[..|p| - 1];
      Base(front) + [p[|p| - 1]]
  }

  /** A path ending in '/' followed by a non-empty '/'-free name has that name as its base. */
  lemma {:induction false} BaseOfSuffix(p: string, name: string)
    requires name != [] && '/' !in name
    requires |name| < |p| && p[|p| - |name|..] == name && p[|p| - |name| - 1] == '/'
    ensures Base(p) == name
    decreases |name|
  {
    var front := p[..|p| - 1];
    assert p[|p| - 1] == name[|name| - 1];
    if |name| > 1 {
      var shorter := name[..|name| - 1];
      assert front[|front| - |shorter|..] == shorter;
      assert front[|front| - |shorter| - 1] == '/';
      BaseOfSuffix(front, shorter);
      assert name == shorter + [p[|p| - 1]];
    } else {
      assert front[|front| - 1] == '/';
      assert name == [p[|p| - 1]];
    }
  }

  /**
   * path.Join(dir, elem) for a clean directory and a clean relative element:
   * one '/' between them, none added when either side is empty or `dir`
   * already ends in '/'.
   */
  function PathJoin(dir: string, elem: string): string
  {
    if dir == [] then elem
    else if elem == [] then dir
    else if dir[|dir| - 1] == '/' then dir + elem
    else dir + "/" + elem
  }

  predicate IsDigit(c: char)
  {
    '0' <= c <= '9'
  }

  predicate AllDigits(s: string)
  {
    forall i :: 0 <= i < |s| ==> IsDigit(s[i])
  }

  function DigitChar(d: nat): (c: char)
    requires d < 10
    ensures IsDigit(c)
  {
    (48 + d) as char
  }

  function DigitValue(c: char): nat
    requires IsDigit(c)
  {
    (c as int) - 48
  }

  /** The decimal digits of `n`, most significant first, without leading zeros. */
  function NatDigits(n: nat): (s: string)
    ensures |s| >= 1 && AllDigits(s)
    ensures s[0] == '0' <==> n == 0
    decreases n
  {
    if n < 10 then [DigitChar(n)] else NatDigits(n / 10) + [DigitChar(n % 10)]
  }

  /** strconv.Itoa: decimal text, with a leading '-' for negative values. */
  function Itoa(n: int): string
  {
    if n < 0 then "-" + NatDigits(-n) else NatDigits(n)
  }

  /** The value of a run of decimal digits. */
  function ParseNat(s: string): nat
    requires AllDigits(s)
    decreases |s|
  {
    if s == [] then 0 else 10 * ParseNat(s[..|s| - 1]) + DigitValue(s[|s| - 1])
  }

  /** Reads back a decimal integer as Itoa writes it; `None` for anything else. */
  function ParseDecimal(s: string): Option<int>
  {
    if |s| >= 2 && s[0] == '-' && AllDigits(s[1..]) then Some(0 - ParseNat(s[1..]) as int)
    else if |s| >= 1 && AllDigits(s) then Some(ParseNat(s) as int)
    else None
  }

  lemma {:induction false} ParseNatDigits(n: nat)
    ensures ParseNat(NatDigits(n)) == n
    decreases n
  {
    if n >= 10 {
      ParseNatDigits(n / 10);
      var s := NatDigits(n);
      assert s[..|s| - 1] == NatDigits(n / 10);
    }
  }

  /** The decimal text Itoa writes reads back as the same integer. */
  lemma ItoaRoundTrip(n: int)
    ensures ParseDecimal(Itoa(n)) == Some(n)
  {
    if n < 0 {
      ParseNatDigits(-n);
      assert Itoa(n)[1..] == NatDigits(-n);
    } else {
      ParseNatDigits(n);
    }
  }
}
