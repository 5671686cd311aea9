/**
 * The few Python string operations the tool relies on, restricted to ASCII:
 * `str.strip()` / `str.strip(chars)`, `str.split(sep)`, `str.splitlines()`
 * (line feeds only), `str.lower()` and `int(str)` (optional sign and decimal digits).
 *
 * Most functions here carry no contract of their own; what they compute is
 * stated by the lemmas that follow each of them, so that a use of a function
 * does not drag every fact about it into an unrelated proof.
 */
module Strings {

  datatype Option<+T> = None | Some(value: T)

  /**
   * The ASCII characters for which Python's `str.isspace()` holds: the space,
   * tab, line feed, vertical tab, form feed, carriage return, and the file,
   * group, record and unit separators.
   */
  predicate IsSpace(c: char) {
    c == ' ' || '\t' <= c <= '\r' || '\U{1C}' <= c <= '\U{1F}'
  }

  const Whitespace: set<char> := set c: char | '\0' <= c <= ' ' && IsSpace(c)

  /** Every character of `t` belongs to `cs`. */
  predicate AllIn(t: string, cs: set<char>) {
    forall k :: 0 <= k < |t| ==> t[k] in cs
  }

  /** Neither end of `t` is a character of `cs`. */
  predicate Trimmed(t: string, cs: set<char>) {
    t == [] || (t[0] !in cs && t[|t| - 1] !in cs)
  }

  /** `r` is `s` with some padding made of characters of `cs` removed at each end. */
  ghost predicate PaddedBy(s: string, r: string, cs: set<char>) {
    exists i :: 0 <= i <= |s| - |r| && s[i..i + |r|] == r && AllIn(s[..i], cs) && AllIn(s[i + |r|..], cs)
  }

  // ---------------------------------------------------------------------------
  // strip
  // ---------------------------------------------------------------------------

  /** Drops the longest prefix made of characters of `cs`. */
  function TrimLeft(s: string, cs: set<char>): string
    decreases |s|
  {
    if s != [] && s[0] in cs then TrimLeft(s[1..], cs) else s
  }

  /** Drops the longest suffix made of characters of `cs`. */
  function TrimRight(s: string, cs: set<char>): string
    decreases |s|
  {
    if s != [] && s[|s| - 1] in cs then TrimRight(s[..|s| - 1], cs) else s
  }

  /** Python's `s.strip(chars)` with `chars` given as the set `cs`. */
  function Trim(s: string, cs: set<char>): string {
    TrimRight(TrimLeft(s, cs), cs)
  }

  /** Python's `s.strip()`. */
  function Strip(s: string): string {
    Trim(s, Whitespace)
  }

  /** `TrimLeft` keeps a suffix and removes exactly the leading run of `cs`. */
  lemma {:induction false} TrimLeftSpec(s: string, cs: set<char>)
    ensures var r := TrimLeft(s, cs);
      |r| <= |s| && r == s[|s| - |r|..] && AllIn(s[..|s| - |r|], cs) && (r == [] || r[0] !in cs)
    decreases |s|
  {
    if s != [] && s[0] in cs {
      TrimLeftSpec(s[1..], cs);
      var r := TrimLeft(s, cs);
      assert s[..|s| - |r|] == [s[0]] + s[1..][..|s| - 1 - |r|];
    }
  }

  /** `TrimRight` keeps a prefix and removes exactly the trailing run of `cs`. */
  lemma {:induction false} TrimRightSpec(s: string, cs: set<char>)
    ensures var r := TrimRight(s, cs);
      |r| <= |s| && r == s[..|r|] && AllIn(s[|r|..], cs) && (r == [] || r[|r| - 1] !in cs)
    decreases |s|
  {
    if s != [] && s[|s| - 1] in cs {
      TrimRightSpec(s[..|s| - 1], cs);
      var r := TrimRight(s, cs);
      assert s[|r|..] == s[..|s| - 1][|r|..] + [s[|s| - 1]];
    }
  }

  /**
   * `Trim` leaves no character of `cs` at either end, and what it removed on
   * each side consists of characters of `cs` only.
   */
  lemma TrimSpec(s: string, cs: set<char>)
    ensures Trimmed(Trim(s, cs), cs) && PaddedBy(s, Trim(s, cs), cs)
  {
    var l := TrimLeft(s, cs);
    var r := TrimRight(l, cs);
    TrimLeftSpec(s, cs);
    TrimRightSpec(l, cs);
    var i := |s| - |l|;
    assert s[i..i + |r|] == r;
    assert s[i + |r|..] == l[|r|..];
  }

  lemma {:induction false} TrimLeftOfPadded(w: string, t: string, cs: set<char>)
    requires AllIn(w, cs)
    requires t == [] || t[0] !in cs
    ensures TrimLeft(w + t, cs) == t
    decreases |w|
  {
    if w != [] {
      assert (w + t)[1..] == w[1..] + t;
      TrimLeftOfPadded(w[1..], t, cs);
    }
  }

  lemma {:induction false} TrimRightOfPadded(t: string, w: string, cs: set<char>)
    requires AllIn(w, cs)
    requires t == [] || t[|t| - 1] !in cs
    ensures TrimRight(t + w, cs) == t
    decreases |w|
  {
    if w != [] {
      assert (t + w)[..|t + w| - 1] == t + w[..|w| - 1];
      TrimRightOfPadded(t, w[..|w| - 1], cs);
    } else {
      assert t + w == t;
    }
  }

  /**
   * `Trim` is determined by padding: whatever is left once padding made of
   * `cs` is removed from both ends is the result.
   */
  lemma TrimOfPadded(w1: string, t: string, w2: string, cs: set<char>)
    requires AllIn(w1, cs) && AllIn(w2, cs)
    requires Trimmed(t, cs)
    ensures Trim(w1 + t + w2, cs) == t
  {
    if t == [] {
      assert w1 + t + w2 == w1 + w2;
      assert AllIn(w1 + w2, cs);
      TrimLeftOfPadded(w1 + w2, [], cs);
      assert w1 + w2 + [] == w1 + w2;
    } else {
      assert w1 + t + w2 == w1 + (t + w2);
      TrimLeftOfPadded(w1, t + w2, cs);
      TrimRightOfPadded(t, w2, cs);
    }
  }

  /** Stripping a string that has no padding leaves it as it is. */
  lemma TrimOfTrimmed(t: string, cs: set<char>)
    requires Trimmed(t, cs)
    ensures Trim(t, cs) == t
  {
    TrimOfPadded([], t, [], cs);
    assert [] + t + [] == t;
  }

  /** A string cut out of `s` holds none of the characters `s` lacks. */
  lemma PaddedByKeepsOut(s: string, r: string, cs: set<char>, c: char)
    requires PaddedBy(s, r, cs) && c !in s
    ensures c !in r
  {
    var i :| 0 <= i <= |s| - |r| && s[i..i + |r|] == r && AllIn(s[..i], cs) && AllIn(s[i + |r|..], cs);
  }

  /** `Trim` brings in no character its input lacks, and leaves no character of `cs` at either end. */
  lemma TrimKeepsOut(s: string, cs: set<char>, c: char)
    requires c !in s
    ensures c !in Trim(s, cs) && Trimmed(Trim(s, cs), cs)
  {
    TrimSpec(s, cs);
    PaddedByKeepsOut(s, Trim(s, cs), cs, c);
  }

  /** Stripping leaves nothing exactly when the whole string is blank. */
  lemma StripEmptyIffBlank(s: string)
    ensures Strip(s) == [] <==> AllIn(s, Whitespace)
  {
    if AllIn(s, Whitespace) {
      TrimOfPadded(s, [], [], Whitespace);
      assert s + [] + [] == s;
    } else {
      TrimLeftSpec(s, Whitespace);
      var l := TrimLeft(s, Whitespace);
      assert s[..|s|] == s;
      TrimRightSpec(l, Whitespace);
    }
  }

  // ---------------------------------------------------------------------------
  // split, join, splitlines
  // ---------------------------------------------------------------------------

  /**
   * Python's `s.split(sep)` for a one-character separator: the pieces between
   * separators, always at least one.
   */
  function Split(s: string, sep: char): (r: seq<string>)
    ensures |r| >= 1
    decreases |s|
  {
    if s == [] then [[]]
    else
      var rest := Split(s[1..], sep);
      if s[0] == sep then [[]] + rest
      else [[s[0]] + rest[0]] + rest[1..]
  }

  /** No piece holds the separator. */
  lemma {:induction false} SplitPieces(s: string, sep: char)
    ensures forall i :: 0 <= i < |Split(s, sep)| ==> sep !in Split(s, sep)[i]
    decreases |s|
  {
    if s != [] {
      SplitPieces(s[1..], sep);
      var rest := Split(s[1..], sep);
      if s[0] != sep {
        assert sep !in rest[0];
        assert sep !in [s[0]] + rest[0];
      }
    }
  }

  /** The last piece holds no separator. */
  lemma LastPieceKeepsOut(s: string, sep: char)
    ensures var r := Split(s, sep); sep !in r[|r| - 1]
  {
    SplitPieces(s, sep);
  }

  /** The first piece is everything before the first separator. */
  lemma {:induction false} SplitFirstBefore(x: string, sep: char, y: string)
    requires sep !in x
    ensures Split(x + [sep] + y, sep)[0] == x
    decreases |x|
  {
    if x != [] {
      assert (x + [sep] + y)[1..] == x[1..] + [sep] + y;
      SplitFirstBefore(x[1..], sep, y);
      assert [x[0]] + x[1..] == x;
    }
  }

  /** A string without the separator is a single piece. */
  lemma {:induction false} SplitWithoutSeparator(y: string, sep: char)
    requires sep !in y
    ensures Split(y, sep) == [y]
    decreases |y|
  {
    if y != [] {
      SplitWithoutSeparator(y[1..], sep);
      assert [y[0]] + y[1..] == y;
    }
  }

  /** Python's `sep.join(parts)` for a one-character separator. */
  function JoinWith(parts: seq<string>, sep: char): string {
    if parts == [] then []
    else if |parts| == 1 then parts[0]
    else parts[0] + [sep] + JoinWith(parts[1..], sep)
  }

  lemma JoinCons(x: string, parts: seq<string>, sep: char)
    requires parts != []
    ensures JoinWith([x] + parts, sep) == x + [sep] + JoinWith(parts, sep)
  {
    assert ([x] + parts)[1..] == parts;
  }

  lemma JoinPrependFirst(c: char, parts: seq<string>, sep: char)
    requires parts != []
    ensures JoinWith([[c] + parts[0]] + parts[1..], sep) == [c] + JoinWith(parts, sep)
  {
    if |parts| > 1 {
      JoinCons([c] + parts[0], parts[1..], sep);
      JoinCons(parts[0], parts[1..], sep);
      assert [parts[0]] + parts[1..] == parts;
    } else {
      assert [[c] + parts[0]] + parts[1..] == [[c] + parts[0]];
    }
  }

  /** Splitting loses nothing: the pieces joined back give the input. */
  lemma {:induction false} JoinSplit(s: string, sep: char)
    ensures JoinWith(Split(s, sep), sep) == s
    decreases |s|
  {
    if s != [] {
      var rest := Split(s[1..], sep);
      JoinSplit(s[1..], sep);
      if s[0] == sep {
        JoinCons([], rest, sep);
      } else {
        JoinPrependFirst(s[0], rest, sep);
      }
      assert s == [s[0]] + s[1..];
    }
  }

  /** A text holding the separator splits into at least two pieces. */
  lemma {:induction false} SplitAtSeparator(s: string, sep: char)
    requires sep in s
    ensures |Split(s, sep)| >= 2
    decreases |s|
  {
    if s[0] != sep {
      assert sep in s[1..];
      SplitAtSeparator(s[1..], sep);
    }
  }

  /** The piece after the last separator is everything after it. */
  lemma {:induction false} SplitLastAfterSeparator(x: string, sep: char, y: string)
    requires sep !in y
    ensures var r := Split(x + [sep] + y, sep); r[|r| - 1] == y
    decreases |x|
  {
    var s := x + [sep] + y;
    if x == [] {
      assert s[1..] == y;
      SplitWithoutSeparator(y, sep);
    } else {
      assert s[1..] == x[1..] + [sep] + y;
      SplitLastAfterSeparator(x[1..], sep, y);
      var rest := Split(s[1..], sep);
      if s[0] != sep {
        assert s[1..][|x| - 1] == sep;
        SplitAtSeparator(s[1..], sep);
        assert ([[s[0]] + rest[0]] + rest[1..])[|rest| - 1] == rest[|rest| - 1];
      } else {
        assert ([[]] + rest)[|rest|] == rest[|rest| - 1];
      }
    }
  }

  /**
   * Python's `s.splitlines()` with only `\n` as a line break: the text between
   * breaks, and no empty last line for a text that ends in a break.
   */
  function Lines(s: string): seq<string> {
    if s == [] then []
    else if s[|s| - 1] == '\n' then Split(s[..|s| - 1], '\n')
    else Split(s, '\n')
  }

  /**
   * No line holds a break, there are no lines exactly when the text is empty,
   * and joining the lines with breaks gives back the text (less a final break).
   */
  lemma LinesSpec(s: string)
    ensures var r := Lines(s);
      && (forall i :: 0 <= i < |r| ==> '\n' !in r[i])
      && (r == [] <==> s == [])
      && (s != [] && s[|s| - 1] != '\n' ==> JoinWith(r, '\n') == s)
      && (s != [] && s[|s| - 1] == '\n' ==> JoinWith(r, '\n') + "\n" == s)
  {
    if s != [] {
      var body := if s[|s| - 1] == '\n' then s[..|s| - 1] else s;
      JoinSplit(body, '\n');
      SplitPieces(body, '\n');
      assert s[|s| - 1] == '\n' ==> body + "\n" == s;
    }
  }

  // ---------------------------------------------------------------------------
  // lower, int
  // ---------------------------------------------------------------------------

  function LowerChar(c: char): char {
    if 'A' <= c <= 'Z' then (c as int + 32) as char else c
  }

  /** Python's `s.lower()` on ASCII letters. */
  function Lower(s: string): (r: string)
    ensures |r| == |s|
  {
    if s == [] then [] else [LowerChar(s[0])] + Lower(s[1..])
  }

  /** `Lower` lowers each letter in place and leaves every other character alone. */
  lemma {:induction false} LowerSpec(s: string)
    ensures forall i :: 0 <= i < |s| ==> Lower(s)[i] == LowerChar(s[i])
    decreases |s|
  {
    if s != [] {
      LowerSpec(s[1..]);
    }
  }

  predicate IsDigit(c: char) {
    '0' <= c <= '9'
  }

  predicate AllDigits(s: string) {
    forall i :: 0 <= i < |s| ==> IsDigit(s[i])
  }

  /** The value of a string of decimal digits, most significant first. */
  function DigitsValue(s: string): nat
    requires AllDigits(s)
    decreases |s|
  {
    if s == [] then 0 else DigitsValue(s[..|s| - 1]) * 10 + (s[|s| - 1] as int - '0' as int)
  }

  /** The digits `int` reads: the stripped text less one leading sign. */
  function Unsigned(t: string): string {
    if t != [] && t[0] in {'+', '-'} then t[1..] else t
  }

  /**
   * The most digits Python's `int(s)` reads from a decimal string
   * (`sys.int_info.default_max_str_digits`); leading zeros count.
   */
  const MaxStrDigits: nat := 4300

  /**
   * The blanks Python's `int(s)` skips around an ASCII numeral: C's `isspace`
   * set, the space and tab to carriage return. Unlike `str.strip()`, it keeps
   * the file, group, record and unit separators.
   */
  const IntBlanks: set<char> := set c: char | '\t' <= c <= ' ' && (c == ' ' || c <= '\r')

  /** The blanks `int(s)` skips, stripped from both ends. */
  function IntStrip(s: string): string {
    Trim(s, IntBlanks)
  }

  /**
   * Python's `int(s)` on ASCII input: surrounding `IntBlanks`, an optional
   * sign, then at least one and at most `MaxStrDigits` decimal digits;
   * anything else is a ValueError (None).
   */
  function ParseInt(s: string): Option<int> {
    var t := IntStrip(s);
    var digits := Unsigned(t);
    if digits != [] && AllDigits(digits) && |digits| <= MaxStrDigits then
      var v: int := DigitsValue(digits);
      Some(if t[0] == '-' then -v else v)
    else None
  }

  /** A line that `int` accepts ends, once stripped, in a digit and starts with a digit or a sign. */
  lemma ParseIntShape(s: string)
    requires ParseInt(s).Some?
    ensures var t := IntStrip(s); |t| > 0 && IsDigit(t[|t| - 1]) && (IsDigit(t[0]) || t[0] in {'+', '-'})
  {
    var t := IntStrip(s);
    var digits := Unsigned(t);
    assert digits[|digits| - 1] == t[|t| - 1];
  }

  /** The decimal rendering of `n`, as Python's `str(n)` gives it. */
  function Decimal(n: nat): (r: string)
    ensures |r| >= 1 && AllDigits(r)
    ensures r[0] == '0' ==> n == 0
  {
    if n < 10 then [('0' as int + n) as char]
    else Decimal(n / 10) + [('0' as int + n % 10) as char]
  }

  lemma {:induction false} DigitsValueOfDecimal(n: nat)
    ensures DigitsValue(Decimal(n)) == n
  {
    if n >= 10 {
      var d := Decimal(n);
      assert d[..|d| - 1] == Decimal(n / 10);
      DigitsValueOfDecimal(n / 10);
    }
  }

  /** `int(str(n))` gives back `n`, with surrounding blanks too, for `n` of at most `MaxStrDigits` digits. */
  lemma ParseIntOfDecimal(w1: string, n: nat, w2: string)
    requires AllIn(w1, IntBlanks) && AllIn(w2, IntBlanks)
    requires |Decimal(n)| <= MaxStrDigits
    ensures ParseInt(w1 + Decimal(n) + w2) == Some(n)
  {
    var d := Decimal(n);
    assert Trimmed(d, IntBlanks);
    TrimOfPadded(w1, d, w2, IntBlanks);
    assert Unsigned(d) == d;
    DigitsValueOfDecimal(n);
  }

  /** `int("-" + str(n))` gives back `-n`, for `n` of at most `MaxStrDigits` digits. */
  lemma ParseIntOfNegativeDecimal(w1: string, n: nat, w2: string)
    requires AllIn(w1, IntBlanks) && AllIn(w2, IntBlanks)
    requires |Decimal(n)| <= MaxStrDigits
    ensures ParseInt(w1 + "-" + Decimal(n) + w2) == Some(-(n as int))
  {
    var d := Decimal(n);
    var m := "-" + d;
    assert w1 + "-" + d + w2 == w1 + m + w2;
    assert Trimmed(m, IntBlanks);
    TrimOfPadded(w1, m, w2, IntBlanks);
    assert m[0] == '-' && Unsigned(m) == d;
    DigitsValueOfDecimal(n);
  }

  /**
   * A numeral led by a blank that `str.strip()` removes but `int` does not
   * (the file, group, record or unit separator) is a ValueError (None).
   */
  lemma ParseIntRejectsSeparator(c: char, n: nat)
    requires c in Whitespace && c !in IntBlanks
    ensures ParseInt([c] + Decimal(n)) == None
  {
    var t := [c] + Decimal(n);
    assert t[0] == c && t[|t| - 1] == Decimal(n)[|Decimal(n)| - 1];
    assert Trimmed(t, IntBlanks);
    TrimOfTrimmed(t, IntBlanks);
    assert !IsDigit(t[0]) && Unsigned(t) == t;
  }

  /** `m` zeros. */
  function Zeros(m: nat): (r: string)
    ensures |r| == m && forall i :: 0 <= i < m ==> r[i] == '0'
  {
    seq(m, _ => '0')
  }

  lemma {:induction false} DigitsValueOfZeros(m: nat)
    ensures DigitsValue(Zeros(m)) == 0
  {
    if m > 0 {
      assert Zeros(m)[..m - 1] == Zeros(m - 1);
      DigitsValueOfZeros(m - 1);
    }
  }

  /** Leading zeros do not change the value of a string of digits. */
  lemma {:induction false} DigitsValueLeadingZeros(m: nat, d: string)
    requires AllDigits(d)
    ensures AllDigits(Zeros(m) + d) && DigitsValue(Zeros(m) + d) == DigitsValue(d)
    decreases |d|
  {
    var z := Zeros(m);
    if d == [] {
      assert z + d == z;
      DigitsValueOfZeros(m);
    } else {
      assert (z + d)[..|z + d| - 1] == z + d[..|d| - 1];
      DigitsValueLeadingZeros(m, d[..|d| - 1]);
    }
  }

  /**
   * `int` of `str(n)` behind `m` leading zeros is `n` while the digits number
   * at most `MaxStrDigits`, and a ValueError (None) beyond: the zeros count.
   */
  lemma ParseIntOfZeroPadded(m: nat, n: nat)
    ensures ParseInt(Zeros(m) + Decimal(n)) ==
      if m + |Decimal(n)| <= MaxStrDigits then Some(n) else None
  {
    var d := Decimal(n);
    var t := Zeros(m) + d;
    assert t[0] == '0' || t[0] == d[0];
    assert t[|t| - 1] == d[|d| - 1];
    assert Trimmed(t, IntBlanks);
    TrimOfTrimmed(t, IntBlanks);
    assert Unsigned(t) == t;
    DigitsValueLeadingZeros(m, d);
    DigitsValueOfDecimal(n);
  }
}
