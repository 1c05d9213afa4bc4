/** The string operations the engine relies on, as Python performs them on
    byte strings: upper/lower (ASCII), strip, endswith, split, and the decimal
    conversions "%s" % n and int(s). */
module Strings {
  import opened Results

  // ---------------------------------------------------------------- case

  function UpperChar(c: char): char {
    if 'a' <= c <= 'z' then (c as int - 32) as char else c
  }

  function LowerChar(c: char): char {
    if 'A' <= c <= 'Z' then (c as int + 32) as char else c
  }

  /** str.upper() */
  function Upper(s: string): (r: string)
    ensures |r| == |s|
    ensures forall i :: 0 <= i < |s| ==> r[i] == UpperChar(s[i])
  {
    if s == [] then [] else [UpperChar(s[0])] + Upper(s[1..])
  }

  /** str.lower() */
  function Lower(s: string): (r: string)
    ensures |r| == |s|
    ensures forall i :: 0 <= i < |s| ==> r[i] == LowerChar(s[i])
  {
    if s == [] then [] else [LowerChar(s[0])] + Lower(s[1..])
  }

  lemma UpperIdempotent(s: string)
    ensures Upper(Upper(s)) == Upper(s)
  {
    assert forall i :: 0 <= i < |s| ==> UpperChar(UpperChar(s[i])) == UpperChar(s[i]);
  }

  /** A string whose upper-cased form is w (an upper-case word) lower-cases to
      the lower-case form of w. */
  lemma LowerOfUpperWord(s: string, w: string)
    requires Upper(s) == w
    ensures Lower(s) == Lower(w)
  {
    forall i | 0 <= i < |s| ensures Lower(s)[i] == Lower(w)[i] {
      assert UpperChar(s[i]) == w[i];
    }
  }

  // ---------------------------------------------------------------- strip

  /** The characters str.strip() removes. */
  predicate IsSpace(c: char) {
    c == ' ' || c == '\t' || c == '\n' || c == '\r' || c == '\U{0B}' || c == '\U{0C}'
  }

  function StripLeft(s: string): (r: string)
    ensures |r| <= |s| && r == s[|s| - |r|..]
    ensures r == [] || !IsSpace(r[0])
    ensures forall i :: 0 <= i < |s| - |r| ==> IsSpace(s[i])
  {
    if s != [] && IsSpace(s[0]) then StripLeft(s[1..]) else s
  }

  function StripRight(s: string): (r: string)
    ensures |r| <= |s| && r == s[..|r|]
    ensures r == [] || !IsSpace(r[|r| - 1])
    ensures forall i :: |r| <= i < |s| ==> IsSpace(s[i])
  {
    if s != [] && IsSpace(s[|s| - 1]) then StripRight(s[..|s| - 1]) else s
  }

  /** str.strip(): the slice of s left after removing leading and trailing
      white space. */
  function Strip(s: string): (r: string)
    ensures |r| <= |s|
    ensures r == [] || (!IsSpace(r[0]) && !IsSpace(r[|r| - 1]))
  {
    StripRight(StripLeft(s))
  }

  lemma StripUnchanged(s: string)
    requires s == [] || (!IsSpace(s[0]) && !IsSpace(s[|s| - 1]))
    ensures Strip(s) == s
  {
  }

  lemma UpperCharSpace(c: char)
    ensures IsSpace(UpperChar(c)) == IsSpace(c)
  {
  }

  /** Upper-casing commutes with stripping. */
  lemma StripUpper(s: string)
    ensures Strip(Upper(s)) == Upper(Strip(s))
  {
    StripLeftUpper(s);
    StripRightUpper(StripLeft(s));
  }

  lemma {:induction false} StripLeftUpper(s: string)
    ensures StripLeft(Upper(s)) == Upper(StripLeft(s))
  {
    if s != [] {
      var u := Upper(s);
      assert u == [UpperChar(s[0])] + Upper(s[1..]);
      UpperCharSpace(s[0]);
      if IsSpace(s[0]) {
        calc {
          StripLeft(u);
          StripLeft(Upper(s[1..]));
          { StripLeftUpper(s[1..]); }
          Upper(StripLeft(s[1..]));
        }
      }
    }
  }

  lemma {:induction false} StripRightUpper(s: string)
    ensures StripRight(Upper(s)) == Upper(StripRight(s))
    decreases |s|
  {
    if s != [] {
      var n := |s| - 1;
      var u := Upper(s);
      UpperCharSpace(s[n]);
      assert |u| == |s| && u[n] == UpperChar(s[n]);
      if IsSpace(s[n]) {
        calc {
          StripRight(u);
          StripRight(u[..n]);
          { UpperPrefix(s, n); }
          StripRight(Upper(s[..n]));
          { StripRightUpper(s[..n]); }
          Upper(StripRight(s[..n]));
        }
      }
    }
  }

  lemma UpperPrefix(s: string, n: nat)
    requires n <= |s|
    ensures Upper(s)[..n] == Upper(s[..n])
  {
    assert forall i :: 0 <= i < n ==> Upper(s)[..n][i] == UpperChar(s[..n][i]);
  }

  lemma LowerOfUpper(s: string)
    ensures Lower(Upper(s)) == Lower(s)
  {
    forall i | 0 <= i < |s| ensures Lower(Upper(s))[i] == Lower(s)[i] {
    }
  }

  /** Surrounding white space does not survive strip. */
  lemma StripPadded(s: string)
    ensures Strip(" " + s + "\n") == Strip(s)
  {
    var p := " " + s + "\n";
    assert p[0] == ' ' && p[1..] == s + "\n";
    assert StripLeft(p) == StripLeft(s + "\n");
    StripLeftAppendSpace(s);
    var l := StripLeft(s);
    if l != [] {
      StripRightAppendSpace(l);
      assert Strip(p) == StripRight(l + "\n");
    } else {
      assert Strip(p) == StripRight([]);
    }
  }

  lemma {:induction false} StripLeftAppendSpace(s: string)
    ensures StripLeft(s + "\n") == if StripLeft(s) == [] then [] else StripLeft(s) + "\n"
  {
    var t := s + "\n";
    if s == [] {
      assert StripLeft(t) == StripLeft(t[1..]);
      assert t[1..] == [];
    } else if IsSpace(s[0]) {
      assert t[1..] == s[1..] + "\n";
      StripLeftAppendSpace(s[1..]);
    } else {
      assert t[0] == s[0];
    }
  }

  lemma StripRightAppendSpace(l: string)
    requires l != [] && !IsSpace(l[0])
    ensures StripRight(l + "\n") == StripRight(l)
  {
    var t := l + "\n";
    assert StripRight(t) == StripRight(t[..|t| - 1]);
    assert t[..|t| - 1] == l;
  }

  // ---------------------------------------------------------------- affixes

  predicate StartsWith(s: string, prefix: string) {
    |prefix| <= |s| && s[..|prefix|] == prefix
  }

  predicate EndsWith(s: string, suffix: string) {
    |suffix| <= |s| && s[|s| - |suffix|..] == suffix
  }

  lemma EndsWithAppend(a: string, b: string, suffix: string)
    requires EndsWith(b, suffix)
    ensures EndsWith(a + b, suffix)
  {
    assert (a + b)[|a + b| - |suffix|..] == b[|b| - |suffix|..];
  }

  // ---------------------------------------------------------------- split

  /** re.split on a class of single delimiter characters, and str.split(c)
      when delims == {c}: the pieces between delimiters, empty ones included,
      so there is always one more piece than there are delimiters. */
  function Pieces(s: string, delims: set<char>): (r: seq<string>)
    ensures |r| >= 1
    ensures forall i, j :: 0 <= i < |r| && 0 <= j < |r[i]| ==> r[i][j] !in delims
  {
    if s == [] then [""]
    else
      var rest := Pieces(s[1..], delims);
      if s[0] in delims then [""] + rest
      else [[s[0]] + rest[0]] + rest[1..]
  }

  function Split(s: string, sep: char): (r: seq<string>)
    ensures |r| >= 1
  {
    Pieces(s, {sep})
  }

  /** A delimiter-free string is a single piece. */
  lemma {:induction false} PiecesOfWord(w: string, delims: set<char>)
    requires forall j :: 0 <= j < |w| ==> w[j] !in delims
    ensures Pieces(w, delims) == [w]
  {
    if w != [] {
      PiecesOfWord(w[1..], delims);
      assert [w[0]] + w[1..] == w;
    }
  }

  /** Splitting at one delimiter splits the pieces there. */
  lemma {:induction false} PiecesAt(a: string, d: char, b: string, delims: set<char>)
    requires d in delims
    ensures Pieces(a + [d] + b, delims) == Pieces(a, delims) + Pieces(b, delims)
  {
    if a == [] {
      assert a + [d] + b == [d] + b;
      assert ([d] + b)[1..] == b;
    } else {
      assert (a + [d] + b)[1..] == a[1..] + [d] + b;
      PiecesAt(a[1..], d, b, delims);
    }
  }

  function NonEmpty(ps: seq<string>): (r: seq<string>)
    ensures forall i :: 0 <= i < |r| ==> r[i] != []
  {
    if ps == [] then []
    else if ps[0] == [] then NonEmpty(ps[1..])
    else [ps[0]] + NonEmpty(ps[1..])
  }

  lemma {:induction false} NonEmptyAppend(a: seq<string>, b: seq<string>)
    ensures NonEmpty(a + b) == NonEmpty(a) + NonEmpty(b)
  {
    if a != [] {
      assert (a + b)[1..] == a[1..] + b;
      NonEmptyAppend(a[1..], b);
    } else {
      assert a + b == b;
    }
  }

  /** [v for v in ARRAY_RE.split(s) if len(v)] */
  function Tokens(s: string, delims: set<char>): seq<string> {
    NonEmpty(Pieces(s, delims))
  }

  /** The tokens of a delimiter-free word: the word itself, or nothing. */
  lemma TokensOfWord(w: string, delims: set<char>)
    requires forall j :: 0 <= j < |w| ==> w[j] !in delims
    ensures Tokens(w, delims) == if w == [] then [] else [w]
  {
    PiecesOfWord(w, delims);
    assert [w][1..] == [];
    if w == [] {
      assert NonEmpty([w]) == NonEmpty([]);
    } else {
      assert NonEmpty([w]) == [w] + NonEmpty([]);
    }
  }

  /** Runs of delimiters separate tokens: the tokens on either side of a
      delimiter are the tokens of each side, and no empty token appears. */
  lemma TokensAt(a: string, d: char, b: string, delims: set<char>)
    requires d in delims
    ensures Tokens(a + [d] + b, delims) == Tokens(a, delims) + Tokens(b, delims)
    ensures forall t :: t in Tokens(a + [d] + b, delims) ==> t != []
  {
    PiecesAt(a, d, b, delims);
    NonEmptyAppend(Pieces(a, delims), Pieces(b, delims));
  }

  /** Every token is non-empty and free of delimiters. */
  lemma {:induction false} TokensAreWords(s: string, delims: set<char>)
    ensures forall i :: 0 <= i < |Tokens(s, delims)| ==>
      Tokens(s, delims)[i] != [] &&
      forall j :: 0 <= j < |Tokens(s, delims)[i]| ==> Tokens(s, delims)[i][j] !in delims
  {
    var ps := Pieces(s, delims);
    NonEmptyKeeps(ps);
    forall i | 0 <= i < |NonEmpty(ps)|
      ensures forall j :: 0 <= j < |NonEmpty(ps)[i]| ==> NonEmpty(ps)[i][j] !in delims
    {
      var t := NonEmpty(ps)[i];
      assert t in ps;
      var k :| 0 <= k < |ps| && ps[k] == t;
    }
  }

  lemma {:induction false} NonEmptyKeeps(ps: seq<string>)
    ensures forall t :: t in NonEmpty(ps) ==> t in ps
  {
    if ps != [] {
      NonEmptyKeeps(ps[1..]);
    }
  }

  // ---------------------------------------------------------------- numbers

  predicate IsDigit(c: char) { '0' <= c <= '9' }

  predicate AllDigits(s: string) { forall i :: 0 <= i < |s| ==> IsDigit(s[i]) }

  function DigitChar(d: nat): (c: char)
    requires d < 10
    ensures IsDigit(c) && c as int - '0' as int == d
  {
    ('0' as int + d) as char
  }

  /** "%s" % n for a natural number: its shortest decimal form. */
  function NatToString(n: nat): string {
    if n < 10 then [DigitChar(n)] else NatToString(n / 10) + [DigitChar(n % 10)]
  }

  /** "%s" % n for an integer. */
  function IntToString(n: int): string {
    if n < 0 then "-" + NatToString(-n) else NatToString(n)
  }

  /** The decimal form of a natural number is a non-empty run of digits
      without a leading zero. */
  lemma {:induction false} NatToStringDigits(n: nat)
    ensures |NatToString(n)| >= 1 && AllDigits(NatToString(n))
    ensures n > 0 ==> NatToString(n)[0] != '0'
  {
    if n >= 10 {
      NatToStringDigits(n / 10);
    }
  }

  /** The text of an integer is digits, after a minus sign when negative. */
  lemma IntToStringShape(n: int)
    ensures var r := IntToString(n);
      |r| >= 1 && IsDigit(r[|r| - 1]) && (IsDigit(r[0]) || r[0] == '-')
  {
    NatToStringDigits(if n < 0 then -n else n);
  }

  function DigitsValue(s: string): nat
    requires AllDigits(s)
  {
    if s == [] then 0 else 10 * DigitsValue(s[..|s| - 1]) + (s[|s| - 1] as int - '0' as int)
  }

  /** int(s) on decimal text: optional surrounding white space, an optional
      sign, then at least one digit; anything else is a ValueError (None). */
  function ParseInt(s: string): Option<int> {
    var t := Strip(s);
    if |t| > 0 && (t[0] == '-' || t[0] == '+') then
      var ds := t[1..];
      var v: int := if |ds| > 0 && AllDigits(ds) then DigitsValue(ds) else 0;
      if |ds| > 0 && AllDigits(ds) then Some(if t[0] == '-' then -v else v)
      else None
    else if |t| > 0 && AllDigits(t) then Some(DigitsValue(t))
    else None
  }

  lemma {:induction false} DigitsOfNat(n: nat)
    ensures AllDigits(NatToString(n)) && DigitsValue(NatToString(n)) == n
  {
    NatToStringDigits(n);
    if n >= 10 {
      DigitsOfNat(n / 10);
      var s := NatToString(n);
      assert s[..|s| - 1] == NatToString(n / 10);
    }
  }

  /** int() of a run of digits is its value. */
  lemma ParseIntDigits(ds: string)
    requires |ds| > 0 && AllDigits(ds)
    ensures ParseInt(ds) == Some(DigitsValue(ds))
  {
    assert IsDigit(ds[0]) && IsDigit(ds[|ds| - 1]);
    StripUnchanged(ds);
  }

  /** int() of a minus sign and a run of digits is minus their value. */
  lemma ParseIntNegative(ds: string)
    requires |ds| > 0 && AllDigits(ds)
    ensures ParseInt("-" + ds) == Some(-(DigitsValue(ds) as int))
  {
    var m := "-" + ds;
    assert IsDigit(ds[|ds| - 1]);
    assert m[0] == '-' && m[1..] == ds && m[|m| - 1] == ds[|ds| - 1];
    StripUnchanged(m);
  }

  /** int("%s" % n) == n */
  lemma ParseIntToString(n: int)
    ensures ParseInt(IntToString(n)) == Some(n)
  {
    var m: nat := if n < 0 then -n else n;
    DigitsOfNat(m);
    NatToStringDigits(m);
    if n < 0 {
      ParseIntNegative(NatToString(m));
    } else {
      ParseIntDigits(NatToString(m));
    }
  }

  lemma NoCharInIntToString(n: int, c: char)
    requires !IsDigit(c) && c != '-'
    ensures c !in IntToString(n)
  {
    var s := IntToString(n);
    NatToStringDigits(if n < 0 then -n else n);
    if n < 0 {
      assert forall i :: 1 <= i < |s| ==> s[i] == NatToString(-n)[i - 1];
    }
  }
}
