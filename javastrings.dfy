/** The parts of java.lang.String and java.lang.Character that the modelled
    code relies on: case mapping (as in a non-Turkish default locale),
    `trim`, `startsWith`/`endsWith`, `equalsIgnoreCase`, `split(",")`, and
    the decimal renderings of `%d` and `%.2f`.

    Case mapping covers ASCII, the Latin-1 letters and the Turkish letters
    (Ğ ğ Ş ş İ ı) together with the few characters of that range whose
    Java mapping leaves it (ſ, µ, ÿ, ß); every other character is treated
    as caseless. */
module JavaStrings {
  import opened Rationals

  // ------------------------------------------------------------------
  // Character case
  // ------------------------------------------------------------------

  /** Character.toLowerCase. */
  function LowerChar(c: char): char {
    if 'A' <= c <= 'Z' then (c as int + 32) as char
    else if '\U{00C0}' <= c <= '\U{00DE}' && c != '\U{00D7}' then (c as int + 32) as char
    else if c == '\U{011E}' || c == '\U{015E}' then (c as int + 1) as char
    else if c == '\U{0130}' then 'i'
    else if c == '\U{0178}' then '\U{00FF}'
    else c
  }

  /** Character.toUpperCase. */
  function UpperChar(c: char): char {
    if 'a' <= c <= 'z' then (c as int - 32) as char
    else if '\U{00E0}' <= c <= '\U{00FE}' && c != '\U{00F7}' then (c as int - 32) as char
    else if c == '\U{00FF}' then '\U{0178}'
    else if c == '\U{011F}' || c == '\U{015F}' then (c as int - 1) as char
    else if c == '\U{0131}' then 'I'
    else if c == '\U{017F}' then 'S'
    else if c == '\U{00B5}' then '\U{039C}'
    else c
  }

  /** What String.toLowerCase produces for one character: İ becomes
      "i" followed by a combining dot above, everything else one char. */
  function LowerOf(c: char): string {
    if c == '\U{0130}' then "i\U{0307}" else [LowerChar(c)]
  }

  /** What String.toUpperCase produces for one character: ß becomes "SS". */
  function UpperOf(c: char): string {
    if c == '\U{00DF}' then "SS" else [UpperChar(c)]
  }

  /** String.toLowerCase: no char is lost, and only İ grows into two. */
  function ToLowerCase(s: string): (r: string)
    ensures |s| <= |r| <= 2 * |s|
  {
    if s == [] then [] else LowerOf(s[0]) + ToLowerCase(s[1..])
  }

  /** String.toUpperCase: no char is lost, and only ß grows into two. */
  function ToUpperCase(s: string): (r: string)
    ensures |s| <= |r| <= 2 * |s|
  {
    if s == [] then [] else UpperOf(s[0]) + ToUpperCase(s[1..])
  }

  lemma {:induction false} ToLowerCaseAppend(a: string, b: string)
    ensures ToLowerCase(a + b) == ToLowerCase(a) + ToLowerCase(b)
  {
    if a != [] {
      assert (a + b)[1..] == a[1..] + b;
      ToLowerCaseAppend(a[1..], b);
    } else {
      assert a + b == b;
    }
  }

  lemma {:induction false} ToUpperCaseAppend(a: string, b: string)
    ensures ToUpperCase(a + b) == ToUpperCase(a) + ToUpperCase(b)
  {
    if a != [] {
      assert (a + b)[1..] == a[1..] + b;
      ToUpperCaseAppend(a[1..], b);
    } else {
      assert a + b == b;
    }
  }

  /** Lower-casing an already lower-cased string changes nothing, so a
      switch over `s.toLowerCase()` answers alike for s and its lower case. */
  lemma {:induction false} ToLowerCaseIdempotent(s: string)
    ensures ToLowerCase(ToLowerCase(s)) == ToLowerCase(s)
  {
    if s != [] {
      var c := s[0];
      ToLowerCaseAppend(LowerOf(c), ToLowerCase(s[1..]));
      ToLowerCaseIdempotent(s[1..]);
      LowerOfIdempotent(c);
    }
  }

  /** The lower case of one char is already lower case. */
  lemma LowerOfIdempotent(c: char)
    ensures ToLowerCase(LowerOf(c)) == LowerOf(c)
  {
    if c == '\U{0130}' {
      assert ToLowerCase("i\U{0307}") == "i" + ToLowerCase("\U{0307}");
    } else {
      assert ToLowerCase([LowerChar(c)]) == LowerOf(LowerChar(c)) + ToLowerCase([]);
    }
  }

  /** The same for String.toUpperCase. */
  lemma {:induction false} ToUpperCaseIdempotent(s: string)
    ensures ToUpperCase(ToUpperCase(s)) == ToUpperCase(s)
  {
    if s != [] {
      var c := s[0];
      ToUpperCaseAppend(UpperOf(c), ToUpperCase(s[1..]));
      ToUpperCaseIdempotent(s[1..]);
      UpperOfIdempotent(c);
    }
  }

  /** The upper case of one char is already upper case. */
  lemma UpperOfIdempotent(c: char)
    ensures ToUpperCase(UpperOf(c)) == UpperOf(c)
  {
    if c == '\U{00DF}' {
      assert ToUpperCase("SS") == "S" + ToUpperCase("S");
    } else {
      assert ToUpperCase([UpperChar(c)]) == UpperOf(UpperChar(c)) + ToUpperCase([]);
    }
  }

  /** Without a dotted capital I, lower-casing maps each char on its own. */
  lemma {:induction false} ToLowerCaseCharwise(s: string)
    requires forall i :: 0 <= i < |s| ==> s[i] != '\U{0130}'
    ensures |ToLowerCase(s)| == |s|
    ensures forall i :: 0 <= i < |s| ==> ToLowerCase(s)[i] == LowerChar(s[i])
  {
    if s != [] {
      ToLowerCaseCharwise(s[1..]);
    }
  }

  /** Without a sharp s, upper-casing maps each char on its own. */
  lemma {:induction false} ToUpperCaseCharwise(s: string)
    requires forall i :: 0 <= i < |s| ==> s[i] != '\U{00DF}'
    ensures |ToUpperCase(s)| == |s|
    ensures forall i :: 0 <= i < |s| ==> ToUpperCase(s)[i] == UpperChar(s[i])
  {
    if s != [] {
      ToUpperCaseCharwise(s[1..]);
    }
  }

  /** Two chars are equal ignoring case as String.regionMatches(true, ...)
      decides it: equal, or equal upper cases, or equal lower cases of the
      upper cases. */
  predicate CharsEqualIgnoringCase(a: char, b: char) {
    a == b || UpperChar(a) == UpperChar(b) || LowerChar(UpperChar(a)) == LowerChar(UpperChar(b))
  }

  /** String.equalsIgnoreCase with a non-null argument: a string equals
      itself, and so does any string of the same length whose chars have
      the same upper cases. */
  predicate EqualsIgnoreCase(s: string, t: string): (r: bool)
    ensures s == t ==> r
    ensures |s| == |t| && (forall i :: 0 <= i < |s| ==> UpperChar(s[i]) == UpperChar(t[i])) ==> r
  {
    |s| == |t| && forall i :: 0 <= i < |s| ==> CharsEqualIgnoringCase(s[i], t[i])
  }

  // ------------------------------------------------------------------
  // trim, startsWith, endsWith
  // ------------------------------------------------------------------

  /** String.trim removes every leading and trailing char <= U+0020. */
  function TrimStart(s: string): string {
    if s != [] && s[0] <= ' ' then TrimStart(s[1..]) else s
  }

  function TrimEnd(s: string): string {
    if s != [] && s[|s| - 1] <= ' ' then TrimEnd(s[..|s| - 1]) else s
  }

  function Trim(s: string): (r: string)
    ensures |r| <= |s|
    ensures r != [] ==> r[0] > ' ' && r[|r| - 1] > ' '
  {
    TrimStartFacts(s);
    TrimEndFacts(TrimStart(s));
    TrimEnd(TrimStart(s))
  }

  /** Every char of s is one that trim removes. */
  predicate Blank(s: string) {
    forall i :: 0 <= i < |s| ==> s[i] <= ' '
  }

  /** Blank, seen from the front and from the back. */
  lemma BlankSplit(s: string)
    requires s != []
    ensures Blank(s) <==> s[0] <= ' ' && Blank(s[1..])
    ensures Blank(s) <==> s[|s| - 1] <= ' ' && Blank(s[..|s| - 1])
  {
    if s[0] <= ' ' && Blank(s[1..]) {
      forall i | 0 <= i < |s| ensures s[i] <= ' ' {
        if i > 0 { assert s[i] == s[1..][i - 1]; }
      }
    }
    if s[|s| - 1] <= ' ' && Blank(s[..|s| - 1]) {
      forall i | 0 <= i < |s| ensures s[i] <= ' ' {
        if i < |s| - 1 { assert s[i] == s[..|s| - 1][i]; }
      }
    }
  }

  lemma {:induction false} TrimStartFacts(s: string)
    ensures TrimStart(s) == [] <==> Blank(s)
    ensures TrimStart(s) != [] ==> TrimStart(s)[0] > ' '
    ensures |TrimStart(s)| <= |s| && TrimStart(s) == s[|s| - |TrimStart(s)|..]
  {
    if s != [] {
      BlankSplit(s);
      if s[0] <= ' ' {
        TrimStartFacts(s[1..]);
        assert s[1..][|s[1..]| - |TrimStart(s[1..])|..] == s[|s| - |TrimStart(s)|..];
      }
    }
  }

  lemma {:induction false} TrimEndFacts(s: string)
    ensures TrimEnd(s) == [] <==> Blank(s)
    ensures TrimEnd(s) != [] ==> TrimEnd(s)[|TrimEnd(s)| - 1] > ' '
    ensures |TrimEnd(s)| <= |s| && TrimEnd(s) == s[..|TrimEnd(s)|]
  {
    if s != [] {
      BlankSplit(s);
      if s[|s| - 1] <= ' ' {
        var p := s[..|s| - 1];
        TrimEndFacts(p);
        assert p[..|TrimEnd(p)|] == s[..|TrimEnd(s)|];
      }
    }
  }

  /** `s.trim().isEmpty()` holds exactly for blank strings; a non-empty
      trimmed string starts and ends with a char that trim keeps, and it
      is a contiguous piece of the original. */
  lemma TrimFacts(s: string)
    ensures Trim(s) == [] <==> Blank(s)
    ensures Trim(s) != [] ==> Trim(s)[0] > ' ' && Trim(s)[|Trim(s)| - 1] > ' '
    ensures exists i, j :: 0 <= i <= j <= |s| && Trim(s) == s[i..j]
  {
    var t := TrimStart(s);
    TrimStartFacts(s);
    TrimEndFacts(t);
    var i := |s| - |t|;
    var m := |TrimEnd(t)|;
    assert Trim(s) == t[..m];
    assert t[..m] == s[i..i + m];
    if t != [] {
      assert !Blank(t) by { assert t[0] > ' '; }
    }
    if Trim(s) != [] {
      assert Trim(s)[0] == t[0];
    }
  }

  /** Trimming twice is trimming once. */
  lemma TrimIdempotent(s: string)
    ensures Trim(Trim(s)) == Trim(s)
  {
    TrimFacts(s);
    var t := Trim(s);
    if t != [] {
      assert TrimStart(t) == t;
      assert TrimEnd(t) == t;
    }
  }

  /** String.startsWith. */
  predicate StartsWith(s: string, prefix: string) {
    |prefix| <= |s| && s[..|prefix|] == prefix
  }

  /** String.endsWith. */
  predicate EndsWith(s: string, suffix: string) {
    |suffix| <= |s| && s[|s| - |suffix|..] == suffix
  }

  /** A prefix of a prefix is a prefix. */
  lemma StartsWithTransitive(s: string, p: string, q: string)
    requires StartsWith(s, p) && StartsWith(p, q)
    ensures StartsWith(s, q)
  {
    assert s[..|q|] == s[..|p|][..|q|];
  }

  /** A suffix of a tail is a suffix of the whole string. */
  lemma EndsWithOfTail(s: string, k: nat, suffix: string)
    requires k <= |s| && EndsWith(s[k..], suffix)
    ensures EndsWith(s, suffix)
  {
    assert s[k..][|s[k..]| - |suffix|..] == s[|s| - |suffix|..];
  }

  // ------------------------------------------------------------------
  // split on a one-character separator
  // ------------------------------------------------------------------

  /** All the pieces of s between occurrences of sep, empty ones included:
      one more piece than there are separators. */
  function Pieces(s: string, sep: char): (r: seq<string>)
    ensures |r| >= 1
  {
    if s == [] then [[]]
    else
      var rest := Pieces(s[1..], sep);
      if s[0] == sep then [[]] + rest else [[s[0]] + rest[0]] + rest[1..]
  }

  /** Joins pieces with sep between neighbours. */
  function Join(ps: seq<string>, sep: char): string {
    if ps == [] then []
    else if |ps| == 1 then ps[0]
    else ps[0] + [sep] + Join(ps[1..], sep)
  }

  function DropTrailingEmpty(ps: seq<string>): (r: seq<string>)
    ensures |r| <= |ps| && r == ps[..|r|]
    ensures forall i :: |r| <= i < |ps| ==> ps[i] == []
    ensures r != [] ==> r[|r| - 1] != []
  {
    if ps != [] && ps[|ps| - 1] == [] then DropTrailingEmpty(ps[..|ps| - 1]) else ps
  }

  /** String.split with a one-character literal pattern and limit 0: a
      string without the separator gives itself alone; otherwise the pieces
      between separators, trailing empty pieces dropped. */
  function Split(s: string, sep: char): (r: seq<string>)
    ensures sep in s && r != [] ==> r[|r| - 1] != []
    ensures sep !in s ==> r == [s]
  {
    if sep !in s then [s] else DropTrailingEmpty(Pieces(s, sep))
  }

  /** Joining the pieces of s restores s. */
  lemma {:induction false} PiecesJoin(s: string, sep: char)
    ensures Join(Pieces(s, sep), sep) == s
  {
    if s != [] {
      var rest := Pieces(s[1..], sep);
      PiecesJoin(s[1..], sep);
      if s[0] == sep {
        var ps := [[]] + rest;
        assert Pieces(s, sep) == ps;
        assert ps[1..] == rest;
        assert Join(ps, sep) == [] + [sep] + Join(rest, sep);
        assert [sep] + s[1..] == s;
      } else {
        assert Pieces(s, sep) == [[s[0]] + rest[0]] + rest[1..];
        JoinPrepend([s[0]], rest, sep);
        assert [s[0]] + s[1..] == s;
      }
    }
  }

  /** Gluing text to the front of the first piece glues it to the front of
      the join. */
  lemma JoinPrepend(x: string, ps: seq<string>, sep: char)
    requires ps != []
    ensures Join([x + ps[0]] + ps[1..], sep) == x + Join(ps, sep)
  {
    var qs := [x + ps[0]] + ps[1..];
    assert qs[1..] == ps[1..];
    if |ps| > 1 {
      assert Join(qs, sep) == (x + ps[0]) + [sep] + Join(ps[1..], sep);
      assert x + Join(ps, sep) == x + (ps[0] + [sep] + Join(ps[1..], sep));
    }
  }

  /** No piece of s contains the separator. */
  lemma {:induction false} PiecesAreSeparatorFree(s: string, sep: char)
    ensures forall i :: 0 <= i < |Pieces(s, sep)| ==> sep !in Pieces(s, sep)[i]
  {
    if s != [] {
      var rest := Pieces(s[1..], sep);
      PiecesAreSeparatorFree(s[1..], sep);
      if s[0] == sep {
        var ps := [[]] + rest;
        forall i | 0 <= i < |ps| ensures sep !in ps[i] {
          if i > 0 { assert ps[i] == rest[i - 1]; }
        }
      } else {
        var ps := [[s[0]] + rest[0]] + rest[1..];
        forall i | 0 <= i < |ps| ensures sep !in ps[i] {
          if i > 0 { assert ps[i] == rest[i]; }
          else { assert sep !in rest[0]; }
        }
      }
    }
  }

  /** A separator-free string is a single piece. */
  lemma {:induction false} PiecesOfPlain(s: string, sep: char)
    requires sep !in s
    ensures Pieces(s, sep) == [s]
  {
    if s != [] {
      assert sep !in s[1..];
      PiecesOfPlain(s[1..], sep);
      assert [s[0]] + s[1..] == s;
    }
  }

  /** The first piece ends at the first separator. */
  lemma {:induction false} PiecesOfCons(a: string, sep: char, b: string)
    requires sep !in a
    ensures Pieces(a + [sep] + b, sep) == [a] + Pieces(b, sep)
  {
    if a == [] {
      assert a + [sep] + b == [sep] + b;
      assert ([sep] + b)[1..] == b;
    } else {
      assert (a + [sep] + b)[1..] == a[1..] + [sep] + b;
      assert sep !in a[1..];
      PiecesOfCons(a[1..], sep, b);
      assert [a[0]] + a[1..] == a;
    }
  }

  /** Splitting pieces that were joined with sep gives them back. */
  lemma {:induction false} PiecesOfJoin(ps: seq<string>, sep: char)
    requires ps != []
    requires forall i :: 0 <= i < |ps| ==> sep !in ps[i]
    ensures Pieces(Join(ps, sep), sep) == ps
  {
    if |ps| == 1 {
      PiecesOfPlain(ps[0], sep);
    } else {
      PiecesOfJoin(ps[1..], sep);
      PiecesOfCons(ps[0], sep, Join(ps[1..], sep));
    }
  }

  /** split(",") undoes joining with ",": for pieces free of the separator
      whose last piece is not empty (a single piece may be empty, since a
      string without the separator splits to itself). */
  lemma SplitJoin(ps: seq<string>, sep: char)
    requires ps != []
    requires forall i :: 0 <= i < |ps| ==> sep !in ps[i]
    requires |ps| == 1 || ps[|ps| - 1] != []
    ensures Split(Join(ps, sep), sep) == ps
  {
    PiecesOfJoin(ps, sep);
    if |ps| > 1 {
      assert Join(ps, sep) == ps[0] + [sep] + Join(ps[1..], sep);
      assert Join(ps, sep)[|ps[0]|] == sep;
    }
  }

  /** No piece that split returns contains the separator. */
  lemma SplitPiecesHaveNoSeparator(s: string, sep: char)
    ensures forall i :: 0 <= i < |Split(s, sep)| ==> sep !in Split(s, sep)[i]
  {
    PiecesAreSeparatorFree(s, sep);
  }

  // ------------------------------------------------------------------
  // Decimal renderings
  // ------------------------------------------------------------------

  function DigitChar(d: int): char
    requires 0 <= d <= 9
  {
    ('0' as int + d) as char
  }

  /** The decimal digits of n, without leading zeros. */
  function NatToString(n: nat): string
    decreases n
  {
    if n < 10 then [DigitChar(n)] else NatToString(n / 10) + [DigitChar(n % 10)]
  }

  /** `%d` / String.valueOf of an integer. */
  function IntToString(n: int): string {
    if n < 0 then "-" + NatToString(-n) else NatToString(n)
  }

  predicate IsDigit(c: char) {
    '0' <= c <= '9'
  }

  /** The value of a string of decimal digits (Integer.parseInt without sign). */
  function DigitsValue(s: string): int {
    if s == [] then 0 else DigitsValue(s[..|s| - 1]) * 10 + (s[|s| - 1] as int - '0' as int)
  }

  /** Rendering a natural number and reading it back gives the number; the
      rendering is digits only, with no leading zero. */
  lemma {:induction false} NatToStringRoundTrip(n: nat)
    ensures |NatToString(n)| >= 1
    ensures forall i :: 0 <= i < |NatToString(n)| ==> IsDigit(NatToString(n)[i])
    ensures NatToString(n)[0] == '0' ==> n == 0
    ensures DigitsValue(NatToString(n)) == n
  {
    if n >= 10 {
      NatToStringRoundTrip(n / 10);
      var s := NatToString(n);
      assert s[..|s| - 1] == NatToString(n / 10);
    }
  }

  /** The magnitude of r in hundredths, rounded half-up: the nearest
      whole number of hundredths, ties going away from zero. */
  function Hundredths(r: Rat): (h: nat)
    ensures var a := if r.num < 0 then -r.num else r.num;
      2 * h * r.den <= 200 * a + r.den < 2 * (h + 1) * r.den
  {
    var a := if r.num < 0 then -r.num else r.num;
    (200 * a + r.den) / (2 * r.den)
  }

  /** A positive factor keeps a positive number positive. */
  lemma MulPositive(x: int, n: int)
    requires x > 0 && n > 0
    ensures x * n > 0
  {
  }

  /** 100·n/n prints 10000 hundredths: exactly 100. */
  lemma HundredthsOfWhole(n: int)
    requires n > 0
    ensures Hundredths(Rat(100 * n, n)) == 10000
  {
    var h := Hundredths(Rat(100 * n, n));
    assert 2 * h * n <= 20001 * n < 2 * (h + 1) * n;
    if h > 10000 {
      MulPositive(2 * h - 20001, n);
    } else if h < 10000 {
      MulPositive(19999 - 2 * h, n);
    }
  }

  /** `%.2f` of an exact value: the sign, the whole part and two decimals of
      the value rounded half-up to hundredths. */
  function Fixed2(r: Rat): (t: string)
    ensures var sign := if r.num < 0 then 1 else 0;
      sign + 4 <= |t| && t[|t| - 3] == '.' && (t[0] == '-' <==> r.num < 0)
      && (forall i :: sign <= i < |t| && i != |t| - 3 ==> IsDigit(t[i]))
      && DigitsValue(t[sign..|t| - 3] + t[|t| - 2..]) == Hundredths(r)
  {
    Fixed2TextReadsBack(r.num < 0, Hundredths(r));
    Fixed2Text(r.num < 0, Hundredths(r))
  }

  /** The text of h hundredths, with a minus sign when negative. */
  function Fixed2Text(negative: bool, h: nat): string {
    (if negative then "-" else "") + NatToString(h / 100) + "." + [DigitChar(h % 100 / 10), DigitChar(h % 10)]
  }

  /** The text of h hundredths, read without its sign and its point, gives
      back h. */
  lemma Fixed2TextReadsBack(negative: bool, h: nat)
    ensures var t := Fixed2Text(negative, h);
      var sign := if negative then 1 else 0;
      sign + 4 <= |t| && t[|t| - 3] == '.' && (t[0] == '-' <==> negative)
      && (forall i :: sign <= i < |t| && i != |t| - 3 ==> IsDigit(t[i]))
      && DigitsValue(t[sign..|t| - 3] + t[|t| - 2..]) == h
  {
    SplitHundredths(h);
    var whole := NatToString(h / 100);
    var d1 := DigitChar(h % 100 / 10);
    var d2 := DigitChar(h % 10);
    var t := Fixed2Text(negative, h);
    var sign := if negative then 1 else 0;
    NatToStringRoundTrip(h / 100);
    assert t[sign..|t| - 3] == whole;
    assert t[|t| - 2..] == [d1, d2];
    DigitsValueOfTwoMore(whole, d1, d2);
  }

  /** h hundredths: whole units, tenths and hundredths. */
  lemma SplitHundredths(h: nat)
    ensures 0 <= h % 100 / 10 <= 9 && 0 <= h % 10 <= 9
    ensures (h / 100 * 10 + h % 100 / 10) * 10 + h % 10 == h
  {
  }

  /** Two more digits at the end shift the value by two places. */
  lemma DigitsValueOfTwoMore(w: string, a: char, b: char)
    ensures DigitsValue(w + [a, b]) == (DigitsValue(w) * 10 + (a as int - '0' as int)) * 10 + (b as int - '0' as int)
  {
    assert (w + [a, b])[..|w| + 1] == w + [a];
    assert (w + [a])[..|w|] == w;
  }

  /** A whole number of hundreds of hundredths prints with ".00". */
  lemma Fixed2TextOfWhole(negative: bool, a: nat)
    ensures Fixed2Text(negative, 100 * a) == (if negative then "-" else "") + NatToString(a) + ".00"
  {
    assert (100 * a) / 100 == a && (100 * a) % 100 == 0 by {
      assert 100 * a == a * 100 + 0;
    }
    assert [DigitChar(0), DigitChar(0)] == "00";
  }

  /** A whole number k is 100·|k| hundredths. */
  lemma HundredthsOfInteger(k: int)
    ensures Hundredths(OfInt(k)) == 100 * (if k < 0 then -k else k)
  {
    var a := if k < 0 then -k else k;
    var h := Hundredths(OfInt(k));
    assert OfInt(k).den == 1;
    assert 2 * h <= 200 * a + 1 < 2 * (h + 1);
  }

  /** A whole number is rendered with its decimal digits and ".00". */
  lemma Fixed2OfInteger(k: int)
    ensures Fixed2(OfInt(k)) == IntToString(k) + ".00"
  {
    var a: nat := if k < 0 then -k else k;
    HundredthsOfInteger(k);
    Fixed2TextOfWhole(k < 0, a);
  }
}
