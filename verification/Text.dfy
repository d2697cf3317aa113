/**
  The handful of Python string and list built-ins the setup code relies on:
  `str.split()` (on runs of whitespace), `str.split(sep)`, `list.index` and
  `int(str)`. Each comes with the law that pins it down: splitting undoes
  joining, joining undoes splitting, and `int` reads back what decimal
  formatting writes.
 */
module Text {
  import opened Results

  /** Characters for which Python's `str.isspace()` holds. */
  predicate IsSpace(c: char) {
    || c == ' '
    || ('\t' <= c <= '\r')
    || ('\U{001C}' <= c <= '\U{001F}')
    || c == '\U{0085}' || c == '\U{00A0}' || c == '\U{1680}'
    || ('\U{2000}' <= c <= '\U{200A}')
    || c == '\U{2028}' || c == '\U{2029}' || c == '\U{202F}'
    || c == '\U{205F}' || c == '\U{3000}'
  }

  /** A non-empty run of non-whitespace characters. */
  predicate IsWord(w: string) {
    |w| > 0 && forall k :: 0 <= k < |w| ==> !IsSpace(w[k])
  }

  function Concat(ws: seq<string>): string {
    if |ws| == 0 then "" else ws[0] + Concat(ws[1..])
  }

  /** `sep.join(ws)` */
  function Join(ws: seq<string>, sep: string): string {
    if |ws| == 0 then ""
    else if |ws| == 1 then ws[0]
    else ws[0] + sep + Join(ws[1..], sep)
  }

  /** The characters of `s` that are not whitespace, in order. */
  function RemoveSpaces(s: string): string {
    if |s| == 0 then ""
    else (if IsSpace(s[0]) then "" else [s[0]]) + RemoveSpaces(s[1..])
  }

  /** Length of the leading run of non-whitespace characters. */
  function WordLen(s: string): (n: nat)
    ensures n <= |s|
    ensures forall k :: 0 <= k < n ==> !IsSpace(s[k])
    ensures n < |s| ==> IsSpace(s[n])
  {
    if |s| == 0 || IsSpace(s[0]) then 0 else 1 + WordLen(s[1..])
  }

  lemma {:induction false} RemoveSpacesSplit(s: string, n: nat)
    requires n <= |s|
    requires forall k :: 0 <= k < n ==> !IsSpace(s[k])
    ensures RemoveSpaces(s) == s[..n] + RemoveSpaces(s[n..])
    decreases n
  {
    if n > 0 {
      RemoveSpacesSplit(s[1..], n - 1);
      assert s[1..][..n - 1] == s[1..n];
      assert s[1..][n - 1..] == s[n..];
      assert s[..n] == [s[0]] + s[1..n];
    }
  }

  /** Python's `s.split()`: the maximal runs of non-whitespace characters. */
  function Words(s: string): (ws: seq<string>)
    ensures forall i :: 0 <= i < |ws| ==> IsWord(ws[i])
    ensures Concat(ws) == RemoveSpaces(s)
    decreases |s|
  {
    if |s| == 0 then []
    else if IsSpace(s[0]) then Words(s[1..])
    else
      var n := WordLen(s);
      RemoveSpacesSplit(s, n);
      assert ([s[..n]] + Words(s[n..]))[1..] == Words(s[n..]);
      [s[..n]] + Words(s[n..])
  }

  lemma {:induction false} WordLenOfWord(w: string, t: string)
    requires IsWord(w) || |w| == 0
    requires |t| == 0 || IsSpace(t[0])
    ensures WordLen(w + t) == |w|
    decreases |w|
  {
    if |w| > 0 {
      assert (w + t)[1..] == w[1..] + t;
      WordLenOfWord(w[1..], t);
    } else {
      assert w + t == t;
    }
  }

  /** Splitting a space-joined list of words gives the words back. */
  lemma {:induction false} WordsOfJoin(ws: seq<string>)
    requires forall i :: 0 <= i < |ws| ==> IsWord(ws[i])
    ensures Words(Join(ws, " ")) == ws
    decreases |ws|
  {
    if |ws| == 1 {
      var w := ws[0];
      WordLenOfWord(w, "");
      assert w + "" == w;
      assert w[|w|..] == "";
    } else if |ws| > 1 {
      var w := ws[0];
      var rest := Join(ws[1..], " ");
      var s := w + " " + rest;
      assert Join(ws, " ") == s;
      WordLenOfWord(w, " " + rest);
      assert s == w + (" " + rest);
      assert s[..|w|] == w;
      assert s[|w|..] == " " + rest;
      assert (" " + rest)[1..] == rest;
      WordsOfJoin(ws[1..]);
      assert ws == [w] + ws[1..];
    }
  }

  /** A run of whitespace, possibly empty. */
  predicate IsGap(g: string) {
    forall k :: 0 <= k < |g| ==> IsSpace(g[k])
  }

  /** `gaps[0] + ws[0] + gaps[1] + ... + ws[n - 1] + gaps[n]`: words laid out
      with arbitrary text between them. */
  function Interleave(ws: seq<string>, gaps: seq<string>): string
    requires |gaps| == |ws| + 1
    decreases |ws|
  {
    if |ws| == 0 then gaps[0] else gaps[0] + ws[0] + Interleave(ws[1..], gaps[1..])
  }

  /** Leading whitespace does not change the words. */
  lemma {:induction false} WordsSkipGap(g: string, t: string)
    requires IsGap(g)
    ensures Words(g + t) == Words(t)
    decreases |g|
  {
    if |g| > 0 {
      assert (g + t)[0] == g[0];
      assert (g + t)[1..] == g[1..] + t;
      WordsSkipGap(g[1..], t);
    } else {
      assert g + t == t;
    }
  }

  /** A word followed by nothing or by whitespace is the first word. */
  lemma WordsOfWordThen(w: string, t: string)
    requires IsWord(w)
    requires |t| == 0 || IsSpace(t[0])
    ensures Words(w + t) == [w] + Words(t)
  {
    WordLenOfWord(w, t);
    var s := w + t;
    assert s[0] == w[0];
    assert s[..|w|] == w;
    assert s[|w|..] == t;
  }

  /** Laid-out words start with whitespace or end right away when the first
      gap is non-empty or there are no words. */
  lemma InterleaveStart(ws: seq<string>, gaps: seq<string>)
    requires |gaps| == |ws| + 1
    requires IsGap(gaps[0])
    requires |ws| > 0 ==> |gaps[0]| > 0
    ensures var s := Interleave(ws, gaps); |s| == 0 || IsSpace(s[0])
  {
    if |ws| > 0 {
      assert Interleave(ws, gaps) == gaps[0] + (ws[0] + Interleave(ws[1..], gaps[1..]));
    }
  }

  /** Splitting words laid out with whitespace runs of any length and kind
      between them, and any whitespace around them, gives exactly those
      words back: `split()` finds the maximal non-whitespace runs. */
  lemma {:induction false} WordsOfInterleave(ws: seq<string>, gaps: seq<string>)
    requires |gaps| == |ws| + 1
    requires forall i :: 0 <= i < |ws| ==> IsWord(ws[i])
    requires forall i :: 0 <= i < |gaps| ==> IsGap(gaps[i])
    requires forall i :: 0 < i < |ws| ==> |gaps[i]| > 0
    ensures Words(Interleave(ws, gaps)) == ws
    decreases |ws|
  {
    if |ws| == 0 {
      WordsSkipGap(gaps[0], "");
      assert gaps[0] + "" == gaps[0];
    } else {
      var w := ws[0];
      var rest := Interleave(ws[1..], gaps[1..]);
      assert Interleave(ws, gaps) == gaps[0] + (w + rest);
      WordsSkipGap(gaps[0], w + rest);
      InterleaveStart(ws[1..], gaps[1..]);
      WordsOfWordThen(w, rest);
      WordsOfInterleave(ws[1..], gaps[1..]);
      assert ws == [w] + ws[1..];
    }
  }

  /** Index of the first occurrence of `c` in `s`. */
  function FirstIndex(s: string, c: char): (i: nat)
    requires c in s
    ensures i < |s| && s[i] == c && c !in s[..i]
  {
    if s[0] == c then 0
    else
      assert c in s[1..];
      var j := FirstIndex(s[1..], c);
      assert s[..j + 1] == [s[0]] + s[1..][..j];
      j + 1
  }

  /** Python's `s.split(sep)` for a one-character separator. */
  function SplitOn(s: string, sep: char): (parts: seq<string>)
    ensures |parts| >= 1
    ensures forall i :: 0 <= i < |parts| ==> sep !in parts[i]
    ensures Join(parts, [sep]) == s
    decreases |s|
  {
    if sep !in s then [s]
    else
      var i := FirstIndex(s, sep);
      var rest := SplitOn(s[i + 1..], sep);
      assert ([s[..i]] + rest)[1..] == rest;
      assert s == s[..i] + [sep] + s[i + 1..];
      [s[..i]] + rest
  }

  /** Splitting undoes joining when no part holds the separator. */
  lemma {:induction false} SplitOfJoin(parts: seq<string>, sep: char)
    requires |parts| >= 1
    requires forall i :: 0 <= i < |parts| ==> sep !in parts[i]
    ensures SplitOn(Join(parts, [sep]), sep) == parts
    decreases |parts|
  {
    if |parts| > 1 {
      var p := parts[0];
      var rest := Join(parts[1..], [sep]);
      assert Join(parts, [sep]) == p + [sep] + rest;
      SplitCons(p, sep, rest);
      SplitOfJoin(parts[1..], sep);
      assert parts == [p] + parts[1..];
    }
  }

  /** Splitting peels off a leading piece free of the separator. */
  lemma SplitCons(a: string, sep: char, t: string)
    requires sep !in a
    ensures SplitOn(a + [sep] + t, sep) == [a] + SplitOn(t, sep)
  {
    var s := a + [sep] + t;
    assert s[|a|] == sep;
    FirstIndexAfter(a, sep, t);
    assert s[..|a|] == a;
    assert s[|a| + 1..] == t;
  }

  /** Python's `xs.index(x)`, or `None` where Python raises. */
  function IndexOf<T(==)>(xs: seq<T>, x: T): (r: Option<nat>)
    ensures r.Some? ==> r.value < |xs| && xs[r.value] == x && x !in xs[..r.value]
    ensures r.None? <==> x !in xs
  {
    if |xs| == 0 then None
    else if xs[0] == x then Some(0)
    else
      match IndexOf(xs[1..], x)
      case None => None
      case Some(j) =>
        assert xs[..j + 1] == [xs[0]] + xs[1..][..j];
        Some(j + 1)
  }

  /** The first occurrence of `x` sits right after a prefix free of `x`. */
  lemma IndexOfAfter<T>(pre: seq<T>, x: T, post: seq<T>)
    requires x !in pre
    ensures IndexOf(pre + [x] + post, x) == Some(|pre|)
  {
    var xs := pre + [x] + post;
    assert xs[|pre|] == x;
    assert xs[..|pre|] == pre;
  }

  /** The first `c` sits right after a prefix free of `c`. */
  lemma FirstIndexAfter(pre: string, c: char, post: string)
    requires c !in pre
    ensures FirstIndex(pre + [c] + post, c) == |pre|
  {
    var s := pre + [c] + post;
    assert s[|pre|] == c;
    assert s[..|pre|] == pre;
  }

  // ----- int(str) -----

  /** An ASCII decimal digit. Python's `int` also accepts the decimal digits
      of other scripts; those are not modelled. */
  predicate IsDigit(c: char) {
    '0' <= c <= '9'
  }

  predicate AllDigits(ds: string) {
    forall k :: 0 <= k < |ds| ==> IsDigit(ds[k])
  }

  function DigitValue(c: char): nat
    requires IsDigit(c)
  {
    (c as int) - ('0' as int)
  }

  /** Value of a decimal digit string, most significant digit first. */
  function DigitsValue(ds: string): nat
    requires AllDigits(ds)
  {
    if |ds| == 0 then 0
    else DigitsValue(ds[..|ds| - 1]) * 10 + DigitValue(ds[|ds| - 1])
  }

  /** Python's numeral body: digits, with single underscores allowed between digits. */
  predicate IsNumeral(b: string) {
    && |b| > 0
    && IsDigit(b[0]) && IsDigit(b[|b| - 1])
    && (forall k :: 0 <= k < |b| ==> IsDigit(b[k]) || b[k] == '_')
    && (forall k :: 0 <= k < |b| - 1 ==> !(b[k] == '_' && b[k + 1] == '_'))
  }

  /** The digits of a numeral with its underscores dropped. */
  function DropUnderscores(b: string): (ds: string)
    requires forall k :: 0 <= k < |b| ==> IsDigit(b[k]) || b[k] == '_'
    ensures AllDigits(ds)
    ensures |ds| <= |b|
  {
    if |b| == 0 then ""
    else (if b[0] == '_' then "" else [b[0]]) + DropUnderscores(b[1..])
  }

  function StripLeft(s: string): (t: string)
    ensures |t| > 0 ==> !IsSpace(t[0])
  {
    if |s| > 0 && IsSpace(s[0]) then StripLeft(s[1..]) else s
  }

  function StripRight(s: string): (t: string)
    ensures |t| > 0 ==> !IsSpace(t[|t| - 1])
  {
    if |s| > 0 && IsSpace(s[|s| - 1]) then StripRight(s[..|s| - 1]) else s
  }

  /** Python's `int(s)` in base 10 over ASCII digits, `None` where Python
      raises `ValueError`. */
  function ParseInt(s: string): Option<int> {
    ParseSigned(StripRight(StripLeft(s)))
  }

  /** An optionally signed numeral with no surrounding whitespace. */
  function ParseSigned(t: string): Option<int> {
    if |t| > 0 && (t[0] == '+' || t[0] == '-') then
      match ParseNumeral(t[1..])
      case Some(v) => Some(if t[0] == '-' then -v else v)
      case None => None
    else ParseNumeral(t)
  }

  function ParseNumeral(b: string): Option<int> {
    if IsNumeral(b) then Some(DigitsValue(DropUnderscores(b))) else None
  }

  function DigitChar(d: nat): (c: char)
    requires d < 10
    ensures IsDigit(c) && DigitValue(c) == d
  {
    (('0' as int) + d) as char
  }

  /** Python's `str(n)` for a natural number. */
  function ShowNat(n: nat): (s: string)
    ensures |s| > 0 && AllDigits(s)
  {
    if n < 10 then [DigitChar(n)] else ShowNat(n / 10) + [DigitChar(n % 10)]
  }

  /** Python's `str(n)` for an integer. */
  function ShowInt(n: int): (s: string)
    ensures '.' !in s
  {
    if n < 0 then "-" + ShowNat(-n) else ShowNat(n)
  }

  lemma {:induction false} ShowNatValue(n: nat)
    ensures DigitsValue(ShowNat(n)) == n
    decreases n
  {
    if n >= 10 {
      var s := ShowNat(n);
      assert s[..|s| - 1] == ShowNat(n / 10);
      ShowNatValue(n / 10);
    }
  }

  lemma {:induction false} DropUnderscoresOfDigits(ds: string)
    requires AllDigits(ds)
    ensures DropUnderscores(ds) == ds
    decreases |ds|
  {
    if |ds| > 0 {
      DropUnderscoresOfDigits(ds[1..]);
      assert ds == [ds[0]] + ds[1..];
    }
  }

  lemma DigitsAreNumeral(ds: string)
    requires |ds| > 0 && AllDigits(ds)
    ensures ParseNumeral(ds) == Some(DigitsValue(ds))
  {
    DropUnderscoresOfDigits(ds);
  }

  lemma StripNothing(s: string)
    requires |s| > 0 && !IsSpace(s[0]) && !IsSpace(s[|s| - 1])
    ensures StripRight(StripLeft(s)) == s
  {
  }

  lemma ParseShowNat(m: nat)
    ensures ParseInt(ShowNat(m)) == Some(m)
  {
    var ds := ShowNat(m);
    DigitsAreNumeral(ds);
    ShowNatValue(m);
    StripNothing(ds);
    assert !(ds[0] == '+' || ds[0] == '-');
  }

  lemma ParseShowNegative(m: nat)
    ensures ParseInt("-" + ShowNat(m)) == Some(-(m as int))
  {
    var ds := ShowNat(m);
    var s := "-" + ds;
    DigitsAreNumeral(ds);
    ShowNatValue(m);
    assert s[|s| - 1] == ds[|ds| - 1];
    StripNothing(s);
    ParseNegated(ds);
  }

  lemma ParseNegated(b: string)
    ensures ParseSigned("-" + b) == match ParseNumeral(b) case Some(v) => Some(-v) case None => None
  {
    assert ("-" + b)[1..] == b;
  }

  /** `int` reads back what `str` writes. */
  lemma ParseShowInt(n: int)
    ensures ParseInt(ShowInt(n)) == Some(n)
  {
    if n < 0 {
      assert ShowInt(n) == "-" + ShowNat(-n);
      ParseShowNegative(-n);
    } else {
      assert ShowInt(n) == ShowNat(n);
      ParseShowNat(n);
    }
  }
}
