/**
 * The Python string operations the solar-system file reader relies on:
 * `str.strip()`, `str.split()` with no separator, `str.lower()`, and the
 * conversions `int(token)` and `float(token)` of a whitespace-free token.
 *
 * Whitespace is the ASCII whitespace Python recognises (space, \t, \n,
 * \v, \f, \r and the separators \x1c-\x1f); letters are case-folded in
 * the ASCII range only; `int` takes an optional sign and decimal digits,
 * `float` an optional sign and a decimal with or without a point.
 */
module SolarText {
  import opened Wrappers

  predicate IsSpace(c: char)
  {
    c == ' ' || 9 <= c as int <= 13 || 28 <= c as int <= 31
  }

  predicate AllSpace(s: string)
  {
    forall i :: 0 <= i < |s| ==> IsSpace(s[i])
  }

  /** A token `split` can produce: non-empty and without whitespace. */
  predicate IsWord(w: string)
  {
    w != [] && forall i :: 0 <= i < |w| ==> !IsSpace(w[i])
  }

  /** The length of the run of non-whitespace that starts `s`. */
  function WordLength(s: string): (n: nat)
    ensures n <= |s|
    ensures forall i :: 0 <= i < n ==> !IsSpace(s[i])
    ensures n < |s| ==> IsSpace(s[n])
  {
    if s == [] || IsSpace(s[0]) then 0 else 1 + WordLength(s[1..])
  }

  /** `s.split()`: the maximal runs of non-whitespace of `s`, in order. */
  function Split(s: string): (r: seq<string>)
    ensures forall k :: 0 <= k < |r| ==> IsWord(r[k])
    decreases |s|
  {
    if s == [] then []
    else if IsSpace(s[0]) then Split(s[1..])
    else
      var n := WordLength(s);
      [s[..n]] + Split(s[n..])
  }

  /** `" ".join(ws)`. */
  function Join(ws: seq<string>): string
  {
    if ws == [] then []
    else if |ws| == 1 then ws[0]
    else ws[0] + " " + Join(ws[1..])
  }

  /** `s.lstrip()`. */
  function TrimLeft(s: string): (r: string)
    ensures |r| <= |s| && r == s[|s| - |r|..] && AllSpace(s[..|s| - |r|])
    ensures r != [] ==> !IsSpace(r[0])
  {
    if s != [] && IsSpace(s[0]) then
      var r := TrimLeft(s[1..]);
      assert s[1..][..|s| - 1 - |r|] == s[1..|s| - |r|];
      r
    else s
  }

  /** `s.rstrip()`. */
  function TrimRight(s: string): (r: string)
    ensures |r| <= |s| && r == s[..|r|] && AllSpace(s[|r|..])
    ensures r != [] ==> !IsSpace(r[|r| - 1])
  {
    if s != [] && IsSpace(s[|s| - 1]) then
      var init := s[..|s| - 1];
      var r := TrimRight(init);
      assert init[..|r|] == s[..|r|];
      assert s[|r|..] == init[|r|..] + [s[|s| - 1]];
      r
    else s
  }

  /** `s.strip()`. */
  function Strip(s: string): string
  {
    TrimRight(TrimLeft(s))
  }

  /** A word followed by nothing or by whitespace splits off as the first token. */
  lemma {:induction false} SplitWord(w: string, rest: string)
    requires IsWord(w) && (rest == [] || IsSpace(rest[0]))
    ensures Split(w + rest) == [w] + Split(rest)
  {
    WordLengthOf(w, rest);
    assert (w + rest)[..|w|] == w;
    assert (w + rest)[|w|..] == rest;
  }

  lemma {:induction false} WordLengthOf(w: string, rest: string)
    requires forall i :: 0 <= i < |w| ==> !IsSpace(w[i])
    requires rest == [] || IsSpace(rest[0])
    ensures WordLength(w + rest) == |w|
    decreases |w|
  {
    if w != [] {
      assert (w + rest)[1..] == w[1..] + rest;
      WordLengthOf(w[1..], rest);
    }
  }

  /** Splitting the words joined with single spaces gives the words back. */
  lemma {:induction false} SplitJoin(ws: seq<string>)
    requires forall k :: 0 <= k < |ws| ==> IsWord(ws[k])
    ensures Split(Join(ws)) == ws
  {
    if |ws| == 1 {
      SplitWord(ws[0], []);
      assert ws[0] + [] == ws[0];
    } else if |ws| > 1 {
      var tail := Join(ws[1..]);
      var rest := " " + tail;
      assert Join(ws) == ws[0] + rest;
      SplitWord(ws[0], rest);
      assert rest[1..] == tail;
      assert Split(rest) == Split(tail);
      SplitJoin(ws[1..]);
      assert [ws[0]] + ws[1..] == ws;
    }
  }

  /** Leading whitespace does not change the tokens. */
  lemma {:induction false} SplitLeading(s: string, t: string)
    requires AllSpace(t)
    ensures Split(t + s) == Split(s)
    decreases |t|
  {
    if t != [] {
      assert (t + s)[0] == t[0];
      assert (t + s)[1..] == t[1..] + s;
      assert Split(t + s) == Split((t + s)[1..]);
      SplitLeading(s, t[1..]);
    } else {
      assert t + s == s;
    }
  }

  /** Trailing whitespace does not change the tokens. */
  lemma {:induction false} SplitTrailing(s: string, t: string)
    requires AllSpace(t)
    ensures Split(s + t) == Split(s)
    decreases |s|
  {
    if s == [] {
      assert [] + t == t + [];
      SplitLeading([], t);
    } else if IsSpace(s[0]) {
      assert (s + t)[1..] == s[1..] + t;
      SplitTrailing(s[1..], t);
    } else {
      var n := WordLength(s);
      WordLengthOf(s[..n], s[n..]);
      assert s[..n] + s[n..] == s;
      WordLengthOf(s[..n], s[n..] + t);
      assert s[..n] + (s[n..] + t) == s + t;
      assert (s + t)[..n] == s[..n];
      assert (s + t)[n..] == s[n..] + t;
      SplitTrailing(s[n..], t);
    }
  }

  /** `line.strip().split()` and `line.split()` give the same tokens. */
  lemma SplitStrip(s: string)
    ensures Split(Strip(s)) == Split(s)
  {
    SplitTrimLeft(s);
    SplitTrimRight(TrimLeft(s));
  }

  lemma SplitTrimLeft(s: string)
    ensures Split(TrimLeft(s)) == Split(s)
  {
    var l := TrimLeft(s);
    var p := s[..|s| - |l|];
    assert s == p + l;
    SplitLeading(l, p);
  }

  lemma SplitTrimRight(s: string)
    ensures Split(TrimRight(s)) == Split(s)
  {
    var r := TrimRight(s);
    var t := s[|r|..];
    assert s == r + t;
    SplitTrailing(r, t);
  }

  /** A line is blank after `strip` exactly when it is all whitespace. */
  lemma StripBlank(s: string)
    ensures Strip(s) == [] <==> AllSpace(s)
  {
    var l := TrimLeft(s);
    var p := s[..|s| - |l|];
    assert s == p + l;
    if l != [] {
      var r := TrimRight(l);
      assert !IsSpace(l[0]);
      assert r != [];
      assert !IsSpace(s[|p|]);
    } else {
      assert s == p;
    }
  }

  /** A line is all whitespace exactly when it has no tokens. */
  lemma {:induction false} SplitBlank(s: string)
    ensures AllSpace(s) <==> Split(s) == []
    decreases |s|
  {
    if s != [] {
      SplitBlank(s[1..]);
      if IsSpace(s[0]) {
        assert AllSpace(s) <==> AllSpace(s[1..]);
      }
    }
  }

  /**
   * A line that is not blank after `strip` has tokens, and the stripped
   * line starts with the first token's first character: `strip` then
   * `startswith('#')` asks whether the first token starts with '#'.
   */
  lemma StripHead(s: string)
    requires Strip(s) != []
    ensures Split(s) != [] && Strip(s)[0] == Split(s)[0][0]
  {
    var l := TrimLeft(s);
    var p := s[..|s| - |l|];
    assert s == p + l;
    SplitLeading(l, p);
    var r := TrimRight(l);
    assert r == l[..|r|];
    assert l[0] == r[0];
    assert Split(l)[0] == l[..WordLength(l)];
  }

  function LowerChar(c: char): char
  {
    if 'A' <= c <= 'Z' then (c as int + 32) as char else c
  }

  function UpperChar(c: char): char
  {
    if 'a' <= c <= 'z' then (c as int - 32) as char else c
  }

  /** `s.lower()`. */
  function Lower(s: string): (r: string)
    ensures |r| == |s|
  {
    seq(|s|, i requires 0 <= i < |s| => LowerChar(s[i]))
  }

  /**
   * For a keyword of lower-case letters, `w.lower() == kw` holds exactly
   * when `w` spells the keyword with each letter in either case.
   */
  lemma CaseInsensitive(w: string, kw: string)
    requires forall i :: 0 <= i < |kw| ==> 'a' <= kw[i] <= 'z'
    ensures Lower(w) == kw <==>
      (|w| == |kw| && forall i :: 0 <= i < |w| ==> w[i] == kw[i] || w[i] == UpperChar(kw[i]))
  {
    if |w| == |kw| && forall i :: 0 <= i < |w| ==> w[i] == kw[i] || w[i] == UpperChar(kw[i]) {
      assert forall i :: 0 <= i < |w| ==> Lower(w)[i] == kw[i];
    }
  }

  predicate IsDigit(c: char)
  {
    '0' <= c <= '9'
  }

  predicate AllDigits(s: string)
  {
    forall i :: 0 <= i < |s| ==> IsDigit(s[i])
  }

  /** The value of a run of decimal digits; the empty run is 0. */
  function DigitsValue(ds: string): nat
    requires AllDigits(ds)
  {
    if ds == [] then 0
    else DigitsValue(ds[..|ds| - 1]) * 10 + (ds[|ds| - 1] as int - '0' as int)
  }

  function ParseNat(tok: string): Option<nat>
  {
    if tok != [] && AllDigits(tok) then Some(DigitsValue(tok)) else None
  }

  /** `int(tok)` for a token: an optional sign, then at least one decimal digit. */
  function ParseInt(tok: string): (r: Option<int>)
    ensures r.Some? ==> tok != [] && (IsDigit(tok[0]) || tok[0] == '+' || tok[0] == '-')
  {
    if tok != [] && (tok[0] == '+' || tok[0] == '-') then
      match ParseNat(tok[1..])
      case None => None
      case Some(n) =>
        var v: int := n;
        Some(if tok[0] == '-' then -v else v)
    else
      match ParseNat(tok)
      case None => None
      case Some(n) => Some(n)
  }

  function Pow10(n: nat): (r: nat)
    ensures r >= 1
  {
    if n == 0 then 1 else 10 * Pow10(n - 1)
  }

  /** The length of the run of digits that starts `s`. */
  function DigitsLength(s: string): (n: nat)
    ensures n <= |s| && AllDigits(s[..n])
    ensures n < |s| ==> !IsDigit(s[n])
  {
    if s == [] || !IsDigit(s[0]) then 0
    else
      var n := 1 + DigitsLength(s[1..]);
      assert s[..n] == [s[0]] + s[1..][..n - 1];
      n
  }

  /** An unsigned decimal: digits, or digits around a point with a digit on at least one side. */
  function ParseDecimal(tok: string): Option<real>
  {
    var n := DigitsLength(tok);
    if n == |tok| then
      if n > 0 then Some(DigitsValue(tok) as real) else None
    else if tok[n] == '.' && AllDigits(tok[n + 1..]) && (n > 0 || n + 1 < |tok|) then
      var frac := tok[n + 1..];
      Some(DigitsValue(tok[..n]) as real + DigitsValue(frac) as real / Pow10(|frac|) as real)
    else None
  }

  /** `float(tok)` for a token: an optional sign, then a decimal. */
  function ParseFloat(tok: string): Option<real>
  {
    if tok != [] && (tok[0] == '+' || tok[0] == '-') then
      match ParseDecimal(tok[1..])
      case None => None
      case Some(v) => Some(if tok[0] == '-' then -v else v)
    else ParseDecimal(tok)
  }

  /** A token `int` accepts, `float` accepts too, with the same value. */
  lemma IntIsFloat(tok: string)
    requires ParseInt(tok).Some?
    ensures ParseFloat(tok) == Some(ParseInt(tok).value as real)
  {
    var body := if tok[0] == '+' || tok[0] == '-' then tok[1..] else tok;
    assert DigitsLength(body) == |body| by {
      assert AllDigits(body);
      DigitsRun(body);
    }
  }

  lemma {:induction false} DigitsRun(s: string)
    requires AllDigits(s)
    ensures DigitsLength(s) == |s|
  {
    if s != [] {
      DigitsRun(s[1..]);
    }
  }

  function DigitChar(d: nat): char
    requires d < 10
  {
    ('0' as int + d) as char
  }

  /** `str(n)` for n >= 0: its decimal digits, most significant first. */
  function ShowNat(n: nat): (r: string)
    ensures r != [] && AllDigits(r)
  {
    if n < 10 then [DigitChar(n)] else ShowNat(n / 10) + [DigitChar(n % 10)]
  }

  /** `str(i)`. */
  function ShowInt(i: int): string
  {
    if i < 0 then "-" + ShowNat(-i) else ShowNat(i)
  }

  lemma {:induction false} ShowNatValue(n: nat)
    ensures DigitsValue(ShowNat(n)) == n
  {
    if n >= 10 {
      var s := ShowNat(n);
      assert s[..|s| - 1] == ShowNat(n / 10);
      ShowNatValue(n / 10);
    }
  }

  /** `int(str(i)) == i`: the token `str` writes for an integer reads back as that integer. */
  lemma ParseShowInt(i: int)
    ensures ParseInt(ShowInt(i)) == Some(i)
  {
    if i < 0 {
      ShowNatValue(-i);
      assert ShowInt(i)[1..] == ShowNat(-i);
    } else {
      ShowNatValue(i);
      var s := ShowNat(i);
      assert IsDigit(s[0]);
    }
  }
}
