/** The handful of C library string routines the configuration parser relies on
    (strstr, strtok, std::string::find_first_of, isdigit, isspace, atoi, atof),
    given their C semantics on a line seen as a sequence of characters. */
module CText {

  datatype Option<T> = None | Some(value: T)

  /** One strtok result: the token, and the text the next strtok(NULL, ...) call resumes from. */
  datatype Split = Split(token: seq<char>, rest: seq<char>)

  /** The characters isspace accepts in the C locale: space, \t, \n, \v, \f, \r. */
  const Spaces: set<char> := {' ', '\t', '\n', 11 as char, 12 as char, '\r'}

  predicate IsDigit(c: char) { '0' as int <= c as int <= '9' as int }

  predicate AllDigits(ds: seq<char>)
  {
    forall i :: 0 <= i < |ds| ==> IsDigit(ds[i])
  }

  predicate OccursAt(s: seq<char>, pat: seq<char>, i: int)
  {
    0 <= i <= |s| - |pat| && s[i..i + |pat|] == pat
  }

  /** strstr(s, pat) != NULL */
  predicate Contains(s: seq<char>, pat: seq<char>)
  {
    exists i | 0 <= i <= |s| - |pat| :: OccursAt(s, pat, i)
  }

  /** Index of the first character of s that is in cs, or |s| when there is none
      (strcspn; std::string::find_first_of with npos read as |s|). */
  function FindFirstIn(s: seq<char>, cs: set<char>): (r: nat)
    ensures r <= |s|
    ensures forall i :: 0 <= i < r ==> s[i] !in cs
    ensures r < |s| ==> s[r] in cs
  {
    if s == [] || s[0] in cs then 0 else 1 + FindFirstIn(s[1..], cs)
  }

  /** Index of the first character of s that is not in cs, or |s| (strspn). */
  function FindFirstNotIn(s: seq<char>, cs: set<char>): (r: nat)
    ensures r <= |s|
    ensures forall i :: 0 <= i < r ==> s[i] in cs
    ensures r < |s| ==> s[r] !in cs
  {
    if s == [] || s[0] !in cs then 0 else 1 + FindFirstNotIn(s[1..], cs)
  }

  /** The token at the head of t (which starts with a non-delimiter): the longest run
      of non-delimiters, and what follows the delimiter that ends it. */
  function TakeToken(t: seq<char>, delims: set<char>): (r: Split)
    requires |t| > 0
  {
    var len := FindFirstIn(t, delims);
    if len == |t| then Split(t, []) else Split(t[..len], t[len + 1..])
  }

  /** strtok(s, delims) with s the text left over from the previous call: leading
      delimiters are skipped (so a run of delimiters counts as one), the token is the
      longest run of non-delimiters that follows, and the delimiter ending it is
      consumed. None stands for the NULL strtok returns when only delimiters remain. */
  function Strtok(s: seq<char>, delims: set<char>): (r: Option<Split>)
    ensures r.None? <==> forall i :: 0 <= i < |s| ==> s[i] in delims
    ensures r.Some? ==> |r.value.token| > 0
    ensures r.Some? ==> forall i :: 0 <= i < |r.value.token| ==> r.value.token[i] !in delims
    ensures r.Some? ==> |r.value.token| + |r.value.rest| <= |s|
    ensures r.Some? ==> r.value.rest == s[|s| - |r.value.rest|..]
  {
    var t := s[FindFirstNotIn(s, delims)..];
    if t == [] then None else Some(TakeToken(t, delims))
  }

  /** A token that starts at once ends at the first delimiter, which is consumed. */
  lemma StrtokSplitsAt(s: seq<char>, delims: set<char>, k: nat)
    requires 0 < k < |s| && s[k] in delims
    requires forall i :: 0 <= i < k ==> s[i] !in delims
    ensures Strtok(s, delims) == Some(Split(s[..k], s[k + 1..]))
  {
    assert s[0..] == s;
    assert FindFirstIn(s, delims) == k;
  }

  /** With no delimiter left, the token is the whole remaining text. */
  lemma StrtokWhole(s: seq<char>, delims: set<char>)
    requires |s| > 0
    requires forall i :: 0 <= i < |s| ==> s[i] !in delims
    ensures Strtok(s, delims) == Some(Split(s, []))
  {
    assert s[0..] == s;
    assert FindFirstIn(s, delims) == |s|;
  }

  lemma {:induction false} FindFirstNotInSkips(d: seq<char>, s: seq<char>, delims: set<char>)
    requires forall i :: 0 <= i < |d| ==> d[i] in delims
    ensures FindFirstNotIn(d + s, delims) == |d| + FindFirstNotIn(s, delims)
  {
    if d != [] {
      assert (d + s)[1..] == d[1..] + s;
      FindFirstNotInSkips(d[1..], s, delims);
    } else {
      assert d + s == s;
    }
  }

  /** Leading delimiters are skipped: strtok gives the same token and leaves the same
      text whether or not a run of delimiters precedes it, so runs of delimiters
      between tokens count as one. */
  lemma StrtokSkipsLeadingDelims(d: seq<char>, s: seq<char>, delims: set<char>)
    requires forall i :: 0 <= i < |d| ==> d[i] in delims
    ensures Strtok(d + s, delims) == Strtok(s, delims)
  {
    FindFirstNotInSkips(d, s, delims);
    var start := FindFirstNotIn(s, delims);
    assert (d + s)[|d| + start..] == s[start..];
  }

  /** Value of a run of decimal digits, most significant first. */
  function DecValue(ds: seq<char>): (n: nat)
    requires AllDigits(ds)
  {
    if ds == [] then 0
    else
      var last := ds[|ds| - 1];
      assert IsDigit(last);
      10 * DecValue(ds[..|ds| - 1]) + (last as int - '0' as int)
  }

  /** Length of the leading run of digits of s. */
  function DigitCount(s: seq<char>): (n: nat)
    ensures n <= |s|
    ensures AllDigits(s[..n])
    ensures n == |s| || !IsDigit(s[n])
  {
    if s == [] || !IsDigit(s[0]) then 0 else 1 + DigitCount(s[1..])
  }

  /** The leading run of digits of s. */
  function LeadingDigits(s: seq<char>): (ds: seq<char>)
    ensures |ds| <= |s| && ds == s[..|ds|]
    ensures AllDigits(ds)
    ensures |ds| == |s| || !IsDigit(s[|ds|])
  {
    s[..DigitCount(s)]
  }

  /** atoi: skip isspace characters, read an optional sign, then digits; 0 when no
      digits follow. Overflow of int is not modelled (the value is unbounded). */
  function Atoi(s: seq<char>): (n: int)
    ensures s != [] && IsDigit(s[0]) ==> n == DecValue(LeadingDigits(s)) && n >= 0
  {
    var t := s[FindFirstNotIn(s, Spaces)..];
    if t != [] && (t[0] == '-' || t[0] == '+') then
      var m: int := DecValue(LeadingDigits(t[1..]));
      if t[0] == '-' then -m else m
    else DecValue(LeadingDigits(t))
  }

  function Pow10(k: nat): (p: nat)
    ensures p >= 1
  {
    if k == 0 then 1 else 10 * Pow10(k - 1)
  }

  /** Unsigned decimal "digits[.digits]" at the head of t. */
  function UnsignedDecimal(t: seq<char>): (x: real)
    ensures x >= 0.0
  {
    var ip := LeadingDigits(t);
    var after := t[|ip|..];
    if after != [] && after[0] == '.' then
      var fp := LeadingDigits(after[1..]);
      DecValue(ip) as real + (DecValue(fp) as real) / (Pow10(|fp|) as real)
    else DecValue(ip) as real
  }

  /** atof, for the plain decimal forms: skip isspace characters, optional sign,
      digits, optional fraction; 0.0 when no number follows. */
  function Atof(s: seq<char>): (x: real)
    ensures s != [] && IsDigit(s[0]) ==> x >= 0.0
  {
    var t := s[FindFirstNotIn(s, Spaces)..];
    if t != [] && (t[0] == '-' || t[0] == '+') then
      var m := UnsignedDecimal(t[1..]);
      if t[0] == '-' then -m else m
    else UnsignedDecimal(t)
  }

  // ---------------------------------------------------------------------------
  // What atoi and atof read from the tokens the parser hands them

  lemma ConcatRight<T>(a: seq<T>, b: seq<T>, c: seq<T>, d: seq<T>)
    ensures a + b + c + d == a + (b + (c + d))
  {
  }

  lemma ConcatFront<T>(a: seq<T>, b: seq<T>, c: seq<T>, d: seq<T>, e: seq<T>)
    ensures a + b + c + d + e == a + (b + c + d + e)
  {
  }

  lemma DigitIsNoSpace(c: char)
    requires IsDigit(c)
    ensures c !in Spaces && c != '.' && c != '-' && c != '+'
  {
  }

  /** Leading isspace characters are skipped. */
  lemma SkipSpaces(ws: seq<char>, t: seq<char>)
    requires forall i :: 0 <= i < |ws| ==> ws[i] in Spaces
    requires t == [] || t[0] !in Spaces
    ensures (ws + t)[FindFirstNotIn(ws + t, Spaces)..] == t
  {
    FindFirstNotInSkips(ws, t, Spaces);
    assert FindFirstNotIn(t, Spaces) == 0;
  }

  /** A run of digits that a non-digit (or the end) follows is read whole. */
  lemma LeadingDigitsOfRun(ds: seq<char>, rest: seq<char>)
    requires AllDigits(ds)
    requires rest == [] || !IsDigit(rest[0])
    ensures LeadingDigits(ds + rest) == ds
  {
    var s := ds + rest;
    assert forall i :: 0 <= i < |ds| ==> s[i] == ds[i];
    assert |ds| < |s| ==> s[|ds|] == rest[0];
    assert s[..|ds|] == ds;
  }

  /** atoi of a token made of isspace characters, digits and then a non-digit reads the
      digits' value. */
  lemma AtoiReadsDigits(ws: seq<char>, ds: seq<char>, rest: seq<char>)
    requires forall i :: 0 <= i < |ws| ==> ws[i] in Spaces
    requires |ds| > 0 && AllDigits(ds)
    requires rest == [] || !IsDigit(rest[0])
    ensures Atoi(ws + ds + rest) == DecValue(ds)
  {
    assert ws + ds + rest == ws + (ds + rest);
    assert (ds + rest)[0] == ds[0];
    DigitIsNoSpace(ds[0]);
    SkipSpaces(ws, ds + rest);
    LeadingDigitsOfRun(ds, rest);
  }

  /** With a sign after the isspace characters, atoi reads the digits after it and
      negates them for '-'; no digits reads as 0. */
  lemma AtoiReadsSign(ws: seq<char>, sign: char, ds: seq<char>, rest: seq<char>)
    requires forall i :: 0 <= i < |ws| ==> ws[i] in Spaces
    requires sign == '-' || sign == '+'
    requires AllDigits(ds)
    requires rest == [] || !IsDigit(rest[0])
    ensures Atoi(ws + [sign] + ds + rest) == if sign == '-' then -(DecValue(ds) as int) else DecValue(ds)
  {
    var t := [sign] + ds + rest;
    assert ws + [sign] + ds + rest == ws + t;
    SkipSpaces(ws, t);
    assert t[1..] == ds + rest;
    LeadingDigitsOfRun(ds, rest);
  }

  /** UnsignedDecimal in terms of the integer digits, the '.' after them and the
      fraction digits after that. */
  lemma UnsignedDecimalParts(t: seq<char>, ip: seq<char>, after: seq<char>, fp: seq<char>)
    requires AllDigits(ip) && AllDigits(fp)
    requires LeadingDigits(t) == ip && t[|ip|..] == after && after != [] && after[0] == '.'
    requires LeadingDigits(after[1..]) == fp
    ensures UnsignedDecimal(t) == DecValue(ip) as real + (DecValue(fp) as real) / (Pow10(|fp|) as real)
  {
  }

  /** "digits.digits" reads as the integer part plus the fraction over the matching
      power of ten. */
  lemma UnsignedDecimalFraction(t: seq<char>, ip: seq<char>, fp: seq<char>, rest: seq<char>)
    requires AllDigits(ip) && AllDigits(fp)
    requires rest == [] || !IsDigit(rest[0])
    requires t == ip + "." + fp + rest
    ensures UnsignedDecimal(t) == DecValue(ip) as real + (DecValue(fp) as real) / (Pow10(|fp|) as real)
  {
    var after := "." + (fp + rest);
    ConcatRight(ip, ".", fp, rest);
    assert after[0] == '.' && !IsDigit('.');
    LeadingDigitsOfRun(ip, after);
    assert t[|ip|..] == after;
    assert after[1..] == fp + rest;
    LeadingDigitsOfRun(fp, rest);
    UnsignedDecimalParts(t, ip, after, fp);
  }

  /** Once the isspace characters are skipped, atof reads an unsigned decimal unless a
      sign comes first. */
  lemma AtofAfterSpaces(s: seq<char>, ws: seq<char>, t: seq<char>)
    requires forall i :: 0 <= i < |ws| ==> ws[i] in Spaces
    requires t == [] || (t[0] !in Spaces && t[0] != '-' && t[0] != '+')
    requires s == ws + t
    ensures Atof(s) == UnsignedDecimal(t)
  {
    SkipSpaces(ws, t);
  }

  /** atof of isspace characters, then "digits.digits", then a non-digit. */
  lemma AtofReadsFraction(ws: seq<char>, ip: seq<char>, fp: seq<char>, rest: seq<char>)
    requires forall i :: 0 <= i < |ws| ==> ws[i] in Spaces
    requires AllDigits(ip) && AllDigits(fp)
    requires rest == [] || !IsDigit(rest[0])
    ensures Atof(ws + ip + "." + fp + rest)
      == DecValue(ip) as real + (DecValue(fp) as real) / (Pow10(|fp|) as real)
  {
    var t := ip + "." + fp + rest;
    var s := ws + ip + "." + fp + rest;
    ConcatFront(ws, ip, ".", fp, rest);
    if ip == [] {
      assert t[0] == '.' && '.' !in Spaces;
    } else {
      assert t[0] == ip[0];
      DigitIsNoSpace(ip[0]);
    }
    AtofAfterSpaces(s, ws, t);
    UnsignedDecimalFraction(t, ip, fp, rest);
  }

  /** Digits followed by neither a digit nor a '.' read as their value; no digits read
      as 0. */
  lemma UnsignedDecimalInteger(ip: seq<char>, rest: seq<char>)
    requires AllDigits(ip)
    requires rest == [] || (!IsDigit(rest[0]) && rest[0] != '.')
    ensures UnsignedDecimal(ip + rest) == DecValue(ip) as real
  {
    LeadingDigitsOfRun(ip, rest);
    assert (ip + rest)[|ip|..] == rest;
  }

  /** atof of isspace characters, then digits, then neither a digit nor a '.'. */
  lemma AtofReadsInteger(ws: seq<char>, ip: seq<char>, rest: seq<char>)
    requires forall i :: 0 <= i < |ws| ==> ws[i] in Spaces
    requires |ip| > 0 && AllDigits(ip)
    requires rest == [] || (!IsDigit(rest[0]) && rest[0] != '.')
    ensures Atof(ws + ip + rest) == DecValue(ip) as real
  {
    var t := ip + rest;
    assert ws + ip + rest == ws + t;
    assert t[0] == ip[0];
    DigitIsNoSpace(ip[0]);
    AtofAfterSpaces(ws + ip + rest, ws, t);
    UnsignedDecimalInteger(ip, rest);
  }

  /** atof of isspace characters, '-', digits, then neither a digit nor a '.': a
      negative range bound such as "-40" reads as -40. */
  lemma AtofReadsNegativeInteger(ws: seq<char>, ip: seq<char>, rest: seq<char>)
    requires forall i :: 0 <= i < |ws| ==> ws[i] in Spaces
    requires AllDigits(ip)
    requires rest == [] || (!IsDigit(rest[0]) && rest[0] != '.')
    ensures Atof(ws + ['-'] + ip + rest) == -(DecValue(ip) as real)
  {
    assert ws + ['-'] + ip + rest == ws + ['-'] + (ip + rest);
    AtofReadsMinus(ws, ip + rest);
    UnsignedDecimalInteger(ip, rest);
  }

  /** atof of isspace characters followed by no number (neither a digit, '.', nor a sign)
      gives 0: a multiplier written as "x" reads as 0. */
  lemma AtofReadsNoNumber(ws: seq<char>, rest: seq<char>)
    requires forall i :: 0 <= i < |ws| ==> ws[i] in Spaces
    requires rest == [] || (rest[0] !in Spaces && !IsDigit(rest[0]) && rest[0] !in {'.', '+', '-'})
    ensures Atof(ws + rest) == 0.0
  {
    AtofAfterSpaces(ws + rest, ws, rest);
    UnsignedDecimalInteger([], rest);
    assert [] + rest == rest;
  }

  /** atoi of isspace characters followed by neither a digit nor a sign reads no number
      and gives 0. */
  lemma AtoiReadsNoNumber(ws: seq<char>, rest: seq<char>)
    requires forall i :: 0 <= i < |ws| ==> ws[i] in Spaces
    requires rest == [] || (rest[0] !in Spaces && !IsDigit(rest[0]) && rest[0] != '-' && rest[0] != '+')
    ensures Atoi(ws + rest) == 0
  {
    SkipSpaces(ws, rest);
  }

  /** A '+' after the isspace characters is skipped: atof reads the unsigned decimal that
      follows it. */
  lemma AtofReadsPlus(ws: seq<char>, u: seq<char>)
    requires forall i :: 0 <= i < |ws| ==> ws[i] in Spaces
    ensures Atof(ws + ['+'] + u) == UnsignedDecimal(u)
  {
    var t := ['+'] + u;
    assert ws + ['+'] + u == ws + t;
    SkipSpaces(ws, t);
    assert t[1..] == u;
  }

  /** A '-' after the isspace characters negates what atof reads after it. */
  lemma AtofReadsMinus(ws: seq<char>, u: seq<char>)
    requires forall i :: 0 <= i < |ws| ==> ws[i] in Spaces
    ensures Atof(ws + ['-'] + u) == -UnsignedDecimal(u)
  {
    var t := ['-'] + u;
    assert ws + ['-'] + u == ws + t;
    SkipSpaces(ws, t);
    assert t[1..] == u;
  }
}
