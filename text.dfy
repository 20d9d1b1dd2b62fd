/** The JavaScript string and number primitives the core relies on:
    `String.prototype.split` and `Array.prototype.join` with a one-character
    separator, `startsWith`, the regular-expression word class `\w`, the
    decimal printing of a number in a template string, and the unary `+`
    conversion of a query-string value. */
module Text {
  import opened Wrappers

  /** The characters `\w` matches in a JavaScript regular expression without
      the `u` flag: ASCII letters, digits and the underscore. */
  predicate IsWordChar(c: char) {
    ('a' <= c <= 'z') || ('A' <= c <= 'Z') || ('0' <= c <= '9') || c == '_'
  }

  predicate StartsWith(s: string, prefix: string) {
    prefix <= s
  }

  /** The index of the first `c` in `s`, or `|s|` when there is none. */
  function IndexOf(s: string, c: char): (i: nat)
    ensures i <= |s| && (i < |s| ==> s[i] == c)
    ensures forall j :: 0 <= j < i ==> s[j] != c
  {
    if s == [] || s[0] == c then 0 else 1 + IndexOf(s[1..], c)
  }

  /** `s.split(sep)` for a one-character separator: the pieces between the
      separators, empty pieces included; the empty string splits into one
      empty piece. */
  function Split(s: string, sep: char): (parts: seq<string>)
    ensures |parts| >= 1
    decreases |s|
  {
    var i := IndexOf(s, sep);
    if i == |s| then [s] else [s[..i]] + Split(s[i + 1..], sep)
  }

  lemma {:induction false} IndexOfAfter(a: string, c: char, b: string)
    requires c !in a
    ensures IndexOf(a + [c] + b, c) == |a|
  {
    if a != [] {
      IndexOfAfter(a[1..], c, b);
      assert (a + [c] + b)[1..] == a[1..] + [c] + b;
    }
  }

  /** Text without the separator is one piece; a separator after such a
      piece ends it. */
  lemma SplitPieces(a: string, c: char, b: string)
    requires c !in a
    ensures Split(a, c) == [a]
    ensures Split(a + [c] + b, c) == [a] + Split(b, c)
  {
    IndexOfAfter(a, c, b);
    var t := a + [c] + b;
    assert t[..|a|] == a && t[|a| + 1..] == b;
  }

  /** `parts.join(sep)`. */
  function Join(parts: seq<string>, sep: string): string {
    if |parts| == 0 then []
    else if |parts| == 1 then parts[0]
    else parts[0] + sep + Join(parts[1..], sep)
  }

  /** Every occurrence of `c` in `s` replaced by `d`, position by position. */
  function ReplaceChar(s: string, c: char, d: char): (r: string)
    ensures |r| == |s|
    ensures forall i :: 0 <= i < |s| ==> r[i] == if s[i] == c then d else s[i]
  {
    seq(|s|, i requires 0 <= i < |s| => if s[i] == c then d else s[i])
  }

  lemma JoinCons(first: string, rest: seq<string>, sep: string)
    requires |rest| >= 1
    ensures Join([first] + rest, sep) == first + sep + Join(rest, sep)
  {
    assert ([first] + rest)[1..] == rest;
  }

  lemma ReplaceAbsent(s: string, c: char, d: char)
    requires forall j :: 0 <= j < |s| ==> s[j] != c
    ensures ReplaceChar(s, c, d) == s
  {
  }

  lemma ReplaceAtFirst(s: string, c: char, d: char, i: nat)
    requires i < |s| && s[i] == c
    requires forall j :: 0 <= j < i ==> s[j] != c
    ensures ReplaceChar(s, c, d) == s[..i] + [d] + ReplaceChar(s[i + 1..], c, d)
  {
  }

  /** Splitting at the first separator and joining again. */
  lemma SplitJoinStep(s: string, c: char, sep: string)
    requires IndexOf(s, c) < |s|
    ensures var i := IndexOf(s, c);
      Join(Split(s, c), sep) == s[..i] + sep + Join(Split(s[i + 1..], c), sep)
  {
    var i := IndexOf(s, c);
    JoinCons(s[..i], Split(s[i + 1..], c), sep);
  }

  /** `s.split(c).join(d)` replaces every `c` by `d` and changes nothing else. */
  lemma {:induction false} SplitJoinReplaces(s: string, c: char, d: char)
    ensures Join(Split(s, c), [d]) == ReplaceChar(s, c, d)
    decreases |s|
  {
    var i := IndexOf(s, c);
    if i == |s| {
      ReplaceAbsent(s, c, d);
    } else {
      SplitJoinReplaces(s[i + 1..], c, d);
      SplitJoinStep(s, c, [d]);
      ReplaceAtFirst(s, c, d, i);
    }
  }

  // ---------------------------------------------------------------------
  // Decimal numbers

  predicate IsDigit(c: char) { '0' <= c <= '9' }

  predicate AllDigits(s: string) {
    forall i :: 0 <= i < |s| ==> IsDigit(s[i])
  }

  function DigitChar(d: nat): (c: char)
    requires d < 10
    ensures IsDigit(c)
  {
    ('0' as int + d) as char
  }

  /** The value of a string of decimal digits. */
  function DigitsValue(s: string): int
  {
    if s == [] then 0
    else DigitsValue(s[..|s| - 1]) * 10 + (s[|s| - 1] as int - '0' as int)
  }

  /** The decimal text of a natural number, as `${n}` prints it. */
  function NatToString(n: nat): (s: string)
    ensures |s| >= 1 && AllDigits(s)
  {
    if n < 10 then [DigitChar(n)] else NatToString(n / 10) + [DigitChar(n % 10)]
  }

  lemma {:induction false} DigitsOfNat(n: nat)
    ensures DigitsValue(NatToString(n)) == n
  {
    if n >= 10 {
      DigitsOfNat(n / 10);
      var s := NatToString(n);
      assert s[..|s| - 1] == NatToString(n / 10);
    }
  }

  /** What unary `+` makes of a string: a number or NaN. */
  datatype JsNumber = Num(n: int) | NaN

  /** White space that `Number(...)` strips from both ends: the white
      space and line terminators of ECMAScript, which take in every
      space separator (Unicode category Zs). */
  predicate IsJsSpace(c: char) {
    c == ' ' || c == '\t' || c == '\n' || c == '\r' || c as int == 11 || c as int == 12
    || c as int == 0xA0 || c as int == 0xFEFF
    || c as int == 0x1680 || 0x2000 <= c as int <= 0x200A || c as int == 0x202F
    || c as int == 0x205F || c as int == 0x3000
    || c as int == 0x2028 || c as int == 0x2029
  }

  function TrimStart(s: string): string {
    if s != [] && IsJsSpace(s[0]) then TrimStart(s[1..]) else s
  }

  function TrimEnd(s: string): string {
    if s != [] && IsJsSpace(s[|s| - 1]) then TrimEnd(s[..|s| - 1]) else s
  }

  function Trim(s: string): string {
    TrimEnd(TrimStart(s))
  }

  /** `+s` for a string written as an optionally signed decimal integer,
      with surrounding white space; blank text converts to 0 and anything
      else the model treats as NaN. */
  function ToNumber(s: string): JsNumber {
    IntegerLiteral(Trim(s))
  }

  /** The value of trimmed text: empty is 0, then an optional sign and at
      least one digit. */
  function IntegerLiteral(t: string): JsNumber {
    if t == [] then Num(0)
    else
      var negative := t[0] == '-';
      var body := if t[0] == '-' || t[0] == '+' then t[1..] else t;
      if body != [] && AllDigits(body) then
        var v := DigitsValue(body);
        Num(if negative then -v else v)
      else NaN
  }

  lemma TrimOfDigits(s: string)
    requires |s| >= 1 && AllDigits(s)
    ensures ToNumber(s) == IntegerLiteral(s)
  {
    assert !IsJsSpace(s[0]);
    assert TrimStart(s) == s;
    assert !IsJsSpace(s[|s| - 1]);
  }

  /** Unsigned decimal digits convert to their value. */
  lemma ToNumberOfDigits(s: string)
    requires |s| >= 1 && AllDigits(s)
    ensures ToNumber(s) == Num(DigitsValue(s))
  {
    TrimOfDigits(s);
    assert IsDigit(s[0]);
  }

  /** `Number.MAX_SAFE_INTEGER`: below it a double holds every integer. */
  const MaxSafeInteger: nat := 0x1F_FFFF_FFFF_FFFF

  /** The decimal text of a natural number converts back to it, as long as
      a double holds it exactly. */
  lemma ToNumberOfNat(n: nat)
    requires n <= MaxSafeInteger
    ensures ToNumber(NatToString(n)) == Num(n)
  {
    ToNumberOfDigits(NatToString(n));
    DigitsOfNat(n);
  }

  /** Blank text converts to 0, which is falsy: a blank `page` or `limit`
      falls back to its default exactly like an absent one. */
  lemma {:induction false} ToNumberOfBlank(s: string)
    requires forall i :: 0 <= i < |s| ==> IsJsSpace(s[i])
    ensures TrimStart(s) == [] && ToNumber(s) == Num(0)
  {
    if s != [] {
      ToNumberOfBlank(s[1..]);
    }
  }
}
