/** The query-feature builder of utils/apifeatures.js.

    A builder holds the Mongoose query under construction and the parsed
    query string. The query is modelled as the record of the operations
    applied to it so far; each step of the builder replaces it by the same
    record with one or two more operations, and hands back the builder
    itself so that the steps chain. */
module ApiFeatures {
  import opened Wrappers
  import opened Text

  // ---------------------------------------------------------------------
  // The parsed query string

  /** A value of the parsed query string: a string, or a nested object for
      bracketed keys (`price[gte]=100` gives `price: {gte: "100"}`). */
  datatype QVal = Str(s: string) | Obj(entries: seq<(string, QVal)>)

  /** An object's own keys and values, in insertion order. */
  type Entries = seq<(string, QVal)>

  /** The value under `key`, `None` when the object has no such key. */
  function Lookup(es: Entries, key: string): (r: Option<QVal>)
    ensures r.Some? <==> exists i :: 0 <= i < |es| && es[i].0 == key
    ensures r.Some? ==> (key, r.value) in es
  {
    if es == [] then None
    else if es[0].0 == key then Some(es[0].1)
    else Lookup(es[1..], key)
  }

  /** JavaScript truthiness of a property read: `undefined` and `""` are falsy. */
  predicate Truthy(v: Option<QVal>) {
    match v
    case None => false
    case Some(Str(s)) => s != []
    case Some(Obj(_)) => true
  }

  /** The object without the given keys: what `delete` on each of them leaves. */
  function Without(es: Entries, keys: set<string>): (r: Entries)
    ensures forall i :: 0 <= i < |r| ==> r[i].0 !in keys && r[i] in es
    ensures forall i :: 0 <= i < |es| && es[i].0 !in keys ==> es[i] in r
    ensures |r| <= |es|
  {
    if es == [] then []
    else if es[0].0 in keys then Without(es[1..], keys)
    else [es[0]] + Without(es[1..], keys)
  }

  /** Deleting one key after another deletes them all at once. */
  lemma {:induction false} WithoutWithout(es: Entries, a: set<string>, b: set<string>)
    ensures Without(Without(es, a), b) == Without(es, a + b)
  {
    if es != [] {
      WithoutWithout(es[1..], a, b);
      if es[0].0 !in a {
        assert Without(es, a) == [es[0]] + Without(es[1..], a);
        assert ([es[0]] + Without(es[1..], a))[1..] == Without(es[1..], a);
      }
    }
  }

  lemma {:induction false} WithoutNothing(es: Entries)
    ensures Without(es, {}) == es
  {
    if es != [] {
      WithoutNothing(es[1..]);
    }
  }

  /** `obj[key] = v`: an existing key keeps its place, a new key goes last. */
  function Assign(es: Entries, key: string, v: QVal): (r: Entries)
    ensures Lookup(r, key) == Some(v)
  {
    if es == [] then [(key, v)]
    else if es[0].0 == key then [(key, v)] + es[1..]
    else [es[0]] + Assign(es[1..], key, v)
  }

  /** Assigning a key that is then deleted does not show in what remains. */
  lemma {:induction false} WithoutAssign(es: Entries, key: string, v: QVal, keys: set<string>)
    requires key in keys
    ensures Without(Assign(es, key, v), keys) == Without(es, keys)
  {
    if es != [] {
      var r := Assign(es, key, v);
      if es[0].0 == key {
        assert r[1..] == es[1..];
      } else {
        WithoutAssign(es[1..], key, v, keys);
        assert r[0] == es[0] && r[1..] == Assign(es[1..], key, v);
      }
    }
  }

  /** Assigning one key leaves every other key's value as it was. */
  lemma {:induction false} LookupAssignOther(es: Entries, key: string, v: QVal, other: string)
    requires other != key
    ensures Lookup(Assign(es, key, v), other) == Lookup(es, other)
  {
    if es != [] && es[0].0 != key {
      LookupAssignOther(es[1..], key, v, other);
      var r := Assign(es, key, v);
      assert r[0] == es[0] && r[1..] == Assign(es[1..], key, v);
    }
  }

  // ---------------------------------------------------------------------
  // JSON.stringify of the parsed query string

  function HexDigit(d: nat): char
    requires d < 16
  {
    if d < 10 then DigitChar(d) else ('a' as int + d - 10) as char
  }

  /** How JSON.stringify writes one character inside a string literal. */
  function EscapeChar(c: char): string {
    if c == '"' then "\\\""
    else if c == '\\' then "\\\\"
    else if c as int == 8 then "\\b"
    else if c == '\t' then "\\t"
    else if c == '\n' then "\\n"
    else if c as int == 12 then "\\f"
    else if c == '\r' then "\\r"
    else if c as int < 0x20 then "\\u00" + [HexDigit(c as int / 16), HexDigit(c as int % 16)]
    else [c]
  }

  function Escape(s: string): string {
    if s == [] then [] else EscapeChar(s[0]) + Escape(s[1..])
  }

  function Quote(s: string): string {
    "\"" + Escape(s) + "\""
  }

  /** `JSON.stringify` of a query-string value. */
  function Stringify(v: QVal): string
    decreases v
  {
    match v
    case Str(s) => Quote(s)
    case Obj(es) =>
      "{" + Join(seq(|es|, i requires 0 <= i < |es| => Quote(es[i].0) + ":" + Stringify(es[i].1)), ",") + "}"
  }

  // ---------------------------------------------------------------------
  // The operator rewrite /\b(gte|gt|lte|lt)\b/g  ->  `$${match}`

  /** Whether a word boundary `\b` holds at index `n` of `s`, given that
      `s[n - 1]` is a word character. */
  predicate WordEndsAt(s: string, n: nat)
    requires n <= |s|
  {
    n == |s| || !IsWordChar(s[n])
  }

  /** The length of the operator the alternation `(gte|gt|lte|lt)\b`
      matches at the start of `s`, or 0. Both alternatives of a length share
      their last characters, so the test reads the text once: `g` or `l`,
      then `t`, then either `e` and a boundary, or a boundary. */
  function OperatorAt(s: string): (n: nat)
    ensures n == 0 || n == 2 || n == 3
    ensures n > 0 ==> n <= |s| && WordEndsAt(s, n)
  {
    if |s| >= 2 && (s[0] == 'g' || s[0] == 'l') && s[1] == 't' then
      if |s| >= 3 && s[2] == 'e' && WordEndsAt(s, 3) then 3
      else if WordEndsAt(s, 2) then 2
      else 0
    else 0
  }

  /** The alternatives tried in order, as the regular expression does. */
  function AlternationAt(s: string): nat {
    if |s| >= 3 && s[..3] == "gte" && WordEndsAt(s, 3) then 3
    else if |s| >= 2 && s[..2] == "gt" && WordEndsAt(s, 2) then 2
    else if |s| >= 3 && s[..3] == "lte" && WordEndsAt(s, 3) then 3
    else if |s| >= 2 && s[..2] == "lt" && WordEndsAt(s, 2) then 2
    else 0
  }

  /** The one-pass test agrees with the alternation, and what it matches is
      one of the four operator words. */
  lemma OperatorAtIsAlternation(s: string)
    ensures OperatorAt(s) == AlternationAt(s)
    ensures OperatorAt(s) > 0 ==> s[..OperatorAt(s)] in {"gte", "gt", "lte", "lt"}
  {
    if |s| >= 2 {
      assert s[..2] == [s[0], s[1]];
    }
    if |s| >= 3 {
      assert s[..3] == [s[0], s[1], s[2]];
    }
  }

  /** The global replace, scanning left to right. `afterWord` says whether
      the character before `s` is a word character, so that `\b` holds
      before the next character exactly when it is false. */
  function RewriteOperators(s: string, afterWord: bool): (r: string)
    ensures |r| >= |s|
    decreases |s|
  {
    if s == [] then []
    else if !afterWord && OperatorAt(s) > 0 then
      var n := OperatorAt(s);
      "$" + s[..n] + RewriteOperators(s[n..], true)
    else [s[0]] + RewriteOperators(s[1..], IsWordChar(s[0]))
  }

  /** Removes the `$` that the rewrite inserted, and only those. */
  function StripInserted(t: string, afterWord: bool): string
    decreases |t|
  {
    if t == [] then []
    else if !afterWord && t[0] == '$' && OperatorAt(t[1..]) > 0 then
      var n := OperatorAt(t[1..]);
      t[1..1 + n] + StripInserted(t[1 + n..], true)
    else [t[0]] + StripInserted(t[1..], IsWordChar(t[0]))
  }

  /** After a word character the rewrite copies the next character. */
  lemma RewriteAfterWord(s: string)
    requires s != []
    ensures RewriteOperators(s, true) == [s[0]] + RewriteOperators(s[1..], IsWordChar(s[0]))
  {
  }

  /** What `OperatorAt` looks at, character by character. */
  lemma OperatorAtChars(s: string)
    ensures OperatorAt(s) == 3 <==>
      |s| >= 3 && (s[0] == 'g' || s[0] == 'l') && s[1] == 't' && s[2] == 'e' && (|s| == 3 || !IsWordChar(s[3]))
    ensures OperatorAt(s) == 2 <==>
      |s| >= 2 && (s[0] == 'g' || s[0] == 'l') && s[1] == 't' && (|s| == 2 || !IsWordChar(s[2]))
  {
  }

  /** The rewritten text never starts with an operator word: either the
      operator got its `$`, or the first four characters and the boundary
      are those of the input, which has none. */
  lemma NoOperatorAfterRewrite(x: string)
    ensures OperatorAt(RewriteOperators(x, false)) == 0
  {
    var r := RewriteOperators(x, false);
    OperatorAtChars(x);
    OperatorAtChars(r);
    if x != [] && OperatorAt(x) == 0 && (x[0] == 'g' || x[0] == 'l') && |x| >= 2 {
      var y := x[1..];
      assert r == [x[0]] + RewriteOperators(y, true);
      RewriteAfterWord(y);
      assert r[1] == x[1];
      if x[1] == 't' && |x| >= 3 {
        var z := x[2..];
        assert y[1..] == z;
        RewriteAfterWord(z);
        assert r[2..] == RewriteOperators(z, true);
        assert r[2] == x[2];
        if x[2] == 'e' && |x| >= 4 {
          assert z[1..] == x[3..];
          RewriteAfterWord(x[3..]);
          assert r[3..] == RewriteOperators(x[3..], true);
          assert r[3] == x[3];
        }
      }
    }
  }

  /** When an operator word of length `n` opens `s`, it still opens the
      text that puts the rewrite of the rest behind it. */
  lemma OperatorKeptBeforeRewrite(s: string)
    requires OperatorAt(s) > 0
    ensures var n := OperatorAt(s);
      OperatorAt(s[..n] + RewriteOperators(s[n..], true)) == n
  {
    var n := OperatorAt(s);
    var rest := RewriteOperators(s[n..], true);
    var u := s[..n] + rest;
    assert u[..n] == s[..n];
    if |s| > n {
      RewriteAfterWord(s[n..]);
      assert u[n] == s[n];
      assert u[..2] == s[..2];
    }
  }

  /** The rewrite of text that opens with an operator: `$`, the operator,
      then the rewrite of the rest after a word character. */
  lemma RewriteAtOperator(s: string)
    requires OperatorAt(s) > 0
    ensures var n := OperatorAt(s);
      RewriteOperators(s, false) == "$" + s[..n] + RewriteOperators(s[n..], true)
  {
  }

  /** Otherwise the rewrite copies the first character. */
  lemma RewriteCopiesFirst(s: string, afterWord: bool)
    requires s != [] && (afterWord || OperatorAt(s) == 0)
    ensures RewriteOperators(s, afterWord) == [s[0]] + RewriteOperators(s[1..], IsWordChar(s[0]))
  {
  }

  /** Stripping a `$` that the rewrite put before an operator. */
  lemma StripAtOperator(s: string, rest: string)
    requires OperatorAt(s) > 0
    requires OperatorAt(s[..OperatorAt(s)] + rest) == OperatorAt(s)
    ensures var n := OperatorAt(s);
      StripInserted("$" + s[..n] + rest, false) == s[..n] + StripInserted(rest, true)
  {
    var n := OperatorAt(s);
    var t := "$" + s[..n] + rest;
    assert t[1..] == s[..n] + rest;
    assert t[1..1 + n] == s[..n];
    assert t[1 + n..] == rest;
  }

  /** Stripping a character that the rewrite copied. */
  lemma StripCopied(c: char, rest: string, afterWord: bool)
    requires afterWord || c != '$' || OperatorAt(rest) == 0
    ensures StripInserted([c] + rest, afterWord) == [c] + StripInserted(rest, IsWordChar(c))
  {
    assert ([c] + rest)[1..] == rest;
  }

  /** Removing the inserted `$` gives back the original text. */
  lemma {:induction false} StripRewriteRoundTrip(s: string, afterWord: bool)
    ensures StripInserted(RewriteOperators(s, afterWord), afterWord) == s
    decreases |s|
  {
    if s == [] {
    } else if !afterWord && OperatorAt(s) > 0 {
      var n := OperatorAt(s);
      var rest := RewriteOperators(s[n..], true);
      RewriteAtOperator(s);
      OperatorKeptBeforeRewrite(s);
      StripAtOperator(s, rest);
      StripRewriteRoundTrip(s[n..], true);
      assert s == s[..n] + s[n..];
    } else {
      var rest := RewriteOperators(s[1..], IsWordChar(s[0]));
      RewriteCopiesFirst(s, afterWord);
      if !afterWord && s[0] == '$' {
        NoOperatorAfterRewrite(s[1..]);
      }
      StripCopied(s[0], rest, afterWord);
      StripRewriteRoundTrip(s[1..], IsWordChar(s[0]));
    }
  }

  /** Whether `s` holds a whole-word operator: an operator that starts at
      a word boundary and ends at one. */
  predicate HasOperatorWord(s: string, afterWord: bool) {
    exists i :: 0 <= i < |s| && (if i == 0 then !afterWord else !IsWordChar(s[i - 1]))
      && OperatorAt(s[i..]) > 0
  }

  /** Past a first character that opens no operator, the whole-word
      operators are those of the rest. */
  lemma HasOperatorWordStep(s: string, afterWord: bool)
    requires s != [] && (afterWord || OperatorAt(s) == 0)
    ensures HasOperatorWord(s, afterWord) <==> HasOperatorWord(s[1..], IsWordChar(s[0]))
  {
    var w := IsWordChar(s[0]);
    if HasOperatorWord(s, afterWord) {
      var i :| 0 <= i < |s| && (if i == 0 then !afterWord else !IsWordChar(s[i - 1]))
        && OperatorAt(s[i..]) > 0;
      assert s[1..][i - 1..] == s[i..];
    }
    if HasOperatorWord(s[1..], w) {
      var j :| 0 <= j < |s[1..]| && (if j == 0 then !w else !IsWordChar(s[1..][j - 1]))
        && OperatorAt(s[1..][j..]) > 0;
      assert s[1..][j..] == s[j + 1..];
    }
  }

  /** The rewrite changes the text exactly when it holds a whole-word
      operator; `gtex`, `ltd` or `agt` are left as they are. */
  lemma {:induction false} RewriteChangesIff(s: string, afterWord: bool)
    ensures RewriteOperators(s, afterWord) == s <==> !HasOperatorWord(s, afterWord)
    decreases |s|
  {
    if s == [] {
    } else if !afterWord && OperatorAt(s) > 0 {
      RewriteAtOperator(s);
      assert s[0..] == s;
    } else {
      RewriteChangesIff(s[1..], IsWordChar(s[0]));
      RewriteCopiesFirst(s, afterWord);
      HasOperatorWordStep(s, afterWord);
      assert s == [s[0]] + s[1..];
    }
  }

  /** Whether `\b` holds before position `i` of `s`. */
  predicate BoundaryBefore(s: string, afterWord: bool, i: nat)
    requires i <= |s|
  {
    if i == 0 then !afterWord else !IsWordChar(s[i - 1])
  }

  /** The positions where a whole-word operator starts: the matches of
      the global regular expression. */
  function OperatorStarts(s: string, afterWord: bool): set<nat> {
    set i: nat | i < |s| && BoundaryBefore(s, afterWord, i) && OperatorAt(s[i..]) > 0
  }

  function Shift(a: set<nat>, k: nat): set<nat> {
    set i | i in a :: i + k
  }

  lemma {:induction false} ShiftCard(a: set<nat>, k: nat)
    ensures |Shift(a, k)| == |a|
    decreases |a|
  {
    if a != {} {
      var x :| x in a;
      var rest := a - {x};
      ShiftCard(rest, k);
      forall y | y in Shift(a, k) ensures y in Shift(rest, k) + {x + k} {
        var i :| i in a && y == i + k;
        if i != x {
          assert i in rest;
        }
      }
      assert Shift(a, k) == Shift(rest, k) + {x + k};
      assert x + k !in Shift(rest, k);
    }
  }

  /** Past a first character that opens no match, the matches are those
      of the rest, one position further on. */
  lemma StartsAfterCopied(s: string, afterWord: bool)
    requires s != [] && (afterWord || OperatorAt(s) == 0)
    ensures OperatorStarts(s, afterWord) == Shift(OperatorStarts(s[1..], IsWordChar(s[0])), 1)
  {
    var rest := s[1..];
    var w := IsWordChar(s[0]);
    forall i: nat | i in OperatorStarts(s, afterWord)
      ensures i in Shift(OperatorStarts(rest, w), 1)
    {
      assert i >= 1;
      assert rest[i - 1..] == s[i..];
      assert i - 1 in OperatorStarts(rest, w);
    }
    forall j: nat | j in OperatorStarts(rest, w)
      ensures j + 1 in OperatorStarts(s, afterWord)
    {
      assert rest[j..] == s[j + 1..];
    }
  }

  /** A match at the start is followed by the matches of the text after
      the operator word, none of them inside the word. */
  lemma StartsAtOperator(s: string)
    requires OperatorAt(s) > 0
    ensures var n := OperatorAt(s);
      OperatorStarts(s, false) == {0} + Shift(OperatorStarts(s[n..], true), n)
      && 0 !in Shift(OperatorStarts(s[n..], true), n)
  {
    var n := OperatorAt(s);
    var rest := s[n..];
    OperatorAtChars(s);
    forall i: nat | i in OperatorStarts(s, false) && i != 0
      ensures i in Shift(OperatorStarts(rest, true), n)
    {
      assert IsWordChar(s[0]) && IsWordChar(s[1]) && (n == 3 ==> IsWordChar(s[2]));
      assert i > n;
      assert rest[i - n..] == s[i..];
      assert rest[i - n - 1] == s[i - 1];
      assert i - n in OperatorStarts(rest, true);
    }
    forall j: nat | j in OperatorStarts(rest, true)
      ensures j + n in OperatorStarts(s, false)
    {
      assert j > 0;
      assert rest[j..] == s[j + n..];
      assert rest[j - 1] == s[j + n - 1];
    }
    assert s[0..] == s;
  }

  /** The rewrite inserts one character for each whole-word operator.
      With the round trip, which shows that only `$` before an operator
      is inserted, every match of the regular expression gets its `$`. */
  lemma {:induction false} RewriteInsertsOnePerOperator(s: string, afterWord: bool)
    ensures |RewriteOperators(s, afterWord)| == |s| + |OperatorStarts(s, afterWord)|
    decreases |s|
  {
    if s == [] {
      assert OperatorStarts(s, afterWord) == {};
    } else if !afterWord && OperatorAt(s) > 0 {
      var n := OperatorAt(s);
      RewriteAtOperator(s);
      StartsAtOperator(s);
      RewriteInsertsOnePerOperator(s[n..], true);
      ShiftCard(OperatorStarts(s[n..], true), n);
    } else {
      RewriteCopiesFirst(s, afterWord);
      StartsAfterCopied(s, afterWord);
      RewriteInsertsOnePerOperator(s[1..], IsWordChar(s[0]));
      ShiftCard(OperatorStarts(s[1..], IsWordChar(s[0])), 1);
    }
  }

  /** Two operators in a row both get their `$`. */
  lemma BothOperatorsRewritten(s: string)
    requires s == "gt gt"
    ensures RewriteOperators(s, false) == "$gt $gt"
  {
    var rest := s[2..];
    assert OperatorAt(s) == 2;
    RewriteAtOperator(s);
    assert rest == " gt";
    RewriteAfterWord(rest);
    assert rest[1..] == "gt" && OperatorAt(rest[1..]) == 2;
    RewriteAtOperator(rest[1..]);
    assert rest[1..][2..] == [];
  }

  // ---------------------------------------------------------------------
  // The builder's steps as functions of the query string

  /** The keys `filter` deletes, in the order it deletes them. */
  const ExcludedFields: seq<string> := ["limit", "page", "sort", "fields"]

  /** The first `n` excluded fields. */
  function FirstExcluded(n: nat): set<string>
    requires n <= |ExcludedFields|
  {
    set j | 0 <= j < n :: ExcludedFields[j]
  }

  lemma FirstExcludedStep(n: nat)
    requires n < |ExcludedFields|
    ensures FirstExcluded(n) + {ExcludedFields[n]} == FirstExcluded(n + 1)
  {
  }

  lemma FirstExcludedNone()
    ensures FirstExcluded(0) == {}
  {
  }

  /** All four reserved keys. */
  function Reserved(): set<string> {
    FirstExcluded(|ExcludedFields|)
  }

  lemma ReservedKeys()
    ensures Reserved() == {"limit", "page", "sort", "fields"}
  {
    assert ExcludedFields[0] == "limit" && ExcludedFields[1] == "page";
    assert ExcludedFields[2] == "sort" && ExcludedFields[3] == "fields";
  }

  const DefaultSort := "-createdAt"
  const DefaultFieldsSort := "-__v"
  const DefaultPage := 1
  const DefaultLimit := 100

  /** The filter `find` receives, as JSON text before JSON.parse. */
  function FilterJson(q: Entries): string {
    RewriteOperators(Stringify(Obj(Without(q, Reserved()))), false)
  }

  lemma FilterJsonOf(q: Entries, copy: Entries)
    requires copy == Without(q, Reserved())
    ensures RewriteOperators(Stringify(Obj(copy)), false) == FilterJson(q)
  {
  }

  /** The TypeError of calling `split` on a value that is not a string. */
  function SplitTypeError(key: string): string {
    "TypeError: this.queryObj." + key + ".split is not a function"
  }

  /** `value.split(',').join(' ')`. */
  function CommaListToSpaces(s: string): string {
    Join(Split(s, ','), " ")
  }

  /** The operation `sort()` adds, or the error it throws. */
  function SortOp(q: Entries): Result<Op, string> {
    var v := Lookup(q, "sort");
    if !Truthy(v) then Success(SortBy(DefaultSort))
    else match v.value
      case Str(s) => Success(SortBy(CommaListToSpaces(s)))
      case Obj(_) => Failure(SplitTypeError("sort"))
  }

  /** The operation `limitField()` adds, or the error it throws. */
  function FieldsOp(q: Entries): Result<Op, string> {
    var v := Lookup(q, "fields");
    if !Truthy(v) then Success(SortBy(DefaultFieldsSort))
    else match v.value
      case Str(s) => Success(Select(CommaListToSpaces(s)))
      case Obj(_) => Failure(SplitTypeError("fields"))
  }

  /** `+value || default`: the number the value converts to, unless it is
      absent, 0 or NaN. */
  function NumberOr(v: Option<QVal>, default: int): int {
    match v
    case Some(Str(s)) =>
      (match ToNumber(s)
       case Num(n) => if n != 0 then n else default
       case NaN => default)
    case _ => default
  }

  function PageOf(q: Entries): int { NumberOr(Lookup(q, "page"), DefaultPage) }

  function LimitOf(q: Entries): int { NumberOr(Lookup(q, "limit"), DefaultLimit) }

  function SkipOf(q: Entries): int { (PageOf(q) - 1) * LimitOf(q) }

  // ---------------------------------------------------------------------
  // The Mongoose query as the record of the operations applied to it

  datatype Op =
    | Find(filter: string)
    | SortBy(spec: string)
    | Select(projection: string)
    | Skip(count: int)
    | Limit(count: int)

  datatype Query = Query(ops: seq<Op>) {
    function Then(op: Op): Query {
      Query(ops + [op])
    }
  }

  /** The builder, `class APIFeatures`. */
  class Features {
    var query: Query
    var queryObj: Entries

    constructor (query: Query, queryObj: Entries)
      ensures this.query == query && this.queryObj == queryObj
    {
      this.query := query;
      this.queryObj := queryObj;
    }

    /** `filter()`: deletes the reserved keys from a copy of the query
        string, writes the copy as JSON, prefixes the comparison operators
        with `$` and adds the result as a `find`. */
    method Filter() returns (self: Features)
      modifies this
      ensures self == this && queryObj == old(queryObj)
      ensures query == old(query).Then(Find(FilterJson(queryObj)))
    {
      var copy := queryObj;
      WithoutNothing(queryObj);
      FirstExcludedNone();
      var i := 0;
      while i < |ExcludedFields|
        invariant 0 <= i <= |ExcludedFields|
        invariant copy == Without(queryObj, FirstExcluded(i))
        invariant unchanged(this)
      {
        WithoutWithout(queryObj, FirstExcluded(i), {ExcludedFields[i]});
        FirstExcludedStep(i);
        copy := Without(copy, {ExcludedFields[i]});
        i := i + 1;
      }
      var queryStr := Stringify(Obj(copy));
      queryStr := RewriteOperators(queryStr, false);
      FilterJsonOf(queryObj, copy);
      query := query.Then(Find(queryStr));
      self := this;
    }

    /** `sort()`: the comma list with commas turned into spaces, or the
        default `-createdAt`; a non-string `sort` makes `split` throw. */
    method Sort() returns (r: Result<Features, string>)
      modifies this
      ensures queryObj == old(queryObj)
      ensures SortOp(queryObj).Success? ==>
        r == Success(this) && query == old(query).Then(SortOp(queryObj).value)
      ensures SortOp(queryObj).Failure? ==>
        r == Failure(SortOp(queryObj).error) && query == old(query)
    {
      var v := Lookup(queryObj, "sort");
      if Truthy(v) {
        match v.value
        case Str(s) =>
          var sortBy := Join(Split(s, ','), " ");
          query := query.Then(SortBy(sortBy));
          r := Success(this);
        case Obj(_) =>
          r := Failure(SplitTypeError("sort"));
      } else {
        query := query.Then(SortBy(DefaultSort));
        r := Success(this);
      }
    }

    /** `limitField()`: a projection from the comma list, or else a sort
        on `-__v`; a non-string `fields` makes `split` throw. */
    method LimitField() returns (r: Result<Features, string>)
      modifies this
      ensures queryObj == old(queryObj)
      ensures FieldsOp(queryObj).Success? ==>
        r == Success(this) && query == old(query).Then(FieldsOp(queryObj).value)
      ensures FieldsOp(queryObj).Failure? ==>
        r == Failure(FieldsOp(queryObj).error) && query == old(query)
    {
      var v := Lookup(queryObj, "fields");
      if Truthy(v) {
        match v.value
        case Str(s) =>
          var fields := Join(Split(s, ','), " ");
          query := query.Then(Select(fields));
          r := Success(this);
        case Obj(_) =>
          r := Failure(SplitTypeError("fields"));
      } else {
        query := query.Then(SortBy(DefaultFieldsSort));
        r := Success(this);
      }
    }

    /** `pagination()`: `skip((page - 1) * limit).limit(limit)`. */
    method Pagination() returns (self: Features)
      modifies this
      ensures self == this && queryObj == old(queryObj)
      ensures query == old(query).Then(Skip(SkipOf(queryObj))).Then(Limit(LimitOf(queryObj)))
    {
      var page := NumberOr(Lookup(queryObj, "page"), DefaultPage);
      var limit := NumberOr(Lookup(queryObj, "limit"), DefaultLimit);
      var skip := (page - 1) * limit;
      query := query.Then(Skip(skip)).Then(Limit(limit));
      self := this;
    }
  }

  /** The chain `new APIFeatures(query, req.query).filter().sort()
      .limitField().pagination()` run by the generic list handler. Since
      no step touches the query string, each step sees the reserved keys
      that `filter` left out of the filter. */
  method ChainedQuery(initial: Query, q: Entries) returns (r: Result<Query, string>)
    ensures SortOp(q).Failure? ==> r == Failure(SortOp(q).error)
    ensures SortOp(q).Success? && FieldsOp(q).Failure? ==> r == Failure(FieldsOp(q).error)
    ensures SortOp(q).Success? && FieldsOp(q).Success? ==>
      r == Success(initial.Then(Find(FilterJson(q))).Then(SortOp(q).value).Then(FieldsOp(q).value)
                     .Then(Skip(SkipOf(q))).Then(Limit(LimitOf(q))))
  {
    var f := new Features(initial, q);
    f := f.Filter();
    var sorted := f.Sort();
    if sorted.Failure? {
      return Failure(sorted.error);
    }
    var limited := f.LimitField();
    if limited.Failure? {
      return Failure(limited.error);
    }
    f := f.Pagination();
    r := Success(f.query);
  }

  // ---------------------------------------------------------------------
  // Properties

  /** `filter` hands `find` exactly the entries whose key is not reserved,
      and the `$` it inserts are the only changes to their JSON text. */
  lemma FilterKeepsExactlyUnreserved(q: Entries)
    ensures Reserved() == {"limit", "page", "sort", "fields"}
    ensures StripInserted(FilterJson(q), false) == Stringify(Obj(Without(q, Reserved())))
  {
    ReservedKeys();
    StripRewriteRoundTrip(Stringify(Obj(Without(q, Reserved()))), false);
  }

  /** A present, non-empty `sort` becomes the same text with every comma
      turned into a space; otherwise the sort is `-createdAt`. */
  lemma SortSpaces(q: Entries)
    ensures Lookup(q, "sort").Some? && Lookup(q, "sort").value.Str? && Lookup(q, "sort").value.s != [] ==>
      SortOp(q) == Success(SortBy(ReplaceChar(Lookup(q, "sort").value.s, ',', ' ')))
    ensures !Truthy(Lookup(q, "sort")) ==> SortOp(q) == Success(SortBy("-createdAt"))
  {
    var v := Lookup(q, "sort");
    if v.Some? && v.value.Str? {
      SplitJoinReplaces(v.value.s, ',', ' ');
    }
  }

  /** A present `fields` becomes a projection with commas turned into
      spaces; without it nothing is projected and `-__v` is sorted on. */
  lemma FieldsSpaces(q: Entries)
    ensures Lookup(q, "fields").Some? && Lookup(q, "fields").value.Str? && Lookup(q, "fields").value.s != [] ==>
      FieldsOp(q) == Success(Select(ReplaceChar(Lookup(q, "fields").value.s, ',', ' ')))
    ensures !Truthy(Lookup(q, "fields")) ==> FieldsOp(q) == Success(SortBy("-__v"))
  {
    var v := Lookup(q, "fields");
    if v.Some? && v.value.Str? {
      SplitJoinReplaces(v.value.s, ',', ' ');
    }
  }

  /** Any positive page and limit written in decimal are taken as given:
      there is no upper bound on `limit` short of the doubles' exact
      range, and the skip is a whole number of pages. */
  lemma PaginationTakesPositiveNumbers(q: Entries, page: nat, limit: nat)
    requires page >= 1 && limit >= 1
    requires page <= MaxSafeInteger && limit <= MaxSafeInteger && (page - 1) * limit <= MaxSafeInteger
    requires Lookup(q, "page") == Some(Str(NatToString(page)))
    requires Lookup(q, "limit") == Some(Str(NatToString(limit)))
    ensures PageOf(q) == page && LimitOf(q) == limit
    ensures SkipOf(q) == (page - 1) * limit && SkipOf(q) >= 0
  {
    ToNumberOfNat(page);
    ToNumberOfNat(limit);
    NonNegativeProduct(page - 1, limit);
  }

  lemma NonNegativeProduct(k: nat, m: nat)
    ensures k * m >= 0
  {
  }

  /** A value `+value || 1` falls back on for the page: an absent key, an
      object (from bracketed keys), blank text, which converts to 0, the
      text `0`, and text that converts to NaN. Page 1 skips nothing,
      whatever the limit. */
  lemma PageDefaults(q: Entries, zero: string)
    requires zero == "0"
    requires var v := Lookup(q, "page");
      || v.None?
      || v.value.Obj?
      || (forall i :: 0 <= i < |v.value.s| ==> IsJsSpace(v.value.s[i]))
      || v.value.s == zero
      || ToNumber(v.value.s).NaN?
    ensures PageOf(q) == DefaultPage && SkipOf(q) == 0
  {
    var v := Lookup(q, "page");
    if v.Some? && v.value.Str? {
      if forall i :: 0 <= i < |v.value.s| ==> IsJsSpace(v.value.s[i]) {
        ToNumberOfBlank(v.value.s);
      } else if v.value.s == zero {
        ZeroToNumber(zero);
      }
    }
  }

  /** The same values give the limit its default of 100. */
  lemma LimitDefaults(q: Entries, zero: string)
    requires zero == "0"
    requires var v := Lookup(q, "limit");
      || v.None?
      || v.value.Obj?
      || (forall i :: 0 <= i < |v.value.s| ==> IsJsSpace(v.value.s[i]))
      || v.value.s == zero
      || ToNumber(v.value.s).NaN?
    ensures LimitOf(q) == DefaultLimit && SkipOf(q) == (PageOf(q) - 1) * 100
  {
    var v := Lookup(q, "limit");
    if v.Some? && v.value.Str? {
      if forall i :: 0 <= i < |v.value.s| ==> IsJsSpace(v.value.s[i]) {
        ToNumberOfBlank(v.value.s);
      } else if v.value.s == zero {
        ZeroToNumber(zero);
      }
    }
  }

  lemma ZeroToNumber(p: string)
    requires p == "0"
    ensures ToNumber(p) == Num(0)
  {
    ToNumberOfNat(0);
    assert NatToString(0) == p;
  }

  /** Page 2 with limit 10 skips exactly 10 documents and takes 10. */
  lemma PageTwoOfTen(q: Entries)
    requires Lookup(q, "page") == Some(Str("2"))
    requires Lookup(q, "limit") == Some(Str("10"))
    ensures SkipOf(q) == 10 && LimitOf(q) == 10
  {
    assert NatToString(2) == "2";
    assert NatToString(10) == "10";
    PaginationTakesPositiveNumbers(q, 2, 10);
  }

  const TopToursLimit := "5"
  const TopToursSort := "-ratingsAverage,-price"

  /** `getAliasTopTours` (controllers/tourContoller.js): sets `limit` and
      `sort` on the query string before the list handler runs. */
  function AliasTopTours(q: Entries): Entries {
    Assign(Assign(q, "limit", Str(TopToursLimit)), "sort", Str(TopToursSort))
  }

  /** The alias sorts by rating, then price, both descending. */
  lemma TopToursSortsByRatingThenPrice(q: Entries)
    ensures SortOp(AliasTopTours(q)) == Success(SortBy("-ratingsAverage -price"))
  {
    var v := Lookup(AliasTopTours(q), "sort");
    assert v == Some(Str(TopToursSort));
    TopToursSortSpaces(TopToursSort);
  }

  /** A two-item comma list becomes the two items separated by a space. */
  lemma TwoItemList(a: string, b: string)
    requires ',' !in a && ',' !in b
    ensures CommaListToSpaces(a + [','] + b) == a + " " + b
  {
    SplitPieces(a, ',', b);
    SplitPieces(b, ',', []);
    JoinCons(a, [b], " ");
  }

  lemma TopToursSortSpaces(p: string)
    requires p == "-ratingsAverage,-price"
    ensures CommaListToSpaces(p) == "-ratingsAverage -price"
  {
    var a, b := "-ratingsAverage", "-price";
    assert p == a + [','] + b;
    TwoItemList(a, b);
  }

  /** The alias asks for five tours, from the first page on unless the
      client named a page. */
  lemma TopToursTakesFive(q: Entries)
    ensures LimitOf(AliasTopTours(q)) == 5
    ensures PageOf(AliasTopTours(q)) == PageOf(q)
  {
    var l := Assign(q, "limit", Str(TopToursLimit));
    LookupAssignOther(l, "sort", Str(TopToursSort), "limit");
    LookupAssignOther(l, "sort", Str(TopToursSort), "page");
    LookupAssignOther(q, "limit", Str(TopToursLimit), "page");
    assert Lookup(AliasTopTours(q), "limit") == Some(Str(TopToursLimit));
    FiveToNumber(TopToursLimit);
  }

  lemma FiveToNumber(p: string)
    requires p == "5"
    ensures ToNumber(p) == Num(5)
  {
    ToNumberOfNat(5);
    assert NatToString(5) == p;
  }

  /** The alias leaves the filter and the projection as the client sent them. */
  lemma TopToursFilter(q: Entries)
    ensures FilterJson(AliasTopTours(q)) == FilterJson(q)
    ensures FieldsOp(AliasTopTours(q)) == FieldsOp(q)
  {
    var l := Assign(q, "limit", Str(TopToursLimit));
    ReservedKeys();
    WithoutAssign(l, "sort", Str(TopToursSort), Reserved());
    WithoutAssign(q, "limit", Str(TopToursLimit), Reserved());
    LookupAssignOther(l, "sort", Str(TopToursSort), "fields");
    LookupAssignOther(q, "limit", Str(TopToursLimit), "fields");
  }
}
