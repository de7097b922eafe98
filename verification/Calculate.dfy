/**
 The arithmetic evaluator of the `calculate` tool (apps/playground/backend/src/tools/calculate.ts).

 `Evaluator` is the recursive descent over a shared position. It is proved against the grammar
 itself: derivation trees with a yield (the tokens they spell) and a value. Numbers are `real`.
 A thrown error is `None`.
 */
module Calculate {
  import opened Common

  // ---- Numbers ----------------------------------------------------------------------------

  function DigitsValue(s: string): nat
    requires AllDigits(s)
  {
    if s == "" then 0 else 10 * DigitsValue(s[..|s| - 1]) + (s[|s| - 1] as int - '0' as int)
  }

  function Pow10(n: nat): (p: nat)
    ensures p > 0
  {
    if n == 0 then 1 else 10 * Pow10(n - 1)
  }

  function DotIndex(s: string): (k: nat)
    ensures k <= |s|
  {
    if s == "" || s[0] == '.' then 0 else 1 + DotIndex(s[1..])
  }

  /** `Number(token)`; `None` stands for NaN. */
  function NumberOf(token: string): Option<real> {
    var k := DotIndex(token);
    var whole := token[..k];
    var fraction := if k < |token| then token[k + 1..] else "";
    if AllDigits(whole) && AllDigits(fraction) && |whole| + |fraction| > 0 then
      Some(DigitsValue(whole) as real + DigitsValue(fraction) as real / Pow10(|fraction|) as real)
    else
      None
  }

  // ---- What a numeral is worth --------------------------------------------------------------

  lemma {:induction false} DigitsLast(s: string, c: char)
    requires AllDigits(s) && IsDigit(c)
    ensures AllDigits(s + [c]) && DigitsValue(s + [c]) == 10 * DigitsValue(s) + (c as int - '0' as int)
  {
    assert (s + [c])[..|s|] == s;
  }

  lemma {:induction false} DigitsFirst(c: char, s: string)
    requires IsDigit(c) && AllDigits(s)
    ensures AllDigits([c] + s) && DigitsValue([c] + s) == (c as int - '0' as int) * Pow10(|s|) + DigitsValue(s)
  {
    if s == "" {
      assert [c] + s == "" + [c];
      DigitsLast("", c);
    } else {
      var n := |s| - 1;
      DigitsFirst(c, s[..n]);
      DigitsLast([c] + s[..n], s[n]);
      DigitsLast(s[..n], s[n]);
      assert [c] + s == [c] + s[..n] + [s[n]] && s == s[..n] + [s[n]];
      TenTimes(c as int - '0' as int, Pow10(n));
    }
  }

  lemma {:induction false} TenTimes(a: int, p: int)
    ensures 10 * (a * p) == a * (10 * p)
  {
  }

  lemma {:induction false} NoDot(s: string)
    requires AllDigits(s)
    ensures DotIndex(s) == |s|
    decreases |s|
  {
    if s != "" { NoDot(s[1..]); }
  }

  lemma {:induction false} FirstDot(w: string, f: string)
    requires AllDigits(w)
    ensures DotIndex(w + "." + f) == |w|
    decreases |w|
  {
    if w != "" {
      FirstDot(w[1..], f);
      assert (w + "." + f)[1..] == w[1..] + "." + f;
    }
  }

  lemma {:induction false} Numeral(w: string, f: string)
    requires AllDigits(w) && AllDigits(f) && w + f != ""
    ensures NumberOf(w + "." + f) == Some(DigitsValue(w) as real + DigitsValue(f) as real / Pow10(|f|) as real)
    ensures w != "" ==> NumberOf(w) == Some(DigitsValue(w) as real)
  {
    FirstDot(w, f);
    var t := w + "." + f;
    assert t[..|w|] == w && t[|w| + 1..] == f;
    if w != "" {
      NoDot(w);
      assert w[..|w|] == w;
    }
  }

  /** The decimal spelling of a natural number is worth that number. */
  lemma {:induction false} DecimalIsWorthItself(n: nat)
    ensures NumberOf(Decimal(n)) == Some(n as real)
  {
    DecimalDigits(n);
    Numeral(Decimal(n), "");
  }

  lemma {:induction false} DecimalDigits(n: nat)
    ensures DigitsValue(Decimal(n)) == n
  {
    var c := (n % 10) as char + '0';
    if n < 10 {
      assert Decimal(n) == "" + [c];
      DigitsLast("", c);
    } else {
      DecimalDigits(n / 10);
      DigitsLast(Decimal(n / 10), c);
    }
  }

  /** Moving the point one digit to the right multiplies by ten. */
  lemma {:induction false} PointMoves(w: string, c: char, f: string)
    requires AllDigits(w) && IsDigit(c) && AllDigits(f)
    ensures var short, long := NumberOf(w + "." + ([c] + f)), NumberOf(w + [c] + "." + f);
            short.Some? && long.Some? && long.value == 10.0 * short.value
  {
    hide *;
    DigitsFirst(c, f);
    DigitsLast(w, c);
    Numeral(w, [c] + f);
    Numeral(w + [c], f);
    PowMore(|f|);
    Fractions(c as int - '0' as int, Pow10(|f|), DigitsValue(f), DigitsValue(w));
  }

  lemma {:induction false} PowMore(n: nat)
    ensures Pow10(n + 1) == 10 * Pow10(n)
  {
  }

  lemma {:induction false} Fractions(d: int, p: int, v: int, w: int)
    requires p > 0
    ensures 10.0 * (w as real + (d * p + v) as real / (10 * p) as real) == (10 * w + d) as real + v as real / p as real
  {
    var x := (d * p + v) as real / (10 * p) as real;
    assert x * (10 * p) as real == (d * p + v) as real;
    assert (d * p) as real == d as real * p as real;
    var y := v as real / p as real;
    assert y * p as real == v as real;
    assert (10.0 * x - d as real - y) * p as real == 0.0;
  }

  /** A point at the end and a zero in front change nothing. */
  lemma {:induction false} PaddingIsWorthNothing(w: string, f: string)
    requires AllDigits(w) && AllDigits(f) && w + f != ""
    ensures w != "" ==> NumberOf(w + ".") == NumberOf(w)
    ensures NumberOf("0" + w + "." + f) == NumberOf(w + "." + f)
  {
    hide *;
    Numeral(w, f);
    DigitsFirst('0', w);
    assert "0" == ['0'];
    Numeral("0" + w, f);
    if w != "" {
      Numeral(w, "");
      assert w + "." + "" == w + ".";
      NoFraction(DigitsValue(w));
    }
  }

  lemma {:induction false} NoFraction(w: nat)
    ensures w as real + DigitsValue("") as real / Pow10(|""|) as real == w as real
  {
  }

  /** What is a number at all: digits with at most one point among them. */
  lemma {:induction false} NumeralForm(token: string)
    ensures NumberOf(token).Some? <==>
      (exists w, f :: AllDigits(w) && AllDigits(f) && w + f != "" && (token == w + "." + f || (token == w && f == "")))
  {
    hide *;
    if NumberOf(token).Some? { var _, _ := NumeralParts(token); }
    if w, f :| AllDigits(w) && AllDigits(f) && w + f != "" && (token == w + "." + f || (token == w && f == "")) {
      assert w + "" == w;
      Numeral(w, f);
    }
  }

  lemma {:induction false} NumeralParts(token: string) returns (w: string, f: string)
    requires NumberOf(token).Some?
    ensures AllDigits(w) && AllDigits(f) && w + f != "" && (token == w + "." + f || (token == w && f == ""))
  {
    var k := DotIndex(token);
    DotIndexIsDot(token);
    w, f := token[..k], if k < |token| then token[k + 1..] else "";
    if k < |token| { assert token == w + [token[k]] + f; } else { assert token == w; }
  }

  lemma {:induction false} DotIndexIsDot(s: string)
    ensures DotIndex(s) < |s| ==> s[DotIndex(s)] == '.'
    decreases |s|
  {
    if s != "" && s[0] != '.' { DotIndexIsDot(s[1..]); }
  }

  // ---- Operators ----------------------------------------------------------------------------

  /** The truncating remainder of `%` in JavaScript: the result has the sign of the dividend. */
  function Remainder(a: real, b: real): real
    requires b != 0.0
  {
    var q := a / b;
    var truncated := if q >= 0.0 then q.Floor else -((-q).Floor);
    a - b * truncated as real
  }

  /** The remainder is smaller than the divisor, has the sign of the dividend, and leaves a multiple of the divisor. */
  lemma {:induction false} RemainderIs(a: real, b: real)
    requires b != 0.0
    ensures var r := Remainder(a, b);
            && (if r < 0.0 then -r else r) < (if b < 0.0 then -b else b)
            && (r == 0.0 || (r > 0.0 && a > 0.0) || (r < 0.0 && a < 0.0))
            && ((a - r) / b).Floor as real == (a - r) / b
  {
    hide *;
    var q, d := RemainderParts(a, b);
    Scaled(b, d, q, Remainder(a, b), a);
  }

  lemma {:induction false} RemainderParts(a: real, b: real) returns (q: real, d: real)
    requires b != 0.0
    ensures var r := Remainder(a, b);
            && a == b * q && r == b * d && ((a - r) / b).Floor as real == (a - r) / b
            && -1.0 < d < 1.0 && (d == 0.0 || (d > 0.0 && q > 0.0) || (d < 0.0 && q < 0.0))
  {
    q := a / b;
    var k := if q >= 0.0 then q.Floor else -((-q).Floor);
    d := q - k as real;
    var r := Remainder(a, b);
    assert r == a - b * k as real;
    hide Remainder;
    assert a == b * q;
    assert b * d == b * q - b * k as real;
    assert (a - r) / b == k as real by { Quotient(b, k as real); }
  }

  lemma {:induction false} Quotient(b: real, x: real)
    requires b != 0.0
    ensures b * x / b == x
  {
  }

  lemma {:induction false} Scaled(b: real, d: real, q: real, r: real, a: real)
    requires b != 0.0 && r == b * d && a == b * q
    requires -1.0 < d < 1.0 && (d == 0.0 || (d > 0.0 && q > 0.0) || (d < 0.0 && q < 0.0))
    ensures (if r < 0.0 then -r else r) < (if b < 0.0 then -b else b)
    ensures r == 0.0 || (r > 0.0 && a > 0.0) || (r < 0.0 && a < 0.0)
  {
    if b > 0.0 {
      Shrinks(b, d, r);
      SameSign(b, q, a);
    } else {
      Negation(b, d);
      Negation(b, q);
      Shrinks(-b, d, -r);
      SameSign(-b, q, -a);
    }
  }

  lemma {:induction false} Negation(b: real, x: real)
    ensures -b * x == -(b * x)
  {
  }

  lemma {:induction false} Shrinks(b: real, d: real, r: real)
    requires b > 0.0 && -1.0 < d < 1.0 && r == b * d
    ensures -b < r < b && (r > 0.0 <==> d > 0.0) && (r < 0.0 <==> d < 0.0)
  {
    SameSign(b, d, r);
    SameSign(b, 1.0 - d, b - r);
    SameSign(b, 1.0 + d, b + r);
  }

  lemma {:induction false} SameSign(b: real, x: real, y: real)
    requires b > 0.0 && y == b * x
    ensures (y > 0.0 <==> x > 0.0) && (y < 0.0 <==> x < 0.0)
  {
  }

  predicate IsAddOp(t: string) { t == "+" || t == "-" }

  predicate IsMulOp(t: string) { t == "*" || t == "/" || t == "%" }

  function Apply(op: string, a: real, b: real): (r: Option<real>)
    ensures op == "+" ==> r.Some? && r.value - b == a
    ensures op == "-" ==> r.Some? && r.value + b == a
    ensures op == "*" ==> r == Some(b * a)
    ensures op == "/" && b != 0.0 ==> r.Some? && r.value * b == a
    ensures op == "%" && b != 0.0 ==> r == Some(Remainder(a, b))
    ensures op in ["/", "%"] ==> (r.None? <==> b == 0.0)
  {
    if op == "+" then Some(a + b)
    else if op == "-" then Some(a - b)
    else if op == "*" then Some(a * b)
    else if b == 0.0 then None
    else if op == "/" then Some(a / b)
    else Some(Remainder(a, b))
  }

  function ApplyDefined(op: string, a: Option<real>, b: Option<real>): (r: Option<real>)
    ensures a.Some? && b.Some? ==> r == Apply(op, a.value, b.value)
    ensures r.Some? ==> a.Some? && b.Some?
  {
    if a.Some? && b.Some? then Apply(op, a.value, b.value) else None
  }

  function Negated(a: Option<real>): (r: Option<real>)
    ensures r.Some? <==> a.Some?
    ensures r.Some? ==> r.value + a.value == 0.0
  {
    if a.Some? then Some(-a.value) else None
  }

  // ---- The grammar: derivation trees, what they spell and what they are worth ---------------

  datatype Sum = OneTerm(term: Term) | SumOp(left: Sum, op: string, right: Term)

  datatype Term = OneFactor(factor: Factor) | TermOp(left: Term, op: string, right: Factor)

  datatype Factor = Negate(factor: Factor) | Number(lexeme: string) | Paren(sum: Sum)

  predicate ValidSum(s: Sum) {
    match s
    case OneTerm(t) => ValidTerm(t)
    case SumOp(l, op, r) => ValidSum(l) && IsAddOp(op) && ValidTerm(r)
  }

  predicate ValidTerm(t: Term) {
    match t
    case OneFactor(f) => ValidFactor(f)
    case TermOp(l, op, r) => ValidTerm(l) && IsMulOp(op) && ValidFactor(r)
  }

  predicate ValidFactor(f: Factor) {
    match f
    case Negate(g) => ValidFactor(g)
    case Number(lexeme) => NumberOf(lexeme).Some?
    case Paren(s) => ValidSum(s)
  }

  function YieldSum(s: Sum): seq<string> {
    match s
    case OneTerm(t) => YieldTerm(t)
    case SumOp(l, op, r) => YieldSum(l) + ([op] + YieldTerm(r))
  }

  function YieldTerm(t: Term): seq<string> {
    match t
    case OneFactor(f) => YieldFactor(f)
    case TermOp(l, op, r) => YieldTerm(l) + ([op] + YieldFactor(r))
  }

  function YieldFactor(f: Factor): seq<string> {
    match f
    case Negate(g) => ["-"] + YieldFactor(g)
    case Number(lexeme) => [lexeme]
    case Paren(s) => ["("] + (YieldSum(s) + [")"])
  }

  function SumValue(s: Sum): Option<real> {
    match s
    case OneTerm(t) => TermValue(t)
    case SumOp(l, op, r) => ApplyDefined(op, SumValue(l), TermValue(r))
  }

  function TermValue(t: Term): Option<real> {
    match t
    case OneFactor(f) => FactorValue(f)
    case TermOp(l, op, r) => ApplyDefined(op, TermValue(l), FactorValue(r))
  }

  function FactorValue(f: Factor): Option<real> {
    match f
    case Negate(g) => Negated(FactorValue(g))
    case Number(lexeme) => NumberOf(lexeme)
    case Paren(s) => SumValue(s)
  }

  /** `s` derives exactly the token list `tokens`. */
  ghost predicate Derives(s: Sum, tokens: seq<string>) {
    ValidSum(s) && YieldSum(s) == tokens
  }

  // ---- Deterministic parsing of a prefix ----------------------------------------------------

  datatype Parsed<T> = Fail | Done(tree: T, rest: seq<string>)

  function DeriveSum(ts: seq<string>): (r: Parsed<Sum>)
    ensures r.Done? ==> |r.rest| < |ts|
    decreases |ts|, 2
  {
    match DeriveTerm(ts)
    case Fail => Fail
    case Done(t, rest) => SumTail(OneTerm(t), rest)
  }

  function SumTail(acc: Sum, ts: seq<string>): (r: Parsed<Sum>)
    ensures r.Done? ==> |r.rest| <= |ts|
    decreases |ts|, 3
  {
    if ts != [] && IsAddOp(ts[0]) then
      match DeriveTerm(ts[1..])
      case Fail => Fail
      case Done(t, rest) => SumTail(SumOp(acc, ts[0], t), rest)
    else Done(acc, ts)
  }

  function DeriveTerm(ts: seq<string>): (r: Parsed<Term>)
    ensures r.Done? ==> |r.rest| < |ts|
    decreases |ts|, 1
  {
    match DeriveFactor(ts)
    case Fail => Fail
    case Done(f, rest) => TermTail(OneFactor(f), rest)
  }

  function TermTail(acc: Term, ts: seq<string>): (r: Parsed<Term>)
    ensures r.Done? ==> |r.rest| <= |ts|
    decreases |ts|, 3
  {
    if ts != [] && IsMulOp(ts[0]) then
      match DeriveFactor(ts[1..])
      case Fail => Fail
      case Done(f, rest) => TermTail(TermOp(acc, ts[0], f), rest)
    else Done(acc, ts)
  }

  function DeriveFactor(ts: seq<string>): (r: Parsed<Factor>)
    ensures r.Done? ==> |r.rest| < |ts|
    decreases |ts|, 0
  {
    if ts == [] then Fail
    else if ts[0] == "-" then
      match DeriveFactor(ts[1..])
      case Fail => Fail
      case Done(f, rest) => Done(Negate(f), rest)
    else if ts[0] == "(" then
      match DeriveSum(ts[1..])
      case Fail => Fail
      case Done(s, rest) => if rest != [] && rest[0] == ")" then Done(Paren(s), rest[1..]) else Fail
    else if NumberOf(ts[0]).Some? then Done(Number(ts[0]), ts[1..])
    else Fail
  }

  // ---- Parsing is sound: what it returns spells what it consumed -----------------------------

  lemma {:induction false} ParseSumSound(ts: seq<string>)
    ensures var r := DeriveSum(ts);
            r.Done? ==> ValidSum(r.tree) && YieldSum(r.tree) + r.rest == ts
    decreases |ts|, 2
  {
    ParseTermSound(ts);
    var t := DeriveTerm(ts);
    if t.Done? { SumTailSound(OneTerm(t.tree), t.rest); }
  }

  /** Consuming an operator and an operand moves them from what is left to what is spelled. */
  lemma {:induction false} Respelled(done: seq<string>, ts: seq<string>, operand: seq<string>, rest: seq<string>)
    requires ts != [] && operand + rest == ts[1..]
    ensures done + ([ts[0]] + operand) + rest == done + ts
  {
    assert ts == [ts[0]] + ts[1..];
  }

  lemma {:induction false} SumTailSound(acc: Sum, ts: seq<string>)
    requires ValidSum(acc)
    ensures var r := SumTail(acc, ts);
            r.Done? ==> ValidSum(r.tree) && YieldSum(r.tree) + r.rest == YieldSum(acc) + ts
    decreases |ts|, 3
  {
    hide YieldTerm;
    hide DeriveTerm;
    hide ValidTerm;
    if ts != [] && IsAddOp(ts[0]) {
      ParseTermSound(ts[1..]);
      var t := DeriveTerm(ts[1..]);
      if t.Done? {
        var acc' := SumOp(acc, ts[0], t.tree);
        SumTailSound(acc', t.rest);
        Respelled(YieldSum(acc), ts, YieldTerm(t.tree), t.rest);
      }
    }
  }

  lemma {:induction false} ParseTermSound(ts: seq<string>)
    ensures var r := DeriveTerm(ts);
            r.Done? ==> ValidTerm(r.tree) && YieldTerm(r.tree) + r.rest == ts
    decreases |ts|, 1
  {
    ParseFactorSound(ts);
    var f := DeriveFactor(ts);
    if f.Done? { TermTailSound(OneFactor(f.tree), f.rest); }
  }

  lemma {:induction false} TermTailSound(acc: Term, ts: seq<string>)
    requires ValidTerm(acc)
    ensures var r := TermTail(acc, ts);
            r.Done? ==> ValidTerm(r.tree) && YieldTerm(r.tree) + r.rest == YieldTerm(acc) + ts
    decreases |ts|, 3
  {
    hide YieldFactor;
    hide DeriveFactor;
    hide ValidFactor;
    if ts != [] && IsMulOp(ts[0]) {
      ParseFactorSound(ts[1..]);
      var f := DeriveFactor(ts[1..]);
      if f.Done? {
        var acc' := TermOp(acc, ts[0], f.tree);
        TermTailSound(acc', f.rest);
        Respelled(YieldTerm(acc), ts, YieldFactor(f.tree), f.rest);
      }
    }
  }

  lemma {:induction false} ParseFactorSound(ts: seq<string>)
    ensures var r := DeriveFactor(ts);
            r.Done? ==> ValidFactor(r.tree) && YieldFactor(r.tree) + r.rest == ts
    decreases |ts|, 0
  {
    hide YieldSum;
    hide ValidSum;
    hide DeriveSum;
    if ts == [] {
    } else if ts[0] == "-" {
      ParseFactorSound(ts[1..]);
      assert [ts[0]] + ts[1..] == ts;
    } else if ts[0] == "(" {
      ParseSumSound(ts[1..]);
      var s := DeriveSum(ts[1..]);
      if s.Done? && s.rest != [] && s.rest[0] == ")" { Bracketed(ts, YieldSum(s.tree), s.rest); }
    }
  }

  lemma {:induction false} Bracketed(ts: seq<string>, inner: seq<string>, rest: seq<string>)
    requires ts != [] && rest != [] && ts[0] == "(" && rest[0] == ")" && inner + rest == ts[1..]
    ensures ["("] + (inner + [")"]) + rest[1..] == ts
  {
    assert [rest[0]] + rest[1..] == rest;
    assert inner + [")"] + rest[1..] == inner + rest;
    assert [ts[0]] + ts[1..] == ts;
  }

  // ---- Parsing is complete: every derivation is found again ----------------------------------

  predicate StartsWithMulOp(ts: seq<string>) { ts != [] && IsMulOp(ts[0]) }

  lemma {:induction false} ParseSumComplete(s: Sum, rest: seq<string>)
    requires ValidSum(s) && !StartsWithMulOp(rest)
    ensures DeriveSum(YieldSum(s) + rest) == SumTail(s, rest)
    decreases s
  {
    match s
    case OneTerm(t) =>
      ParseTermComplete(t, rest);
    case SumOp(l, op, t) =>
      var tail := [op] + (YieldTerm(t) + rest);
      assert YieldSum(s) + rest == YieldSum(l) + tail;
      ParseSumComplete(l, tail);
      assert tail[1..] == YieldTerm(t) + rest;
      ParseTermComplete(t, rest);
  }

  lemma {:induction false} ParseTermComplete(t: Term, rest: seq<string>)
    requires ValidTerm(t)
    ensures DeriveTerm(YieldTerm(t) + rest) == TermTail(t, rest)
    decreases t
  {
    match t
    case OneFactor(f) =>
      ParseFactorComplete(f, rest);
    case TermOp(l, op, f) =>
      var tail := [op] + (YieldFactor(f) + rest);
      assert YieldTerm(t) + rest == YieldTerm(l) + tail;
      ParseTermComplete(l, tail);
      assert tail[1..] == YieldFactor(f) + rest;
      ParseFactorComplete(f, rest);
  }

  lemma {:induction false} ParseFactorComplete(f: Factor, rest: seq<string>)
    requires ValidFactor(f)
    ensures DeriveFactor(YieldFactor(f) + rest) == Done(f, rest)
    decreases f
  {
    var ts := YieldFactor(f) + rest;
    match f
    case Negate(g) =>
      assert ts[1..] == YieldFactor(g) + rest;
      ParseFactorComplete(g, rest);
    case Number(lexeme) =>
      assert ts[0] == lexeme && ts[1..] == rest;
    case Paren(s) =>
      assert ts[1..] == YieldSum(s) + ([")"] + rest);
      ParseSumComplete(s, [")"] + rest);
      assert ([")"] + rest)[1..] == rest;
  }

  /** The grammar is unambiguous. */
  lemma {:induction false} DerivationUnique(a: Sum, b: Sum, tokens: seq<string>)
    requires Derives(a, tokens) && Derives(b, tokens)
    ensures a == b
  {
    ParseSumComplete(a, []);
    ParseSumComplete(b, []);
    assert tokens + [] == tokens;
  }

  /** The deterministic parse consumes every token exactly when the grammar derives the list. */
  lemma {:induction false} ParseIffDerives(tokens: seq<string>, d: Sum)
    ensures DeriveSum(tokens) == Done(d, []) <==> Derives(d, tokens)
  {
    ParseSumSound(tokens);
    if DeriveSum(tokens) == Done(d, []) { assert YieldSum(d) + [] == YieldSum(d); }
    if Derives(d, tokens) {
      ParseSumComplete(d, []);
      assert tokens + [] == tokens;
    }
  }

  // ---- The evaluator ------------------------------------------------------------------------

  /** What a successful parse is worth; a failed parse is worth nothing. */
  function Worth(r: Parsed<Sum>): Option<real> { if r.Done? then SumValue(r.tree) else None }

  function TermWorth(r: Parsed<Term>): Option<real> { if r.Done? then TermValue(r.tree) else None }

  function FactorWorth(r: Parsed<Factor>): Option<real> { if r.Done? then FactorValue(r.tree) else None }

  /** An undefined left operand makes the whole sum undefined, whatever follows. */
  lemma {:induction false} UndefinedSumTail(acc: Sum, ts: seq<string>)
    requires SumValue(acc).None?
    ensures Worth(SumTail(acc, ts)).None?
    decreases |ts|
  {
    if ts != [] && IsAddOp(ts[0]) {
      var t := DeriveTerm(ts[1..]);
      if t.Done? { UndefinedSumTail(SumOp(acc, ts[0], t.tree), t.rest); }
    }
  }

  lemma {:induction false} UndefinedTermTail(acc: Term, ts: seq<string>)
    requires TermValue(acc).None?
    ensures TermWorth(TermTail(acc, ts)).None?
    decreases |ts|
  {
    if ts != [] && IsMulOp(ts[0]) {
      var f := DeriveFactor(ts[1..]);
      if f.Done? { UndefinedTermTail(TermOp(acc, ts[0], f.tree), f.rest); }
    }
  }

  class Evaluator {
    const tokens: seq<string>
    var pos: nat

    constructor (tokens: seq<string>)
      ensures this.tokens == tokens && pos == 0
    {
      this.tokens := tokens;
      pos := 0;
    }

    ghost function Rest(): seq<string>
      reads this
      requires pos <= |tokens|
    {
      tokens[pos..]
    }

    function Peek(): (t: Option<string>)
      reads this
    {
      if pos < |tokens| then Some(tokens[pos]) else None
    }

    method Consume() returns (t: Option<string>)
      requires pos <= |tokens|
      modifies this`pos
      ensures old(pos) == |tokens| ==> t.None? && pos == old(pos)
      ensures old(pos) < |tokens| ==> t == Some(tokens[old(pos)]) && pos == old(pos) + 1
    {
      if pos == |tokens| { return None; }
      t := Some(tokens[pos]);
      pos := pos + 1;
    }

    method ParseExpr() returns (r: Option<real>)
      requires pos <= |tokens|
      modifies this`pos
      ensures old(pos) <= pos <= |tokens|
      ensures r == Worth(DeriveSum(old(Rest())))
      ensures r.Some? ==> DeriveSum(old(Rest())).rest == Rest()
      decreases |tokens| - pos, 3
    {
      ghost var whole := DeriveSum(Rest());
      ghost var first := DeriveTerm(Rest());
      r := ParseTerm();
      if r.None? {
        if first.Done? { UndefinedSumTail(OneTerm(first.tree), first.rest); }
        return;
      }
      ghost var acc := OneTerm(first.tree);
      while Peek() == Some("+") || Peek() == Some("-")
        invariant old(pos) <= pos <= |tokens|
        invariant r == SumValue(acc) && r.Some?
        invariant SumTail(acc, Rest()) == whole
        decreases |tokens| - pos
      {
        ghost var before := Rest();
        var op := Consume();
        assert Rest() == before[1..];
        ghost var next := DeriveTerm(Rest());
        var rhs := ParseTerm();
        if rhs.None? {
          if next.Done? { UndefinedSumTail(SumOp(acc, op.value, next.tree), next.rest); }
          return None;
        }
        acc := SumOp(acc, op.value, next.tree);
        r := if op.value == "+" then Some(r.value + rhs.value) else Some(r.value - rhs.value);
      }
    }

    method ParseTerm() returns (r: Option<real>)
      requires pos <= |tokens|
      modifies this`pos
      ensures old(pos) <= pos <= |tokens|
      ensures r == TermWorth(DeriveTerm(old(Rest())))
      ensures r.Some? ==> DeriveTerm(old(Rest())).rest == Rest()
      decreases |tokens| - pos, 2
    {
      ghost var whole := DeriveTerm(Rest());
      ghost var first := DeriveFactor(Rest());
      r := ParseFactor();
      if r.None? {
        if first.Done? { UndefinedTermTail(OneFactor(first.tree), first.rest); }
        return;
      }
      ghost var acc := OneFactor(first.tree);
      while Peek() == Some("*") || Peek() == Some("/") || Peek() == Some("%")
        invariant old(pos) <= pos <= |tokens|
        invariant r == TermValue(acc) && r.Some?
        invariant TermTail(acc, Rest()) == whole
        decreases |tokens| - pos
      {
        ghost var before := Rest();
        var op := Consume();
        assert Rest() == before[1..];
        ghost var next := DeriveFactor(Rest());
        var rhs := ParseFactor();
        if rhs.None? {
          if next.Done? { UndefinedTermTail(TermOp(acc, op.value, next.tree), next.rest); }
          return None;
        }
        acc := TermOp(acc, op.value, next.tree);
        r := Multiplicative(op.value, r.value, rhs.value);
        if r.None? {
          UndefinedTermTail(acc, next.rest);
          return;
        }
      }
    }

    /** One step of the `term` loop: a zero divisor throws. */
    static method Multiplicative(op: string, a: real, b: real) returns (r: Option<real>)
      requires IsMulOp(op)
      ensures r == Apply(op, a, b)
    {
      if op == "*" {
        r := Some(a * b);
      } else if op == "/" {
        if b == 0.0 { return None; }
        r := Some(a / b);
      } else {
        if b == 0.0 { return None; }
        r := Some(Remainder(a, b));
      }
    }

    method ParseFactor() returns (r: Option<real>)
      requires pos <= |tokens|
      modifies this`pos
      ensures old(pos) <= pos <= |tokens|
      ensures r == FactorWorth(DeriveFactor(old(Rest())))
      ensures r.Some? ==> DeriveFactor(old(Rest())).rest == Rest()
      decreases |tokens| - pos, 1
    {
      if Peek() == Some("-") {
        ghost var before := Rest();
        var minus := Consume();
        assert Rest() == before[1..];
        r := ParseFactor();
        return Negated(r);
      }
      r := ParsePrimary();
    }

    method ParsePrimary() returns (r: Option<real>)
      requires pos <= |tokens|
      requires Peek() != Some("-")
      modifies this`pos
      ensures old(pos) <= pos <= |tokens|
      ensures r == FactorWorth(DeriveFactor(old(Rest())))
      ensures r.Some? ==> DeriveFactor(old(Rest())).rest == Rest()
      decreases |tokens| - pos, 0
    {
      ghost var before := Rest();
      var token := Consume();
      if token.None? { return None; }
      assert Rest() == before[1..];
      if token == Some("(") {
        r := ParseExpr();
        if r.None? { return None; }
        ghost var inner := Rest();
        var close := Consume();
        if close != Some(")") { return None; }
        assert Rest() == inner[1..];
        return;
      }
      return NumberOf(token.value);
    }
  }

  /**
   `evaluateExpression` after tokenizing: it returns `v` exactly when the whole token list has a
   derivation worth `v`, and throws otherwise.
   */
  method EvaluateTokens(tokens: seq<string>) returns (r: Option<real>)
    ensures forall d :: Derives(d, tokens) ==> r == SumValue(d)
    ensures r.Some? ==> exists d :: Derives(d, tokens)
  {
    var e := new Evaluator(tokens);
    assert e.Rest() == tokens;
    r := e.ParseExpr();
    ghost var whole := DeriveSum(tokens);
    forall d ensures Derives(d, tokens) <==> whole == Done(d, []) { ParseIffDerives(tokens, d); }
    if r.Some? && e.pos != |tokens| { return None; }
    if r.Some? { assert Derives(whole.tree, tokens); }
  }

  // ---- Printing an expression with the parentheses it needs and no more -----------------------

  datatype Expr = Lit(lexeme: string) | Neg(operand: Expr) | Bin(op: string, left: Expr, right: Expr)

  predicate ValidExpr(e: Expr) {
    match e
    case Lit(lexeme) => NumberOf(lexeme).Some?
    case Neg(x) => ValidExpr(x)
    case Bin(op, l, r) => (IsAddOp(op) || IsMulOp(op)) && ValidExpr(l) && ValidExpr(r)
  }

  function Eval(e: Expr): Option<real> {
    match e
    case Lit(lexeme) => NumberOf(lexeme)
    case Neg(x) => Negated(Eval(x))
    case Bin(op, l, r) => ApplyDefined(op, Eval(l), Eval(r))
  }

  predicate IsSum(e: Expr) { e.Bin? && IsAddOp(e.op) }

  predicate IsProduct(e: Expr) { e.Bin? && !IsAddOp(e.op) }

  function AsSum(e: Expr): Sum
    decreases e, if IsSum(e) then 0 else 2
  {
    if IsSum(e) then SumOp(AsSum(e.left), e.op, AsTerm(e.right)) else OneTerm(AsTerm(e))
  }

  function AsTerm(e: Expr): Term
    decreases e, if IsSum(e) then 2 else 1
  {
    if IsProduct(e) then TermOp(AsTerm(e.left), e.op, AsFactor(e.right)) else OneFactor(AsFactor(e))
  }

  function AsFactor(e: Expr): Factor
    decreases e, if IsSum(e) then 1 else if IsProduct(e) then 3 else 0
  {
    match e
    case Lit(lexeme) => Number(lexeme)
    case Neg(x) => Negate(AsFactor(x))
    case Bin(_, _, _) => Paren(AsSum(e))
  }

  /** The tree a derivation stands for once its parentheses are forgotten. */
  function SumExpr(s: Sum): Expr {
    match s
    case OneTerm(t) => TermExpr(t)
    case SumOp(l, op, r) => Bin(op, SumExpr(l), TermExpr(r))
  }

  function TermExpr(t: Term): Expr {
    match t
    case OneFactor(f) => FactorExpr(f)
    case TermOp(l, op, r) => Bin(op, TermExpr(l), FactorExpr(r))
  }

  function FactorExpr(f: Factor): Expr {
    match f
    case Negate(g) => Neg(FactorExpr(g))
    case Number(lexeme) => Lit(lexeme)
    case Paren(s) => SumExpr(s)
  }

  function Print(e: Expr): seq<string> { YieldSum(AsSum(e)) }

  lemma {:induction false} AsSumFaithful(e: Expr)
    requires ValidExpr(e)
    ensures ValidSum(AsSum(e)) && SumExpr(AsSum(e)) == e
    decreases e, if IsSum(e) then 0 else 2
  {
    if IsSum(e) {
      AsSumFaithful(e.left);
      AsTermFaithful(e.right);
    } else {
      AsTermFaithful(e);
    }
  }

  lemma {:induction false} AsTermFaithful(e: Expr)
    requires ValidExpr(e)
    ensures ValidTerm(AsTerm(e)) && TermExpr(AsTerm(e)) == e
    decreases e, if IsSum(e) then 2 else 1
  {
    if IsProduct(e) {
      AsTermFaithful(e.left);
      AsFactorFaithful(e.right);
    } else {
      AsFactorFaithful(e);
    }
  }

  lemma {:induction false} AsFactorFaithful(e: Expr)
    requires ValidExpr(e)
    ensures ValidFactor(AsFactor(e)) && FactorExpr(AsFactor(e)) == e
    decreases e, if IsSum(e) then 1 else if IsProduct(e) then 3 else 0
  {
    match e
    case Lit(_) =>
    case Neg(x) => AsFactorFaithful(x);
    case Bin(_, _, _) => AsSumFaithful(e);
  }

  /** Every derivation stands for an expression. */
  lemma {:induction false} SumExprIsValid(s: Sum)
    requires ValidSum(s)
    ensures ValidExpr(SumExpr(s))
    decreases s
  {
    match s
    case OneTerm(t) => TermExprIsValid(t);
    case SumOp(l, _, r) => SumExprIsValid(l); TermExprIsValid(r);
  }

  lemma {:induction false} TermExprIsValid(t: Term)
    requires ValidTerm(t)
    ensures ValidExpr(TermExpr(t))
    decreases t
  {
    match t
    case OneFactor(f) => FactorExprIsValid(f);
    case TermOp(l, _, r) => TermExprIsValid(l); FactorExprIsValid(r);
  }

  lemma {:induction false} FactorExprIsValid(f: Factor)
    requires ValidFactor(f)
    ensures ValidExpr(FactorExpr(f))
    decreases f
  {
    match f
    case Negate(g) => FactorExprIsValid(g);
    case Number(_) =>
    case Paren(s) => SumExprIsValid(s);
  }

  /** The value of a derivation is the value of the tree it stands for: parentheses only group. */
  lemma {:induction false} SumValueIsEval(s: Sum)
    ensures SumValue(s) == Eval(SumExpr(s))
    decreases s
  {
    match s
    case OneTerm(t) => TermValueIsEval(t);
    case SumOp(l, _, r) => SumValueIsEval(l); TermValueIsEval(r);
  }

  lemma {:induction false} TermValueIsEval(t: Term)
    ensures TermValue(t) == Eval(TermExpr(t))
    decreases t
  {
    match t
    case OneFactor(f) => FactorValueIsEval(f);
    case TermOp(l, _, r) => TermValueIsEval(l); FactorValueIsEval(r);
  }

  lemma {:induction false} FactorValueIsEval(f: Factor)
    ensures FactorValue(f) == Eval(FactorExpr(f))
    decreases f
  {
    match f
    case Negate(g) => FactorValueIsEval(g);
    case Number(_) =>
    case Paren(s) => SumValueIsEval(s);
  }

  /**
   Parse inverts print: the only derivation of a printed expression is the one printed, it stands
   for that very expression, and it is worth the expression's value.
   */
  lemma {:induction false} PrintParseInverse(e: Expr, d: Sum)
    requires ValidExpr(e)
    ensures Derives(AsSum(e), Print(e))
    ensures Derives(d, Print(e)) ==> SumExpr(d) == e && SumValue(d) == Eval(e)
  {
    AsSumFaithful(e);
    SumValueIsEval(AsSum(e));
    if Derives(d, Print(e)) { DerivationUnique(d, AsSum(e), Print(e)); }
  }

  /** Where a sum, a term or a factor is asked for: two tokens more exactly where parentheses are needed. */
  lemma {:induction false} Widths(e: Expr)
    ensures |YieldTerm(AsTerm(e))| == |YieldSum(AsSum(e))| + if IsSum(e) then 2 else 0
    ensures |YieldFactor(AsFactor(e))| == |YieldSum(AsSum(e))| + if e.Bin? then 2 else 0
  {
  }

  /** The printing is the shortest spelling: every other derivation of the same expression has more tokens. */
  lemma {:induction false} PrintIsShortest(d: Sum)
    requires ValidSum(d)
    ensures |YieldSum(d)| >= |Print(SumExpr(d))|
    ensures |YieldSum(d)| == |Print(SumExpr(d))| ==> d == AsSum(SumExpr(d))
    decreases d
  {
    Widths(SumExpr(d));
    match d
    case OneTerm(t) => TermIsShortest(t);
    case SumOp(l, _, r) => PrintIsShortest(l); TermIsShortest(r);
  }

  lemma {:induction false} TermIsShortest(t: Term)
    requires ValidTerm(t)
    ensures |YieldTerm(t)| >= |YieldTerm(AsTerm(TermExpr(t)))|
    ensures |YieldTerm(t)| == |YieldTerm(AsTerm(TermExpr(t)))| ==> t == AsTerm(TermExpr(t))
    decreases t
  {
    Widths(TermExpr(t));
    match t
    case OneFactor(f) => FactorIsShortest(f);
    case TermOp(l, _, r) => TermIsShortest(l); FactorIsShortest(r);
  }

  lemma {:induction false} FactorIsShortest(f: Factor)
    requires ValidFactor(f)
    ensures |YieldFactor(f)| >= |YieldFactor(AsFactor(FactorExpr(f)))|
    ensures |YieldFactor(f)| == |YieldFactor(AsFactor(FactorExpr(f)))| ==> f == AsFactor(FactorExpr(f))
    decreases f
  {
    Widths(FactorExpr(f));
    match f
    case Negate(g) => FactorIsShortest(g);
    case Number(_) =>
    case Paren(s) => PrintIsShortest(s);
  }

  // ---- Tokens -------------------------------------------------------------------------------

  predicate IsOperatorChar(c: char)
    ensures IsOperatorChar(c) <==> IsAddOp([c]) || IsMulOp([c]) || [c] == "(" || [c] == ")"
  {
    c in "+-*/%()"
  }

  predicate IsNumeric(c: char) { IsDigit(c) || c == '.' }

  function NumericRun(s: string): (n: nat)
    ensures n <= |s|
    ensures forall i :: 0 <= i < n ==> IsNumeric(s[i])
    ensures n < |s| ==> !IsNumeric(s[n])
  {
    if s == "" || !IsNumeric(s[0]) then 0 else 1 + NumericRun(s[1..])
  }

  lemma {:induction false} NumericRunIs(s: string, n: nat)
    requires n <= |s| && forall i :: 0 <= i < n ==> IsNumeric(s[i])
    requires n < |s| ==> !IsNumeric(s[n])
    ensures NumericRun(s) == n
  {
    if n > 0 { NumericRunIs(s[1..], n - 1); }
  }

  /** The token list of a text; `None` when some character belongs to no token. */
  function Lex(s: string): Option<seq<string>>
    decreases |s|
  {
    if s == "" then Some([])
    else if IsSpace(s[0]) then Lex(s[1..])
    else if IsOperatorChar(s[0]) then Prepend([s[0]], Lex(s[1..]))
    else if IsNumeric(s[0]) then Prepend(s[..NumericRun(s)], Lex(s[NumericRun(s)..]))
    else None
  }

  function Prepend(t: string, rest: Option<seq<string>>): Option<seq<string>> {
    if rest.Some? then Some([t] + rest.value) else None
  }

  function Continue(done: seq<string>, rest: Option<seq<string>>): Option<seq<string>> {
    if rest.Some? then Some(done + rest.value) else None
  }

  lemma {:induction false} ContinueEmpty(r: Option<seq<string>>)
    ensures Continue([], r) == r
  {
    if r.Some? { assert [] + r.value == r.value; }
  }

  lemma {:induction false} ContinuePrepend(done: seq<string>, t: string, more: Option<seq<string>>)
    ensures Continue(done + [t], more) == Continue(done, Prepend(t, more))
  {
    if more.Some? { assert done + [t] + more.value == done + ([t] + more.value); }
  }

  lemma {:induction false} LexAtStart(e: string)
    ensures Continue([], Lex(e[0..])) == Lex(e)
  {
    assert e[0..] == e;
    ContinueEmpty(Lex(e));
  }

  lemma {:induction false} LexAtSpace(e: string, i: nat)
    requires i < |e| && IsSpace(e[i])
    ensures Lex(e[i..]) == Lex(e[i + 1..])
  {
    assert e[i..][1..] == e[i + 1..];
  }

  lemma {:induction false} LexAtOperator(e: string, i: nat, done: seq<string>)
    requires i < |e| && !IsSpace(e[i]) && IsOperatorChar(e[i])
    ensures Continue(done + [[e[i]]], Lex(e[i + 1..])) == Continue(done, Lex(e[i..]))
  {
    assert e[i..][1..] == e[i + 1..];
    ContinuePrepend(done, [e[i]], Lex(e[i + 1..]));
  }

  lemma {:induction false} LexAtNumber(e: string, i: nat, j: nat, done: seq<string>)
    requires i < j <= |e| && !IsSpace(e[i]) && !IsOperatorChar(e[i])
    requires (forall k :: i <= k < j ==> IsNumeric(e[k])) && (j < |e| ==> !IsNumeric(e[j]))
    ensures Continue(done + [e[i..j]], Lex(e[j..])) == Continue(done, Lex(e[i..]))
  {
    NumericRunIs(e[i..], j - i);
    assert e[i..][..j - i] == e[i..j] && e[i..][j - i..] == e[j..];
    ContinuePrepend(done, e[i..j], Lex(e[j..]));
  }

  lemma {:induction false} LexAtOther(e: string, i: nat, done: seq<string>)
    requires i < |e| && !IsSpace(e[i]) && !IsOperatorChar(e[i]) && !IsNumeric(e[i])
    ensures Continue(done, Lex(e[i..])) == None
  {
  }

  lemma {:induction false} LexAtEnd(e: string, done: seq<string>)
    ensures Continue(done, Lex(e[|e|..])) == Some(done)
  {
    assert done + [] == done;
  }

  method Tokenize(expression: string) returns (r: Option<seq<string>>)
    ensures r == if Lex(expression) == Some([]) then None else Lex(expression)
  {
    hide *;
    var tokens: seq<string> := [];
    var i := 0;
    LexAtStart(expression);
    while i < |expression|
      invariant 0 <= i <= |expression|
      invariant Continue(tokens, Lex(expression[i..])) == Lex(expression)
    {
      var ch := expression[i];
      if IsSpace(ch) {
        LexAtSpace(expression, i);
        i := i + 1;
      } else if IsOperatorChar(ch) {
        LexAtOperator(expression, i, tokens);
        tokens := tokens + [[ch]];
        i := i + 1;
      } else if IsNumeric(ch) {
        var j := i;
        while j < |expression| && IsNumeric(expression[j])
          invariant i <= j <= |expression|
          invariant forall k :: i <= k < j ==> IsNumeric(expression[k])
        {
          j := j + 1;
        }
        LexAtNumber(expression, i, j, tokens);
        tokens := tokens + [expression[i..j]];
        i := j;
      } else {
        LexAtOther(expression, i, tokens);
        return None;
      }
    }
    LexAtEnd(expression, tokens);
    if |tokens| == 0 { return None; }
    return Some(tokens);
  }

  predicate IsToken(t: string) {
    (|t| == 1 && IsOperatorChar(t[0])) || (t != "" && forall i :: 0 <= i < |t| ==> IsNumeric(t[i]))
  }

  /** The tokens written out, each followed by one space. */
  function Spell(ts: seq<string>): string {
    if ts == [] then "" else ts[0] + ([' '] + Spell(ts[1..]))
  }

  lemma {:induction false} LexSpell(ts: seq<string>)
    requires forall i :: 0 <= i < |ts| ==> IsToken(ts[i])
    ensures Lex(Spell(ts)) == Some(ts)
    decreases |ts|
  {
    if ts != [] {
      LexSpell(ts[1..]);
      var s, t := Spell(ts), ts[0];
      var tail := [' '] + Spell(ts[1..]);
      assert s == t + tail && s[0] == t[0];
      assert tail[0] == ' ' && tail[1..] == Spell(ts[1..]);
      assert Lex(tail) == Some(ts[1..]);
      if IsOperatorChar(t[0]) {
        assert t == [t[0]];
        assert s[1..] == tail;
      } else {
        assert s[|t|] == ' ';
        NumericRunIs(s, |t|);
        assert s[..|t|] == t && s[|t|..] == tail;
      }
      assert [t] + ts[1..] == ts;
    }
  }

  lemma {:induction false} NumberIsToken(lexeme: string)
    requires NumberOf(lexeme).Some?
    ensures IsToken(lexeme) && forall i :: 0 <= i < |lexeme| ==> IsNumeric(lexeme[i])
  {
    var k := DotIndex(lexeme);
    DotIndexIsDot(lexeme);
    forall i | 0 <= i < |lexeme| ensures IsNumeric(lexeme[i]) {
      if i < k { assert lexeme[..k][i] == lexeme[i]; }
      if i > k { assert lexeme[k + 1..][i - k - 1] == lexeme[i]; }
    }
  }

  predicate AllTokens(ts: seq<string>) { forall i :: 0 <= i < |ts| ==> IsToken(ts[i]) }

  lemma {:induction false} YieldSumIsTokens(s: Sum)
    requires ValidSum(s)
    ensures AllTokens(YieldSum(s)) && YieldSum(s) != []
    decreases s
  {
    match s
    case OneTerm(t) => YieldTermIsTokens(t);
    case SumOp(l, op, r) => YieldSumIsTokens(l); YieldTermIsTokens(r);
  }

  lemma {:induction false} YieldTermIsTokens(t: Term)
    requires ValidTerm(t)
    ensures AllTokens(YieldTerm(t)) && YieldTerm(t) != []
    decreases t
  {
    match t
    case OneFactor(f) => YieldFactorIsTokens(f);
    case TermOp(l, op, r) => YieldTermIsTokens(l); YieldFactorIsTokens(r);
  }

  lemma {:induction false} YieldFactorIsTokens(f: Factor)
    requires ValidFactor(f)
    ensures AllTokens(YieldFactor(f)) && YieldFactor(f) != []
    decreases f
  {
    match f
    case Negate(g) => YieldFactorIsTokens(g);
    case Number(lexeme) => NumberIsToken(lexeme);
    case Paren(s) => YieldSumIsTokens(s);
  }

  /** A numeral on its own is one token, and derives itself. */
  lemma {:induction false} NumeralDerives(token: string)
    requires NumberOf(token).Some?
    ensures Lex(token) == Some([token])
    ensures var d := OneTerm(OneFactor(Number(token))); Derives(d, [token]) && SumValue(d) == NumberOf(token)
  {
    var f := Number(token);
    assert ValidFactor(f) && YieldFactor(f) == [token] && FactorValue(f) == NumberOf(token);
    var t := OneFactor(f);
    assert ValidTerm(t) && YieldTerm(t) == [token] && TermValue(t) == NumberOf(token);
    NumberIsToken(token);
    TokenIsLexed(token);
  }

  lemma {:induction false} TokenIsLexed(token: string)
    requires IsToken(token) && forall i :: 0 <= i < |token| ==> IsNumeric(token[i])
    ensures Lex(token) == Some([token])
  {
    assert token[0..] == token && token[|token|..] == "" && token[0..|token|] == token;
    LexAtNumber(token, 0, |token|, []);
    ContinueEmpty(Lex(token));
    assert [] + [token] == [token] && [token] + [] == [token];
  }

  /** `evaluateExpression` on a text. */
  method EvaluateExpression(expression: string) returns (r: Option<real>)
    ensures Lex(expression).None? || Lex(expression) == Some([]) ==> r.None?
    ensures Lex(expression).Some? ==>
              forall d :: Derives(d, Lex(expression).value) ==> r == SumValue(d)
    ensures r.Some? ==> Lex(expression).Some? && exists d :: Derives(d, Lex(expression).value)
    ensures NumberOf(expression).Some? ==> r == NumberOf(expression)
    ensures forall n: nat :: expression == Decimal(n) ==> r == Some(n as real)
  {
    if NumberOf(expression).Some? { NumeralDerives(expression); }
    forall n: nat | expression == Decimal(n) ensures NumberOf(expression) == Some(n as real) { DecimalIsWorthItself(n); }
    hide NumberOf;
    var tokens := Tokenize(expression);
    if tokens.None? {
      forall d | Lex(expression).Some? && Derives(d, Lex(expression).value) ensures false {
        YieldSumIsTokens(d);
      }
      return None;
    }
    r := EvaluateTokens(tokens.value);
  }

  /** End to end: the text of a printed expression evaluates to the expression's value. */
  method EvaluatePrinted(e: Expr) returns (r: Option<real>)
    requires ValidExpr(e)
    ensures r == Eval(e)
  {
    r := EvaluateExpression(Spell(Print(e)));
    PrintParseInverse(e, AsSum(e));
    YieldSumIsTokens(AsSum(e));
    LexSpell(Print(e));
  }
}
