/** The slice of JavaScript value semantics the client relies on: truthiness,
    the `||` and `??` operators, string conversion, property lookup on plain
    objects and `String.prototype.includes`. Numbers are integers here. */
module JsValues {

  /** A field typed `T | null` in the client: `None` stands for `null`. */
  datatype Option<+T> = None | Some(value: T)

  /** A JavaScript primitive as it appears in a backend reply or a state field. */
  datatype Value = Undefined | Null | Str(s: string) | Num(n: int) | Bool(b: bool)

  /** A plain JSON object: a missing key reads as `undefined`. */
  type Object = map<string, Value>

  predicate Nullish(v: Value) {
    v.Undefined? || v.Null?
  }

  predicate Truthy(v: Value) {
    match v
    case Undefined => false
    case Null => false
    case Str(s) => s != ""
    case Num(n) => n != 0
    case Bool(b) => b
  }

  /** `a || b` */
  function Or(a: Value, b: Value): Value {
    if Truthy(a) then a else b
  }

  /** `a ?? b` */
  function Coalesce(a: Value, b: Value): Value {
    if Nullish(a) then b else a
  }

  /** `a ?? b ?? c`. */
  function FirstPresent(a: Value, b: Value, c: Value): Value {
    Coalesce(Coalesce(a, b), c)
  }

  /** `o.key` on a plain object. */
  function Get(o: Object, key: string): Value {
    if key in o then o[key] else Undefined
  }

  /** `a || b` where the right operand is the string literal `b`: the result
      is always a string. */
  function OrText(a: Value, b: string): (r: string)
    ensures Truthy(a) && a.Str? ==> r == a.s
    ensures !Truthy(a) ==> r == b
    ensures Truthy(a) ==> r == ToJsString(a) && r != ""
  {
    if Truthy(a) then (TruthyTextNonEmpty(a); ToJsString(a)) else b
  }

  function DigitChar(d: nat): char
    requires d < 10
  {
    "0123456789"[d]
  }

  function NatToString(n: nat): string
    decreases n
  {
    if n < 10 then [DigitChar(n)] else NatToString(n / 10) + [DigitChar(n % 10)]
  }

  /** `String(v)`, which is what a template literal and `localStorage.setItem`
      turn a value into. */
  function ToJsString(v: Value): string {
    match v
    case Undefined => "undefined"
    case Null => "null"
    case Str(s) => s
    case Num(n) => if n < 0 then "-" + NatToString(-n) else NatToString(n)
    case Bool(b) => if b then "true" else "false"
  }

  /** A truthy value never converts to the empty string. */
  lemma TruthyTextNonEmpty(v: Value)
    requires Truthy(v)
    ensures ToJsString(v) != ""
  {
    if v.Num? {
      assert |NatToString(if v.n < 0 then -v.n else v.n)| >= 1;
    }
  }

  /** `sub` occurs in `s` starting at index `i`. */
  predicate OccursAt(s: string, sub: string, i: nat) {
    i + |sub| <= |s| && s[i..i + |sub|] == sub
  }

  /** `s.includes(sub)`, scanning from the left. */
  function Includes(s: string, sub: string): (r: bool)
    ensures r <==> exists i: nat :: OccursAt(s, sub, i)
    decreases |s|
  {
    if sub <= s then
      assert OccursAt(s, sub, 0);
      true
    else if |s| == 0 then
      assert forall i: nat :: !OccursAt(s, sub, i);
      false
    else
      var r := Includes(s[1..], sub);
      ShiftOccurrence(s, sub);
      r
  }

  /** An occurrence in `s` at a positive index is an occurrence in `s[1..]`
      one position earlier, and `sub` occurs at 0 exactly when it is a prefix. */
  lemma ShiftOccurrence(s: string, sub: string)
    requires |s| > 0
    ensures (exists i: nat :: OccursAt(s, sub, i)) <==>
            (sub <= s || exists i: nat :: OccursAt(s[1..], sub, i))
  {
    if exists i: nat :: OccursAt(s, sub, i) {
      var i: nat :| OccursAt(s, sub, i);
      if i > 0 {
        assert s[1..][i - 1..i - 1 + |sub|] == s[i..i + |sub|];
        assert OccursAt(s[1..], sub, i - 1);
      } else {
        assert sub <= s;
      }
    }
    if exists i: nat :: OccursAt(s[1..], sub, i) {
      var i: nat :| OccursAt(s[1..], sub, i);
      assert s[i + 1..i + 1 + |sub|] == s[1..][i..i + |sub|];
      assert OccursAt(s, sub, i + 1);
    }
    if sub <= s {
      assert OccursAt(s, sub, 0);
    }
  }

  /** Containment of strings is transitive: whatever contains `big` contains
      every substring of `big`. */
  lemma {:induction false} IncludesTransitive(s: string, big: string, small: string)
    requires Includes(s, big) && Includes(big, small)
    ensures Includes(s, small)
  {
    var i: nat :| OccursAt(s, big, i);
    var j: nat :| OccursAt(big, small, j);
    assert j + |small| <= |big|;
    forall k | 0 <= k < |small|
      ensures s[i + j..i + j + |small|][k] == small[k]
    {
      assert small[k] == big[j + k] == s[i + j + k];
    }
    assert OccursAt(s, small, i + j);
  }
}
