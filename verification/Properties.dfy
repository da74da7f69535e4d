/**
 Security-property expressions. They are evaluated with Python's integer
 operators on booleans, so `~` does not give a boolean: `~True` is -2 and
 `~False` is -1, and both are truthy.
 */
module Properties {

  // ------------------------------------------------------------------
  // Python's operators on integers of any size, in two's complement
  // ------------------------------------------------------------------

  datatype Operator = And | Or | Xor

  predicate Apply(op: Operator, a: bool, b: bool) {
    match op
    case And => a && b
    case Or => a || b
    case Xor => a != b
  }

  function Size(x: int): nat { if x >= 0 then x else -1 - x }

  function Truth(b: bool): int { if b then 1 else 0 }

  predicate Odd(x: int) { x % 2 == 1 }

  function Bitwise(op: Operator, x: int, y: int): int
    decreases Size(x) + Size(y)
  {
    var low := Truth(Apply(op, Odd(x), Odd(y)));
    if x in {0, -1} && y in {0, -1} then -low else 2 * Bitwise(op, x / 2, y / 2) + low
  }

  predicate BitAt(x: int, k: nat)
    decreases k
  {
    if k == 0 then Odd(x) else BitAt(x / 2, k - 1)
  }

  /** Bit k of the result is the operator applied to bits k of the operands. */
  lemma {:induction false} BitwiseAt(op: Operator, x: int, y: int, k: nat)
    ensures BitAt(Bitwise(op, x, y), k) == Apply(op, BitAt(x, k), BitAt(y, k))
    decreases k
  {
    var low := Truth(Apply(op, Odd(x), Odd(y)));
    if x in {0, -1} && y in {0, -1} {
      assert (-low) / 2 == -low;
      assert x / 2 == x && y / 2 == y;
      if k > 0 { BitwiseAt(op, x, y, k - 1); }
    } else {
      assert (2 * Bitwise(op, x / 2, y / 2) + low) / 2 == Bitwise(op, x / 2, y / 2);
      if k > 0 { BitwiseAt(op, x / 2, y / 2, k - 1); }
    }
  }

  function Invert(x: int): int { -x - 1 }

  /**
   The operators against addition: each pair of bits goes once to `&` and once to
   `|`, and `^` takes the difference.
   */
  lemma {:induction false} BitwiseAdds(x: int, y: int)
    ensures Bitwise(And, x, y) + Bitwise(Or, x, y) == x + y
    ensures Bitwise(Xor, x, y) == Bitwise(Or, x, y) - Bitwise(And, x, y)
    decreases Size(x) + Size(y)
  {
    if !(x in {0, -1} && y in {0, -1}) { BitwiseAdds(x / 2, y / 2); }
  }

  /** `~x` is the integer with which `x` has no bit in common and every bit together. */
  lemma {:induction false} InvertComplements(x: int)
    ensures Bitwise(And, x, Invert(x)) == 0 && Bitwise(Or, x, Invert(x)) == -1
    decreases Size(x)
  {
    if x !in {0, -1} {
      assert Invert(x) / 2 == Invert(x / 2);
      InvertComplements(x / 2);
    }
  }

  // ------------------------------------------------------------------
  // UnevaluatedProperty and UnevaluatedExpression
  // ------------------------------------------------------------------

  datatype Expression =
    | Has(property: string)
    | Binary(op: Operator, left: Expression, right: Expression)
    | Not(inner: Expression)

  function Call(e: Expression, properties: seq<string>): int {
    match e
    case Has(p) => Truth(p in properties)
    case Binary(op, l, r) => Bitwise(op, Call(l, properties), Call(r, properties))
    case Not(i) => Invert(Call(i, properties))
  }

  // What `require_property` lets through: any value but 0 is truthy.
  predicate Granted(e: Expression, properties: seq<string>) { Call(e, properties) != 0 }

  // What the expression says, read as logic.
  predicate Meaning(e: Expression, properties: seq<string>) {
    match e
    case Has(p) => p in properties
    case Binary(op, l, r) => Apply(op, Meaning(l, properties), Meaning(r, properties))
    case Not(i) => !Meaning(i, properties)
  }

  // ------------------------------------------------------------------
  // What evaluation decides
  // ------------------------------------------------------------------

  // The value with low bit `low` whose higher bits are all `high`.
  function Pair(low: bool, high: bool): int { Truth(low) - 2 * Truth(high) }

  lemma PairHalves(low: bool, high: bool)
    ensures Odd(Pair(low, high)) == low && Pair(low, high) / 2 == -Truth(high)
    ensures Odd(-Truth(high)) == high
    ensures Pair(low, high) in {0, -1} ==> low == high
  {
  }

  /** On the values that can occur, a bitwise operator works on the low bit and on the others apart. */
  lemma BitwiseOnPairs(op: Operator, a: bool, s: bool, b: bool, t: bool)
    ensures Bitwise(op, Pair(a, s), Pair(b, t)) == Pair(Apply(op, a, b), Apply(op, s, t))
  {
    PairHalves(a, s);
    PairHalves(b, t);
    var low, high := Apply(op, a, b), Apply(op, s, t);
    assert Bitwise(op, -Truth(s), -Truth(t)) == -Truth(high);
    if Pair(a, s) in {0, -1} && Pair(b, t) in {0, -1} {
      assert low == high;
    } else {
      assert Bitwise(op, Pair(a, s), Pair(b, t)) == 2 * -Truth(high) + Truth(low);
    }
  }

  /**
   The value lies in {-2, -1, 0, 1}: its low bit is the meaning under the given
   properties, and it is negative exactly when the expression holds of no property at all.
   */
  lemma {:induction false} CallValue(e: Expression, properties: seq<string>)
    ensures Call(e, properties) == Pair(Meaning(e, properties), Meaning(e, []))
  {
    match e
    case Has(_) =>
    case Binary(op, l, r) =>
      CallValue(l, properties);
      CallValue(r, properties);
      BitwiseOnPairs(op, Meaning(l, properties), Meaning(l, []), Meaning(r, properties), Meaning(r, []));
    case Not(i) =>
      CallValue(i, properties);
  }

  lemma GrantedMeans(e: Expression, properties: seq<string>)
    ensures Granted(e, properties) <==> Meaning(e, properties) || Meaning(e, [])
    ensures Odd(Call(e, properties)) <==> Meaning(e, properties)
    ensures -2 <= Call(e, properties) <= 1
  {
    CallValue(e, properties);
  }

  /** The expression decides for every user exactly when it holds of no property at all only if it always holds. */
  lemma DecidedExactly(e: Expression)
    ensures (forall properties :: Granted(e, properties) <==> Meaning(e, properties))
            <==> (Meaning(e, []) ==> forall properties :: Meaning(e, properties))
  {
    forall properties ensures Granted(e, properties) <==> Meaning(e, properties) || Meaning(e, []) {
      GrantedMeans(e, properties);
    }
  }

  /** Two properties joined by `&`, `|` or `^`, and one negated, in plain words. */
  lemma TwoProperties(p: string, q: string, properties: seq<string>)
    ensures Granted(Has(p), properties) <==> p in properties
    ensures Granted(Binary(And, Has(p), Has(q)), properties) <==> p in properties && q in properties
    ensures Granted(Binary(Or, Has(p), Has(q)), properties) <==> p in properties || q in properties
    ensures Granted(Binary(Xor, Has(p), Has(q)), properties) <==> (p in properties) != (q in properties)
    ensures Call(Not(Has(p)), properties) == if p in properties then -2 else -1
  {
    GrantedMeans(Binary(And, Has(p), Has(q)), properties);
    GrantedMeans(Binary(Or, Has(p), Has(q)), properties);
    GrantedMeans(Binary(Xor, Has(p), Has(q)), properties);
  }

  predicate NegationFree(e: Expression) {
    match e
    case Has(_) => true
    case Binary(_, l, r) => NegationFree(l) && NegationFree(r)
    case Not(_) => false
  }

  lemma {:induction false} NegationFreeNeedsProperties(e: Expression)
    requires NegationFree(e)
    ensures !Meaning(e, [])
  {
    match e
    case Has(_) =>
    case Binary(_, l, r) =>
      NegationFreeNeedsProperties(l);
      NegationFreeNeedsProperties(r);
  }

  /** Without `~`, access is granted exactly when the expression holds. */
  lemma NegationFreeDecided(e: Expression, properties: seq<string>)
    requires NegationFree(e)
    ensures Granted(e, properties) <==> Meaning(e, properties)
    ensures Granted(e, properties) ==> properties != []
  {
    NegationFreeNeedsProperties(e);
    GrantedMeans(e, properties);
  }

  /** The negation of such an expression shuts nobody out, whatever it means. */
  lemma NegationGrantsAll(e: Expression, properties: seq<string>)
    requires NegationFree(e)
    ensures Granted(Not(e), properties)
    ensures Meaning(e, properties) ==> !Meaning(Not(e), properties)
  {
    NegationFreeNeedsProperties(e);
    GrantedMeans(Not(e), properties);
  }
}
