/**
 * MiniSat's three-valued booleans and literals as the driver uses them, and the
 * decoding of one DIMACS-style signed integer of the assumptions file into a literal.
 */
module SolverTypes {

  /** lbool: l_True, l_False, l_Undef. */
  datatype LBool = LTrue | LFalse | LUndef

  /** A solver variable; MiniSat's Var is a plain int, and -1 can arise (see Decode of 0). */
  type Var = int

  /** A literal: a variable and its sign; `neg` is MiniSat's sign bit (true for the negative literal). */
  datatype Lit = Lit(v: Var, neg: bool)

  /** mkLit(v): the positive literal of v. */
  function MkLit(v: Var): (l: Lit)
    ensures l.v == v && !l.neg
  {
    Lit(v, false)
  }

  /** ~l: the same variable with the opposite sign. */
  function Negate(l: Lit): (r: Lit)
    ensures r.v == l.v && r.neg == !l.neg
  {
    Lit(l.v, !l.neg)
  }

  /** sign(l) */
  function Sign(l: Lit): bool { l.neg }

  /** var(l) */
  function VarOf(l: Lit): Var { l.v }

  function Abs(i: int): nat { if i < 0 then -i else i }

  /**
   * One integer of the assumptions file: variable abs(i) - 1, the positive literal
   * when i > 0 and the negated one otherwise (so 0 becomes the negative literal of var -1).
   */
  function Decode(i: int): (l: Lit)
    ensures VarOf(l) == Abs(i) - 1
    ensures Sign(l) <==> i <= 0
  {
    var v := Abs(i) - 1;
    if i > 0 then MkLit(v) else Negate(MkLit(v))
  }

  /** Decoding every integer of a sequence, in order. */
  function DecodeAll(xs: seq<int>): (ls: seq<Lit>)
    ensures |ls| == |xs|
    ensures forall k :: 0 <= k < |xs| ==> ls[k] == Decode(xs[k])
  {
    if xs == [] then [] else [Decode(xs[0])] + DecodeAll(xs[1..])
  }

  /** Negating every literal of a sequence, in order. */
  function NegateAll(ls: seq<Lit>): (rs: seq<Lit>)
    ensures |rs| == |ls|
    ensures forall k :: 0 <= k < |ls| ==> rs[k] == Negate(ls[k])
  {
    if ls == [] then [] else [Negate(ls[0])] + NegateAll(ls[1..])
  }

  /** Decoding loses nothing: the integer is recovered from its literal (0 alone decodes to variable -1). */
  lemma DecodeInjective(i: int, j: int)
    requires Decode(i) == Decode(j)
    ensures i == j
  {
    assert VarOf(Decode(i)) == VarOf(Decode(j));
    assert Sign(Decode(i)) == Sign(Decode(j));
  }
}
