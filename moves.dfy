/**
 * Face turns of a 3x3 cube in "LRUDFB" notation, and the algebra that merges
 * two adjacent turns (main.py, class Move).
 *
 * A move is only its text: "" is the neutral move, "X" a quarter turn of face X,
 * "X2" a half turn and "X'" an inverse quarter turn. As in the source, nothing
 * checks the text when a move is built; every operation inspects the suffix of
 * the string exactly as the source does, so the operations are total on all
 * strings. The reference semantics (FromTurn, Face, Quarters) reads a
 * well-formed move as a face and a number of quarter turns modulo 4; the
 * lemmas relate the string operations to that arithmetic.
 */
module Moves {

  /** A move, wrapping its text. */
  datatype Move = Move(value: string)

  /** What adding two moves gives: one merged move, or both operands unmerged, in order. */
  datatype Sum = One(move: Move) | Pair(first: Move, second: Move)

  /** A face turn repeats after this many quarter turns. */
  const MaxRotations := 4

  /** The move built with no argument. */
  const Neutral := Move("")

  /** `s.endswith(c)` for a one-character suffix. */
  predicate EndsWith(s: string, c: char) {
    |s| > 0 && s[|s| - 1] == c
  }

  // ---------------------------------------------------------------------------
  // Reference semantics: faces, quarter-turn counts, axes
  // ---------------------------------------------------------------------------

  /** The six face labels. */
  predicate IsFace(c: char) {
    c in "LRUDFB"
  }

  /** The text for turning face `f` by `k` quarter turns, counted modulo 4. */
  function FromTurn(f: char, k: int): Move {
    var q := k % MaxRotations;
    if q == 0 then Neutral
    else if q == 1 then Move([f])
    else if q == 2 then Move([f, '2'])
    else Move([f, '\''])
  }

  /** A face label, optionally followed by `2` or `'`. The neutral move is not well-formed. */
  predicate WellFormed(m: Move) {
    (|m.value| == 1 || (|m.value| == 2 && m.value[1] in "2'")) && IsFace(m.value[0])
  }

  /** The neutral move or a well-formed one: the moves a sequence of face turns is made of. */
  predicate Canonical(m: Move) {
    m == Neutral || WellFormed(m)
  }

  /** The face a well-formed move turns. */
  function Face(m: Move): char
    requires WellFormed(m)
  {
    m.value[0]
  }

  /** The number of quarter turns a well-formed move stands for: 1, 2 or 3. */
  function Quarters(m: Move): int
    requires WellFormed(m)
  {
    if |m.value| == 1 then 1 else if m.value[1] == '2' then 2 else 3
  }

  /** The axis a face turns about; opposite faces share one. */
  function Axis(f: char): int {
    if f in "LR" then 0 else if f in "UD" then 1 else 2
  }

  /** Two different faces on the same axis. */
  predicate Opposite(f: char, g: char) {
    f != g && Axis(f) == Axis(g)
  }

  /** FromTurn and (Face, Quarters) are inverse to each other on well-formed moves. */
  lemma FromTurnDecode(f: char, k: int)
    requires IsFace(f) && k % MaxRotations != 0
    ensures WellFormed(FromTurn(f, k))
    ensures Face(FromTurn(f, k)) == f && Quarters(FromTurn(f, k)) == k % MaxRotations
  {
  }

  lemma DecodeFromTurn(m: Move)
    requires WellFormed(m)
    ensures IsFace(Face(m)) && 1 <= Quarters(m) <= 3
    ensures FromTurn(Face(m), Quarters(m)) == m
  {
    if |m.value| == 2 {
      assert m.value == [m.value[0], m.value[1]];
    }
  }

  /** A product modulo 4 depends on the second factor only modulo 4. */
  lemma ProductModulo(q: int, i: int)
    ensures (q * i) % MaxRotations == (q * (i % MaxRotations)) % MaxRotations
  {
    var d := i / MaxRotations;
    assert i == MaxRotations * d + i % MaxRotations;
    assert q * i == MaxRotations * (q * d) + q * (i % MaxRotations);
  }

  // ---------------------------------------------------------------------------
  // The operations of class Move
  // ---------------------------------------------------------------------------

  /** `is_neutral`: the move equals the one built with no argument. */
  function IsNeutral(m: Move): (b: bool)
    ensures b <==> |m.value| == 0
    ensures b ==> Canonical(m) && !WellFormed(m)
  {
    m == Neutral
  }

  /** `-m`: a half turn is kept, `X'` becomes `X`, and anything else gets a `'` appended. */
  function Neg(m: Move): (r: Move)
    ensures WellFormed(m) ==> WellFormed(r) && Face(r) == Face(m)
    ensures WellFormed(m) ==> (Quarters(m) + Quarters(r)) % MaxRotations == 0
  {
    if EndsWith(m.value, '2') then m
    else if EndsWith(m.value, '\'') then Move([m.value[0]])
    else Move(m.value + "'")
  }

  /**
   * `m.double()`: a half turn doubles to the neutral move, a quarter turn to a
   * half turn, and an inverse quarter turn `X'` to `-X'`, which is `X`.
   */
  function Double(m: Move): (r: Move)
    ensures WellFormed(m) && Quarters(m) != 3 ==> r == FromTurn(Face(m), 2 * Quarters(m))
    ensures WellFormed(m) && Quarters(m) == 3 ==> r == FromTurn(Face(m), 1)
  {
    if EndsWith(m.value, '2') then Neutral
    else if EndsWith(m.value, '\'') then Neg(m)
    else Move(m.value + "2")
  }

  /**
   * `m * i`: the count is first reduced modulo 4 (Python's `%` and Dafny's agree
   * for a positive divisor); 0 gives the neutral move, 1 the move itself, 2 its
   * double and 3 its negation. The final fallback of the source cannot be reached.
   */
  function Scale(m: Move, i: int): (r: Move)
    ensures i % MaxRotations == 0 ==> r == Neutral
    ensures i % MaxRotations == 1 ==> r == m
    ensures WellFormed(m) && !(Quarters(m) == 3 && i % MaxRotations == 2) ==>
              r == FromTurn(Face(m), Quarters(m) * i)
  {
    var k := i % MaxRotations;
    ProductModulo(if WellFormed(m) then Quarters(m) else 0, i);
    if k == 0 then Neutral
    else if k == 1 then m
    else if k % 2 == 0 then Double(m)
    else if k % 3 == 0 then Neg(m)
    else assert false; m
  }

  /**
   * `a + b`, with `a` the earlier move: cancel to the neutral move when `b` is
   * `-a`; give `b` when `a` is neutral; give `a * 2` when `b` is `a`; give `-a`
   * when `b` is `a * 2`; otherwise keep both, in order.
   */
  function Combine(a: Move, b: Move): (r: Sum)
    ensures r.Pair? ==> r.first == a && r.second == b
    ensures r.One? && Canonical(a) && Canonical(b) ==> Canonical(r.move)
  {
    if b == Neg(a) then One(Neutral)
    else if IsNeutral(a) then One(b)
    else if b == a then One(Scale(a, 2))
    else if b == Scale(a, 2) then One(Neg(a))
    else Pair(a, b)
  }

  /** `m.base`: a move ending in `'` or `2` is cut down to its first character. */
  function Base(m: Move): (r: Move)
    ensures WellFormed(m) ==> r == FromTurn(Face(m), 1)
    ensures IsNeutral(m) ==> r == m
  {
    if EndsWith(m.value, '\'') || EndsWith(m.value, '2') then Move([m.value[0]]) else m
  }

  /** The three pairs of opposite faces, as sets of quarter turns. */
  const OppositePairs: seq<set<Move>> :=
    [{Move("L"), Move("R")}, {Move("U"), Move("D")}, {Move("F"), Move("B")}]

  /**
   * `a.affected_by(b)`: false when either move is neutral, and false when the
   * bases of the two moves are one of the opposite-face pairs.
   */
  function AffectedBy(a: Move, b: Move): (r: bool)
    ensures IsNeutral(a) || IsNeutral(b) ==> !r
    ensures WellFormed(a) && WellFormed(b) ==> (r <==> !Opposite(Face(a), Face(b)))
  {
    if IsNeutral(a) || IsNeutral(b) then false
    else
      var pair := {Base(a), Base(b)};
      OppositeBases(a, b);
      pair !in OppositePairs
  }

  /** For well-formed moves, the set of bases is an opposite pair exactly when the faces are opposite. */
  lemma OppositeBases(a: Move, b: Move)
    ensures WellFormed(a) && WellFormed(b) ==>
              ({Base(a), Base(b)} in OppositePairs <==> Opposite(Face(a), Face(b)))
  {
    if WellFormed(a) && WellFormed(b) {
      var f, g := Face(a), Face(b);
      assert Base(a) == Move([f]) && Base(b) == Move([g]);
      if Opposite(f, g) {
        assert {Move([f]), Move([g])} in OppositePairs by {
          if f == 'L' || f == 'R' {
            assert {Move([f]), Move([g])} == OppositePairs[0];
          } else if f == 'U' || f == 'D' {
            assert {Move([f]), Move([g])} == OppositePairs[1];
          } else {
            assert {Move([f]), Move([g])} == OppositePairs[2];
          }
        }
      }
    }
  }
}
