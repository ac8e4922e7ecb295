/**
 * The list of moves that merges each appended move with its last element
 * (main.py, class MoveList).
 *
 * A MoveList holds a reference to a list object. Adding a move makes a
 * shallow copy of the MoveList, which refers to the same list object, pops the
 * last move from that list and pushes back what `last + move` gives: one move
 * or the unmerged pair. The receiver therefore sees the change as well. Here
 * the list object is the class MoveStore, so that the sharing is explicit.
 */
module MoveLists {
  import opened Moves
  import MoveLaws

  datatype Option<T> = None | Some(value: T)

  /** The moves a sum stands for, in order. */
  function Spread(s: Sum): seq<Move> {
    match s
    case One(m) => [m]
    case Pair(a, b) => [a, b]
  }

  /** Every move of `ms` is neutral or a well-formed turn. */
  predicate AllCanonical(ms: seq<Move>) {
    forall i :: 0 <= i < |ms| ==> Canonical(ms[i])
  }

  /**
   * The contents of the list after adding `m`: the last move is replaced by
   * `last + m`. None when the list is empty, where popping raises.
   */
  function Appended(ms: seq<Move>, m: Move): (r: Option<seq<Move>>)
    ensures r.None? <==> ms == []
    ensures r.Some? ==> |ms| <= |r.value| <= |ms| + 1 && r.value[..|ms| - 1] == ms[..|ms| - 1]
    ensures r.Some? ==> (|r.value| == |ms| <==> Combine(ms[|ms| - 1], m).One?)
    ensures r.Some? && Combine(ms[|ms| - 1], m).One? ==> r.value[|ms| - 1] == Combine(ms[|ms| - 1], m).move
    ensures r.Some? && |r.value| == |ms| + 1 ==> r.value[|ms| - 1..] == [ms[|ms| - 1], m]
    ensures r.Some? && AllCanonical(ms) && Canonical(m) ==> AllCanonical(r.value)
  {
    if ms == [] then None
    else Some(ms[..|ms| - 1] + Spread(Combine(ms[|ms| - 1], m)))
  }

  /** The texts of the moves, in order. */
  function Texts(ms: seq<Move>): (r: seq<string>)
    ensures |r| == |ms| && forall i :: 0 <= i < |ms| ==> r[i] == ms[i].value
  {
    if ms == [] then [] else [ms[0].value] + Texts(ms[1..])
  }

  /** `" ".join(texts)`. */
  function Join(texts: seq<string>): string {
    if |texts| == 0 then ""
    else if |texts| == 1 then texts[0]
    else texts[0] + " " + Join(texts[1..])
  }

  /** `s.split(" ")`: the pieces between single spaces, empty pieces included. */
  function Split(s: string): (r: seq<string>)
    ensures |r| >= 1
  {
    if s == [] then [""]
    else
      var rest := Split(s[1..]);
      if s[0] == ' ' then [""] + rest else [[s[0]] + rest[0]] + rest[1..]
  }

  /** Splitting a text with no space, followed by a space and more text. */
  lemma {:induction false} SplitAfterWord(w: string, t: string)
    requires ' ' !in w
    ensures Split(w + " " + t) == [w] + Split(t)
    ensures Split(w) == [w]
  {
    if w == [] {
      assert w + " " + t == [' '] + t;
      assert (w + " " + t)[1..] == t;
    } else {
      SplitAfterWord(w[1..], t);
      assert (w + " " + t)[1..] == w[1..] + " " + t;
      assert [w[0]] + w[1..] == w;
    }
  }

  /** Splitting the joined texts of moves without spaces recovers the texts. */
  lemma {:induction false} SplitJoin(texts: seq<string>)
    requires |texts| > 0
    requires forall i :: 0 <= i < |texts| ==> ' ' !in texts[i]
    ensures Split(Join(texts)) == texts
  {
    SplitAfterWord(texts[0], "");
    if |texts| > 1 {
      SplitJoin(texts[1..]);
      SplitAfterWord(texts[0], Join(texts[1..]));
      assert [texts[0]] + texts[1..] == texts;
    }
  }

  /** A neutral or well-formed move has no space in its text. */
  lemma CanonicalHasNoSpace(ms: seq<Move>)
    requires AllCanonical(ms)
    ensures forall i :: 0 <= i < |ms| ==> ' ' !in ms[i].value
  {
  }

  /**
   * Joining the texts of a non-empty list of neutral or well-formed moves and
   * splitting the result on spaces gives the texts back, a neutral move as an
   * empty piece. (An empty list joins to "", which splits to [""].)
   */
  lemma JoinedTextsSplit(ms: seq<Move>)
    ensures |ms| > 0 && AllCanonical(ms) ==> Split(Join(Texts(ms))) == Texts(ms)
  {
    if |ms| > 0 && AllCanonical(ms) {
      CanonicalHasNoSpace(ms);
      SplitJoin(Texts(ms));
    }
  }

  /** The list object a MoveList refers to; shallow copies share it. */
  class MoveStore {
    var items: seq<Move>

    constructor (items: seq<Move>)
      ensures this.items == items
    {
      this.items := items;
    }

    /** `list.pop()`: removes and gives the last item; None when empty (IndexError). */
    method Pop() returns (last: Option<Move>)
      modifies this
      ensures old(items) == [] ==> last == None && items == old(items)
      ensures old(items) != [] ==> last == Some(old(items)[|old(items)| - 1])
      ensures old(items) != [] ==> items == old(items)[..|old(items)| - 1]
    {
      if items == [] {
        return None;
      }
      last := Some(items[|items| - 1]);
      items := items[..|items| - 1];
    }

    /** `list += more`. */
    method Extend(more: seq<Move>)
      modifies this
      ensures items == old(items) + more
    {
      items := items + more;
    }
  }

  class MoveList {
    var moves: MoveStore

    /** `MoveList(moves)`: refers to the given list, or to a new empty one when none is given. */
    constructor (moves: MoveStore?)
      ensures moves != null ==> this.moves == moves
      ensures moves == null ==> fresh(this.moves) && this.moves.items == []
    {
      if moves == null {
        this.moves := new MoveStore([]);
      } else {
        this.moves := moves;
      }
    }

    /** `copy(list)`: a shallow copy, referring to the same list object. */
    constructor Copy(source: MoveList)
      ensures moves == source.moves
    {
      moves := source.moves;
    }

    /**
     * `str(list)`: the texts of the moves, in the order iteration yields them,
     * joined by single spaces. For moves without spaces, splitting on spaces
     * gives the texts back, a neutral move showing as an empty piece.
     */
    function ToString(): (s: string)
      reads this, moves
      ensures |moves.items| > 0 && AllCanonical(moves.items) ==> Split(s) == Texts(moves.items)
    {
      JoinedTextsSplit(moves.items);
      Join(Texts(moves.items))
    }

    /**
     * `list + other`: a shallow copy whose (shared) list has its last move
     * replaced by `last + other`. None, with nothing changed, when the list is
     * empty. Moves that were all neutral or well-formed stay so.
     */
    method Add(other: Move) returns (ret: Option<MoveList>)
      modifies moves
      ensures ret.None? <==> old(moves.items) == []
      ensures ret.None? ==> moves.items == old(moves.items)
      ensures ret.Some? ==> fresh(ret.value) && ret.value.moves == moves
      ensures ret.Some? ==> Appended(old(moves.items), other) == Some(moves.items)
      ensures AllCanonical(old(moves.items)) && Canonical(other) ==> AllCanonical(moves.items)
    {
      var copy := new MoveList.Copy(this);
      var last := copy.moves.Pop();
      if last.None? {
        return None;
      }
      copy.moves.Extend(Spread(Combine(last.value, other)));
      return Some(copy);
    }
  }

  /**
   * Adding to a one-move list: `L` then `L'` collapses to the neutral move,
   * `U` then `U` to `U2`, `U` then `U2` to `U'`, and `L` then `R` stays `L R`.
   */
  lemma AppendScenarios()
    ensures Appended([Move("L")], Move("L'")) == Some([Neutral])
    ensures Appended([Move("U")], Move("U")) == Some([Move("U2")])
    ensures Appended([Move("U")], Move("U2")) == Some([Move("U'")])
    ensures Appended([Move("L")], Move("R")) == Some([Move("L"), Move("R")])
  {
    assert Move("L").value + "'" == "L'";
    assert Move("U").value + "2" == "U2";
    assert Move("U").value + "'" == "U'";
    assert Move("L").value + "'" != "R" && Move("L").value + "2" != "R";
  }

  /**
   * Adding looks only at the last move and may leave two turns of one face
   * side by side: `L2` then `L` stays `L2 L`, and a cancelled pair leaves a
   * neutral move in the list rather than dropping it.
   */
  lemma AppendKeepsAdjacentSameFace()
    ensures Appended([Move("L2")], Move("L")) == Some([Move("L2"), Move("L")])
    ensures Appended([Move("R"), Move("L2")], Move("L2")) == Some([Move("R"), Neutral])
  {
    assert FromTurn('L', 2) == Move("L2") && FromTurn('L', 1) == Move("L");
    MoveLaws.CombineSameFace('L', 2, 1);
    MoveLaws.CombineSameFace('L', 2, 2);
    var ms := [Move("R"), Move("L2")];
    assert ms[..1] == [Move("R")] && ms[1] == Move("L2");
    assert Appended(ms, Move("L2")) == Some([Move("R")] + Spread(One(Neutral)));
    assert [Move("R")] + Spread(One(Neutral)) == [Move("R"), Neutral];
  }

  /** The receiver of `+` sees the merged list, and so does the copy it returns. */
  method SharedAfterAdd()
  {
    var store := new MoveStore([Move("L")]);
    var list := new MoveList(store);
    var sum := list.Add(Move("L'"));
    AppendScenarios();
    assert list.moves.items == [Neutral];
    assert sum.Some? && sum.value.moves.items == [Neutral];
    assert list.ToString() == "";

    var empty := new MoveList(null);
    sum := empty.Add(Move("L"));
    assert sum.None? && empty.moves.items == [];
  }
}
