/** The attendance board (components/StampBoard.tsx): a counter and one cell per stamp. */
module StampBoard {
  import opened Types
  import opened Constants

  /** The counter's denominator, written as a literal in the component. */
  const BOARD_TOTAL: nat := 10

  /** `stamps.filter(s => s.achieved)`: the earned stamps, in list order. */
  function Achieved(stamps: seq<Stamp>): (r: seq<Stamp>)
    ensures |r| <= |stamps|
    ensures forall k :: 0 <= k < |r| ==> r[k].achieved
  {
    if stamps == [] then []
    else
      var last := stamps[|stamps| - 1];
      Achieved(stamps[..|stamps| - 1]) + (if last.achieved then [last] else [])
  }

  /** The numerator of the counter. */
  function AchievedCount(stamps: seq<Stamp>): (n: nat)
    ensures n <= |stamps|
  {
    |Achieved(stamps)|
  }

  /** The positions of the earned stamps, an independent description of what the counter counts. */
  function AchievedPositions(stamps: seq<Stamp>): set<nat> {
    set i: nat | i < |stamps| && stamps[i].achieved
  }

  /** The counter is the number of stamps with `achieved` set. */
  lemma {:induction false} AchievedCountIsPositions(stamps: seq<Stamp>)
    ensures AchievedCount(stamps) == |AchievedPositions(stamps)|
  {
    if stamps != [] {
      var n := |stamps| - 1;
      var init := stamps[..n];
      AchievedCountIsPositions(init);
      var before := AchievedPositions(init);
      if stamps[n].achieved {
        assert AchievedPositions(stamps) == before + {n};
        assert n !in before;
      } else {
        assert AchievedPositions(stamps) == before;
      }
    }
  }

  /** The counter equals the list length exactly when every stamp is earned. */
  lemma {:induction false} AchievedCountFull(stamps: seq<Stamp>)
    ensures AchievedCount(stamps) == |stamps| <==> forall k :: 0 <= k < |stamps| ==> stamps[k].achieved
  {
    if stamps != [] {
      var n := |stamps| - 1;
      AchievedCountFull(stamps[..n]);
      assert forall k :: 0 <= k < n ==> stamps[..n][k] == stamps[k];
    }
  }

  /** The counter is zero exactly when no stamp is earned. */
  lemma {:induction false} AchievedCountZero(stamps: seq<Stamp>)
    ensures AchievedCount(stamps) == 0 <==> forall k :: 0 <= k < |stamps| ==> !stamps[k].achieved
  {
    if stamps != [] {
      var n := |stamps| - 1;
      AchievedCountZero(stamps[..n]);
      assert forall k :: 0 <= k < n ==> stamps[..n][k] == stamps[k];
    }
  }

  /** What one stamp's cell shows: a check mark when earned, otherwise its id. */
  datatype Cell = CheckMark | IdLabel(id: int)

  /** The board as drawn: "achieved / 10" and the cells. */
  datatype Board = Board(achieved: nat, total: nat, cells: seq<Cell>)

  function CellOf(st: Stamp): (c: Cell)
    ensures c.CheckMark? <==> st.achieved
    ensures c.IdLabel? ==> c.id == st.id
  {
    if st.achieved then CheckMark else IdLabel(st.id)
  }

  /** Renders the board; the denominator does not depend on the list. */
  function Render(stamps: seq<Stamp>): (b: Board)
    ensures b.achieved == AchievedCount(stamps) && b.achieved <= |stamps|
    ensures b.total == 10
    ensures |b.cells| == |stamps|
    ensures forall k :: 0 <= k < |stamps| ==> (b.cells[k] == if stamps[k].achieved then CheckMark else IdLabel(stamps[k].id))
  {
    Board(AchievedCount(stamps), BOARD_TOTAL, seq(|stamps|, k requires 0 <= k < |stamps| => CellOf(stamps[k])))
  }

  /** With the seed stamps the board reads 3 / 10. */
  lemma InitialBoard()
    ensures Render(INITIAL_STAMPS).achieved == 3
    ensures Render(INITIAL_STAMPS).total == 10
  {
    AchievedCountIsPositions(INITIAL_STAMPS);
    InitialStampsShape();
    assert AchievedPositions(INITIAL_STAMPS) == {0, 1, 2};
  }
}
