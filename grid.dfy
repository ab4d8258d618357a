/** The inline keyboard `build_grid` draws for a session: five rows of five
    cell buttons, then a Cashout row while the player may still cash out. */
module Grid {
  import opened Game
  import opened Callback

  /** What a cell shows. */
  datatype Label =
    | BombMark   // a bomb
    | GemMark    // an opened cell without a bomb
    | Covered    // an unopened safe cell on the final board
    | Unknown    // an unopened cell during play

  function Text(l: Label): string {
    match l
    case BombMark => "💣"
    case GemMark => "💎"
    case Covered => "🔲"
    case Unknown => "❓"
  }

  datatype Button = Button(text: string, data: string)

  const CASHOUT_BUTTON: Button := Button("💸 Cashout", CASHOUT_DATA)

  /** The label of cell `index`.  The final board (`revealAll`) shows every
      bomb; during play only opened cells show what they hold. */
  function CellLabel(bombs: set<int>, revealed: set<int>, index: int, revealAll: bool): (l: Label)
    ensures l == GemMark <==> index in revealed && index !in bombs
    ensures revealAll ==> (l == BombMark <==> index in bombs)
    ensures !revealAll ==> (l == BombMark <==> index in revealed * bombs)
    ensures l == Covered <==> revealAll && index !in bombs && index !in revealed
    ensures l == Unknown <==> !revealAll && index !in revealed
  {
    if revealAll then
      if index in bombs then BombMark else if index in revealed then GemMark else Covered
    else
      if index !in revealed then Unknown else if index !in bombs then GemMark else BombMark
  }

  /** The button for cell `index` of session `s`. */
  function Cell(s: Session, index: nat, revealAll: bool): Button {
    Button(Text(CellLabel(s.bombs, s.revealed, index, revealAll)), TapData(index))
  }

  /** The Cashout row is offered during play only, never on the final board. */
  predicate CashoutOffered(s: Session, revealAll: bool) {
    !revealAll && s.status == Playing
  }

  /** `kb` is the keyboard of session `s`: row `i`, column `j` is the button of
      cell `5 * i + j`, followed by the Cashout row exactly when it is offered. */
  predicate Renders(kb: seq<seq<Button>>, s: Session, revealAll: bool) {
    && |kb| == (if CashoutOffered(s, revealAll) then 6 else 5)
    && (forall i :: 0 <= i < 5 ==> |kb[i]| == 5)
    && (forall i, j :: 0 <= i < 5 && 0 <= j < 5 ==> kb[i][j] == Cell(s, 5 * i + j, revealAll))
    && (CashoutOffered(s, revealAll) ==> kb[5] == [CASHOUT_BUTTON])
  }

  /** `build_grid`: fills the keyboard row by row. */
  method BuildGrid(s: Session, revealAll: bool) returns (kb: seq<seq<Button>>)
    ensures Renders(kb, s, revealAll)
  {
    kb := [];
    var i := 0;
    while i < 5
      invariant 0 <= i <= 5 && |kb| == i
      invariant forall r :: 0 <= r < i ==> |kb[r]| == 5
      invariant forall r, c :: 0 <= r < i && 0 <= c < 5 ==> kb[r][c] == Cell(s, 5 * r + c, revealAll)
    {
      var row: seq<Button> := [];
      var j := 0;
      while j < 5
        invariant 0 <= j <= 5 && |row| == j
        invariant forall c :: 0 <= c < j ==> row[c] == Cell(s, 5 * i + c, revealAll)
      {
        var index := i * 5 + j;
        var mark: Label;
        if revealAll {
          if index in s.bombs {
            mark := BombMark;
          } else if index in s.revealed {
            mark := GemMark;
          } else {
            mark := Covered;
          }
        } else {
          mark := if index !in s.revealed then Unknown
                   else if index !in s.bombs then GemMark else BombMark;
        }
        row := row + [Button(Text(mark), TapData(index))];
        j := j + 1;
      }
      kb := kb + [row];
      i := i + 1;
    }
    if !revealAll && s.status == Playing {
      kb := kb + [[CASHOUT_BUTTON]];
    }
  }

  /** During play an unopened cell shows the same mark whatever the layout,
      so the keyboard leaks nothing about where the bombs are. */
  lemma PlayViewHidesLayout(s: Session, t: Session, kb: seq<seq<Button>>, i: nat, j: nat)
    requires Renders(kb, s, false) && i < 5 && j < 5
    requires t.revealed == s.revealed && 5 * i + j !in s.revealed
    ensures kb[i][j] == Cell(t, 5 * i + j, false)
    ensures kb[i][j].text == "❓"
  {
  }

  /** During play (and after a cash-out) no cell shows a bomb, because no
      opened cell holds one. */
  lemma PlayViewShowsNoBomb(s: Session, kb: seq<seq<Button>>, i: nat, j: nat)
    requires WellFormed(s) && s.status != Lost
    requires Renders(kb, s, false) && i < 5 && j < 5
    ensures kb[i][j].text != Text(BombMark)
  {
  }

  /** The final board marks exactly the bomb cells with a bomb. */
  lemma FinalBoardShowsLayout(s: Session, kb: seq<seq<Button>>, i: nat, j: nat)
    requires Renders(kb, s, true) && i < 5 && j < 5
    ensures kb[i][j].text == Text(BombMark) <==> 5 * i + j in s.bombs
    ensures kb[i][j].text == Text(GemMark) <==> 5 * i + j in s.revealed - s.bombs
  {
  }

  /** Every cell button, handed back to the callback handler, is read as a
      tap on that very cell. */
  lemma ButtonsReadBack(s: Session, revealAll: bool, kb: seq<seq<Button>>)
    requires Renders(kb, s, revealAll)
    ensures forall i, j :: 0 <= i < 5 && 0 <= j < 5 ==> Parse(kb[i][j].data) == TapAt(5 * i + j)
    ensures CashoutOffered(s, revealAll) ==> Parse(kb[5][0].data) == Callback.CashOut
  {
    forall i, j | 0 <= i < 5 && 0 <= j < 5
      ensures Parse(kb[i][j].data) == TapAt(5 * i + j)
    {
      ParseTapData(5 * i + j);
    }
  }
}
