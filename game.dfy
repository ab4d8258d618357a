/** One Mines session and its transitions, as values.

    The bot keeps a session per user in the dictionary `games`: the bomb set,
    the set of opened indices (field `revealed` here, since `opened` is a
    Dafny keyword), the stake, the mine count and a status string
    (`'playing'`, `'lost'` or `'cashed'`).  The functions here give the new
    session each handler leaves behind; the class in module Bot applies them
    to its map of sessions.
 */
module Game {
  import opened Payout

  const GRID_CELLS: nat := 25
  const MIN_BET: nat := 10

  datatype Status = Playing | Lost | Cashed

  datatype Session = Session(bombs: set<int>, revealed: set<int>, bet: nat, mines: nat, status: Status)

  /** A bomb layout as `random.sample(range(25), mines)` draws it:
      `mines` distinct cell indices. */
  predicate IsLayout(bombs: set<int>, mines: int) {
    |bombs| == mines && forall b :: b in bombs ==> 0 <= b < GRID_CELLS
  }

  /** The outcome of the `/mine` checks. */
  datatype Check = Accepted | BadParams | Insufficient

  /** The `/mine` checks, in the bot's order: stake and mine count first,
      then the balance. */
  function CheckStart(amount: int, mines: int, coins: int): (c: Check)
    ensures c == Accepted <==> amount >= MIN_BET && 1 <= mines < GRID_CELLS && coins >= amount
    ensures c == BadParams <==> amount < MIN_BET || mines < 1 || mines >= GRID_CELLS
    ensures c == Accepted ==> coins - amount >= 0
  {
    if amount < MIN_BET || mines < 1 || mines >= GRID_CELLS then BadParams
    else if coins < amount then Insufficient
    else Accepted
  }

  /** What every session in the table satisfies.  Its layout is a valid draw
      for its mine count and stake that passed the checks; a session that is
      not lost has revealed no bomb, and a lost one has revealed exactly one. */
  ghost predicate WellFormed(s: Session) {
    && IsLayout(s.bombs, s.mines)
    && 1 <= s.mines < GRID_CELLS
    && s.bet >= MIN_BET
    && (s.status != Lost ==> s.revealed * s.bombs == {})
    && (s.status == Lost ==> |s.revealed * s.bombs| == 1)
  }

  /** The session `start_game` stores. */
  function NewSession(bombs: set<int>, amount: nat, mines: nat): (s: Session)
    requires IsLayout(bombs, mines) && 1 <= mines < GRID_CELLS && amount >= MIN_BET
    ensures WellFormed(s)
    ensures s.status == Playing && s.revealed == {}
    ensures s.bombs == bombs && |s.bombs| == mines && s.bet == amount
  {
    Session(bombs, {}, amount, mines, Playing)
  }

  /** A tap on `index` of a session that is still playing.  The index is not
      range-checked.  An index already revealed changes nothing; otherwise it is
      revealed, and the session is lost exactly when it holds a bomb. */
  function Reveal(s: Session, index: int): (r: Session)
    requires s.status == Playing
    ensures index in s.revealed ==> r == s
    ensures index !in s.revealed ==> r.revealed == s.revealed + {index}
    ensures index !in s.revealed ==> (r.status == Lost <==> index in s.bombs)
    ensures r.status != Cashed
    ensures r.bombs == s.bombs && r.bet == s.bet && r.mines == s.mines
  {
    if index in s.revealed then s
    else if index in s.bombs then s.(revealed := s.revealed + {index}, status := Lost)
    else s.(revealed := s.revealed + {index})
  }

  /** The number of gems a cash-out pays for: every revealed index counts. */
  function Gems(s: Session): (g: nat)
    ensures g == 0 <==> s.revealed == {}
  {
    |s.revealed|
  }

  /** The session after a cash-out; the coins credited are
      `Reward(s.bet, Gems(s))`. */
  function Settle(s: Session): (r: Session)
    requires s.status == Playing
    ensures r.status == Cashed
    ensures r.bombs == s.bombs && r.revealed == s.revealed && r.bet == s.bet && r.mines == s.mines
  {
    s.(status := Cashed)
  }

  /** A tap keeps the session invariant: in particular a bomb tap leaves
      `Playing` in the same step, so a playing session never holds a bomb
      among its revealed cells. */
  lemma RevealKeepsWellFormed(s: Session, index: int)
    requires WellFormed(s) && s.status == Playing
    ensures WellFormed(Reveal(s, index))
    ensures Reveal(s, index).status == Lost <==> index in s.bombs
  {
    var r := Reveal(s, index);
    if index in s.bombs {
      assert index !in s.revealed;
      assert r.revealed * r.bombs == {index};
    } else {
      assert r.revealed * r.bombs == s.revealed * s.bombs;
    }
  }

  /** A cash-out keeps the session invariant, and the credit is never smaller
      than the stake once a gem was found. */
  lemma SettleKeepsWellFormed(s: Session)
    requires WellFormed(s) && s.status == Playing
    ensures WellFormed(Settle(s))
    ensures Gems(s) > 0 ==> Reward(s.bet, Gems(s)) >= s.bet
    ensures Gems(s) == 0 <==> Reward(s.bet, Gems(s)) == 0
  {
  }

  /** A tap outside the grid is never a bomb, so it counts as one more gem. */
  lemma OffGridTapIsGem(s: Session, index: int)
    requires WellFormed(s) && s.status == Playing
    requires index < 0 || index >= GRID_CELLS
    requires index !in s.revealed
    ensures Reveal(s, index).status == Playing
    ensures Gems(Reveal(s, index)) == Gems(s) + 1
  {
  }

  /** The session after a run of taps, each made through the callback
      handler: once the session is no longer playing, every further tap is
      turned away with "No active game".  No run of taps moves the layout or
      the stake, or closes an opened cell. */
  function Play(s: Session, taps: seq<int>): (r: Session)
    ensures r.bombs == s.bombs && r.bet == s.bet && r.mines == s.mines
    ensures s.revealed <= r.revealed
    ensures s.status != Playing ==> r == s
    decreases |taps|
  {
    if taps == [] || s.status != Playing then s else Play(Reveal(s, taps[0]), taps[1..])
  }

  /** Any run of taps on a well-formed session keeps it well-formed, only
      ever adds tapped indices to `revealed`, and never cashes it out. */
  lemma {:induction false} PlayKeepsWellFormed(s: Session, taps: seq<int>)
    requires WellFormed(s)
    ensures WellFormed(Play(s, taps))
    ensures forall i :: i in Play(s, taps).revealed ==> i in s.revealed || i in taps
    ensures s.status != Cashed ==> Play(s, taps).status != Cashed
    decreases |taps|
  {
    if taps != [] && s.status == Playing {
      RevealKeepsWellFormed(s, taps[0]);
      PlayKeepsWellFormed(Reveal(s, taps[0]), taps[1..]);
    }
  }

  /** Starting from a playing session, a run of taps loses the game exactly
      when one of the taps is on a bomb. */
  lemma {:induction false} PlayLostIff(s: Session, taps: seq<int>)
    requires WellFormed(s) && s.status == Playing
    ensures Play(s, taps).status == Lost <==> exists k :: 0 <= k < |taps| && taps[k] in s.bombs
    ensures Play(s, taps).status == Playing ==> Play(s, taps).revealed == s.revealed + set k | 0 <= k < |taps| :: taps[k]
    decreases |taps|
  {
    if taps != [] {
      var r := Reveal(s, taps[0]);
      RevealKeepsWellFormed(s, taps[0]);
      if r.status == Playing {
        PlayLostIff(r, taps[1..]);
        assert forall k :: 1 <= k < |taps| ==> taps[k] == taps[1..][k - 1];
        assert forall k :: 0 <= k < |taps| - 1 ==> taps[1..][k] == taps[k + 1];
        assert (set k | 0 <= k < |taps| :: taps[k]) == {taps[0]} + set k | 0 <= k < |taps| - 1 :: taps[1..][k];
      } else {
        assert taps[0] in s.bombs;
      }
    }
  }
}
