/** The bot's game state and its handlers: the user store (`get_user`,
    `update_coins`), the session table (`start_game`), the `/mine` command and
    the callback handler for `tap:<n>` and `cashout`.

    The user store stands in for the TinyDB file as a map from user id to
    record; the session table is the in-memory dictionary `games`.  The bomb
    set that `random.sample` draws is a parameter.  Replies stand for the
    message the bot sends or edits; the keyboard a reply carries is the one
    `build_grid` draws.
 */
module Bot {
  import opened Payout
  import opened Game
  import opened Callback
  import opened Grid

  const DEFAULT_COINS: nat := 100

  /** A user record: display name and coin balance. */
  datatype Account = Account(name: string, coins: int)

  /** What the handler answers. */
  datatype Reply =
    | Started(grid: seq<seq<Button>>)            // "<name>'s game started!"
    | Rejected(reason: Check)                    // "Min 10 coins, mines 1-24." or "Insufficient coins."
    | NoActiveGame                               // "No active game."
    | Boom(grid: seq<seq<Button>>)               // "Boom! You hit a bomb!"
    | Nice(grid: seq<seq<Button>>)               // "Nice! Tap more or cashout:"
    | CashedOut(gems: nat, reward: nat, grid: seq<seq<Button>>)
    | Silent                                     // the handler returns without a message
    | Crashed                                    // `int()` raised inside the handler

  /** The record `get_user` returns: the stored one, or a fresh one with 100 coins. */
  function Lookup(accounts: map<int, Account>, u: int, name: string): (a: Account)
    ensures u in accounts ==> a == accounts[u]
    ensures u !in accounts ==> a.coins == 100 && a.name == name
  {
    if u in accounts then accounts[u] else Account(name, DEFAULT_COINS)
  }

  /** Whether user `u` has a session the callback handler will act on. */
  predicate Active(games: map<int, Session>, u: int) {
    u in games && games[u].status == Playing
  }

  class MinesBot {
    var games: map<int, Session>
    var accounts: map<int, Account>

    /** Every session belongs to a known user and is well-formed; no balance
        is negative. */
    ghost predicate Valid()
      reads this
    {
      && games.Keys <= accounts.Keys
      && (forall u :: u in games ==> WellFormed(games[u]))
      && (forall u :: u in accounts ==> accounts[u].coins >= 0)
    }

    constructor ()
      ensures Valid()
      ensures games == map[] && accounts == map[]
    {
      games := map[];
      accounts := map[];
    }

    /** `get_user`: the user's record, created with 100 coins on first contact. */
    method GetUser(u: int, name: string) returns (acct: Account)
      requires Valid()
      modifies this
      ensures Valid()
      ensures acct == Lookup(old(accounts), u, name)
      ensures accounts == old(accounts)[u := acct] && games == old(games)
    {
      if u in accounts {
        acct := accounts[u];
      } else {
        acct := Account(name, DEFAULT_COINS);
        accounts := accounts[u := acct];
      }
    }

    /** `update_coins`: overwrites the balance of a stored user; an unknown
        user is left alone, as an update that matches no record. */
    method UpdateCoins(u: int, coins: int)
      requires Valid()
      modifies this
      ensures coins >= 0 ==> Valid()
      ensures games == old(games)
      ensures accounts == if u in old(accounts) then old(accounts)[u := old(accounts)[u].(coins := coins)]
                          else old(accounts)
    {
      if u in accounts {
        accounts := accounts[u := accounts[u].(coins := coins)];
      }
    }

    /** `start_game`: stores a fresh session for `u`, replacing whatever
        session `u` had, playing or not.  It is reached only after the
        `/mine` checks, and `bombs` is the layout drawn for it. */
    method StartGame(u: int, amount: int, mines: int, bombs: set<int>)
      requires Valid() && u in accounts
      requires amount >= MIN_BET && 1 <= mines < GRID_CELLS && IsLayout(bombs, mines)
      modifies this
      ensures Valid()
      ensures games == old(games)[u := NewSession(bombs, amount, mines)]
      ensures accounts == old(accounts)
    {
      games := games[u := Session(bombs, {}, amount, mines, Playing)];
    }

    /** The `/mine <amount> <mines>` command once its arguments are read.
        A rejected command stores nothing but the user record `get_user`
        may have created; an accepted one replaces the user's session and
        debits the stake from the balance read at the start. */
    method Mine(u: int, name: string, amount: int, mines: int, bombs: set<int>) returns (reply: Reply)
      requires Valid()
      requires 1 <= mines < GRID_CELLS ==> IsLayout(bombs, mines)
      modifies this
      ensures Valid()
      ensures CheckStart(amount, mines, Lookup(old(accounts), u, name).coins) != Accepted ==>
        && games == old(games)
        && accounts == old(accounts)[u := Lookup(old(accounts), u, name)]
        && reply == Rejected(CheckStart(amount, mines, Lookup(old(accounts), u, name).coins))
      ensures CheckStart(amount, mines, Lookup(old(accounts), u, name).coins) == Accepted ==>
        var acct := Lookup(old(accounts), u, name);
        && games == old(games)[u := NewSession(bombs, amount, mines)]
        && accounts == old(accounts)[u := acct.(coins := acct.coins - amount)]
        && reply.Started? && Renders(reply.grid, games[u], false)
    {
      var acct := GetUser(u, name);
      if amount < MIN_BET || mines < 1 || mines >= GRID_CELLS {
        reply := Rejected(BadParams);
        return;
      }
      if acct.coins < amount {
        reply := Rejected(Insufficient);
        return;
      }
      StartGame(u, amount, mines, bombs);
      UpdateCoins(u, acct.coins - amount);
      var kb := BuildGrid(games[u], false);
      reply := Started(kb);
    }

    /** The callback handler for a button press with payload `data`. */
    method HandleCallback(u: int, name: string, data: string) returns (reply: Reply)
      requires Valid()
      modifies this
      ensures Valid()
      ensures !Active(old(games), u) ==>
        && games == old(games)
        && accounts == old(accounts)[u := Lookup(old(accounts), u, name)]
        && reply == NoActiveGame
      ensures Active(old(games), u) && Parse(data).TapAt? ==>
        var s, index := old(games)[u], Parse(data).index;
        && games == old(games)[u := Reveal(s, index)]
        && accounts == old(accounts)
        && (index in s.revealed ==> reply == Silent)
        && (index !in s.revealed && index in s.bombs ==> reply.Boom? && Renders(reply.grid, games[u], true))
        && (index !in s.revealed && index !in s.bombs ==> reply.Nice? && Renders(reply.grid, games[u], false))
      ensures Active(old(games), u) && Parse(data).CashOut? ==>
        var s := old(games)[u];
        && games == old(games)[u := Settle(s)]
        && accounts == old(accounts)[u := old(accounts)[u].(coins := old(accounts)[u].coins + Reward(s.bet, Gems(s)))]
        && reply.CashedOut? && reply.gems == Gems(s) && reply.reward == Reward(s.bet, Gems(s))
        && Renders(reply.grid, games[u], true)
      ensures Active(old(games), u) && Parse(data).Ignored? ==>
        games == old(games) && accounts == old(accounts) && reply == Silent
      ensures Active(old(games), u) && Parse(data).Malformed? ==>
        games == old(games) && accounts == old(accounts) && reply == Crashed
    {
      var acct := GetUser(u, name);
      if u !in games || games[u].status != Playing {
        reply := NoActiveGame;
        return;
      }
      match Parse(data)
      case TapAt(index) =>
        reply := Tap(u, index);
      case CashOut =>
        reply := Cashout(u);
      case Ignored =>
        reply := Silent;
      case Malformed =>
        reply := Crashed;
    }

    /** The `tap:` branch: opens `index`; a bomb loses the session on the spot. */
    method Tap(u: int, index: int) returns (reply: Reply)
      requires Valid() && Active(games, u)
      modifies this
      ensures Valid()
      ensures games == old(games)[u := Reveal(old(games)[u], index)]
      ensures accounts == old(accounts)
      ensures index in old(games)[u].revealed ==> reply == Silent
      ensures index !in old(games)[u].revealed && index in old(games)[u].bombs ==>
        reply.Boom? && Renders(reply.grid, games[u], true)
      ensures index !in old(games)[u].revealed && index !in old(games)[u].bombs ==>
        reply.Nice? && Renders(reply.grid, games[u], false)
    {
      var s := games[u];
      if index in s.revealed {
        reply := Silent;
        return;
      }
      RevealKeepsWellFormed(s, index);
      if index in s.bombs {
        games := games[u := games[u].(revealed := games[u].revealed + {index})];
        games := games[u := games[u].(status := Lost)];
        var kb := BuildGrid(games[u], true);
        reply := Boom(kb);
      } else {
        games := games[u := games[u].(revealed := games[u].revealed + {index})];
        var kb := BuildGrid(games[u], false);
        reply := Nice(kb);
      }
    }

    /** The `cashout` branch: credits the reward for the opened cells to the
        balance and closes the session. */
    method Cashout(u: int) returns (reply: Reply)
      requires Valid() && Active(games, u)
      modifies this
      ensures Valid()
      ensures games == old(games)[u := Settle(old(games)[u])]
      ensures accounts == old(accounts)[u := old(accounts)[u].(coins := old(accounts)[u].coins
                                                             + Reward(old(games)[u].bet, Gems(old(games)[u])))]
      ensures reply.CashedOut? && reply.gems == Gems(old(games)[u])
      ensures reply.reward == Reward(old(games)[u].bet, Gems(old(games)[u]))
      ensures Renders(reply.grid, games[u], true)
    {
      var coins := accounts[u].coins;  // the balance `get_user` read for this update
      var gems := |games[u].revealed|;
      var bet := games[u].bet;
      var reward: nat;
      if gems == 0 {
        reward := 0;
      } else {
        reward := bet * MultiplierHundredths(gems) / 100;
      }
      UpdateCoins(u, coins + reward);
      SettleKeepsWellFormed(games[u]);
      games := games[u := games[u].(status := Cashed)];
      var kb := BuildGrid(games[u], true);
      reply := CashedOut(gems, reward, kb);
    }
  }

  /** A new player stakes 20 on five mines, opens a safe cell and cashes out:
      80 coins after the stake, 26 back, 106 in the end. */
  method WinScenario() returns (balance: int, status: Status, reward: nat)
    ensures balance == 106 && status == Cashed && reward == 26
  {
    var bot := new MinesBot();
    var r := bot.Mine(1, "Ann", 20, 5, {0, 1, 2, 3, 4});
    assert bot.accounts[1].coins == 80;
    ParseTapData(7);
    assert TapData(7) == "tap:7";
    r := bot.HandleCallback(1, "Ann", "tap:7");
    assert Parse(CASHOUT_DATA) == CashOut;
    r := bot.HandleCallback(1, "Ann", "cashout");
    RewardExamples();
    balance, status, reward := bot.accounts[1].coins, bot.games[1].status, r.reward;
  }

  /** A new player stakes 50 on ten mines and hits a bomb at once: the stake
      is gone and nothing is credited. */
  method LossScenario() returns (balance: int, status: Status)
    ensures balance == 50 && status == Lost
  {
    var bot := new MinesBot();
    var r := bot.Mine(1, "Bo", 50, 10, {0, 1, 2, 3, 4, 5, 6, 7, 8, 9});
    ParseTapData(3);
    assert TapData(3) == "tap:3";
    r := bot.HandleCallback(1, "Bo", "tap:3");
    balance, status := bot.accounts[1].coins, bot.games[1].status;
  }

  /** Starting a second game while the first is still playing replaces it:
      the first stake is not refunded. */
  method RestartScenario() returns (balance: int, bet: nat)
    ensures balance == 50 && bet == 30
  {
    var bot := new MinesBot();
    var r := bot.Mine(1, "Cy", 20, 1, {0});
    r := bot.Mine(1, "Cy", 30, 1, {24});
    balance, bet := bot.accounts[1].coins, bot.games[1].bet;
  }
}
