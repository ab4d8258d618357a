# Mines bot: a Dafny model of its game core

The bot is a Telegram "Mines" wager game on a 5x5 grid. Each user has a coin
balance, and starts with 100 coins on first contact. `/mine <amount> <mines>`
stakes coins on a fresh grid with `mines` hidden bombs. Each tile button opens
a cell: a bomb loses the stake, a gem raises the cash-out multiplier by 0.3.
The Cashout button ends the game. It pays nothing when no gem was found, and
`floor(stake * (1 + 0.3 * gems))` otherwise.

The model has five modules, one per part of `main.py`:

- `Payout` (payout.dfy): the cash-out reward. The multiplier is kept exactly,
  in hundredths.
- `Callback` (callback.dfy): the `callback_data` strings the buttons carry
  (`tap:<n>` and `cashout`), and how the callback handler classifies them.
- `Game` (game.dfy): a session as a value, with its bombs, opened cells,
  stake, mine count and status. It holds the `/mine` checks, the transitions
  a tap and a cash-out make, the session invariant, and runs of taps.
- `Grid` (grid.dfy): `build_grid` as a method with the source's nested loops.
  It is proved against the predicate `Renders`, which describes the keyboard
  cell by cell.
- `Bot` (bot.dfy): the class `MinesBot`. It holds the session table `games`
  and the user store `accounts` as map fields. Its methods are `get_user`,
  `update_coins`, `start_game`, the `/mine` command and the callback handler
  with its `tap:` and `cashout` branches. Three client methods replay
  end-to-end games.

The session invariant (`Game.WellFormed`, kept by `Bot.MinesBot.Valid`) says:

- the bombs are `mines` distinct cells of the grid;
- a session that is not lost has opened no bomb;
- a lost session has opened exactly one bomb.

A tap on a bomb moves the session to lost within the same call.

Environment stand-ins:

- The bomb layout that `random.sample` draws is a parameter of `Mine`. Any set
  of `mines` distinct indices in `[0, 25)` is allowed.
- The user store is an in-memory map. A missing user gets the record `get_user`
  would insert.
- Messages the bot sends or edits are `Bot.Reply` values. Where a message
  carries a keyboard, the reply carries the keyboard that `BuildGrid` built.

## Quirks of the code the model keeps

The model follows the code in each of these places:

- `/mine` does not check for a session that is still playing
  (`main.py:100`). The new session replaces the old one, and the old stake is
  not refunded. `Bot.RestartScenario` shows this.
- The tap index is never range-checked (`main.py:121`). An index outside
  `0..24` is never a bomb, so it counts as one more gem toward the payout
  (`Game.OffGridTapIsGem`). A negative index written `tap:-3` is read too.
- A cash-out with no gems is accepted and pays 0 (`main.py:136-137`).
- Tapping an opened cell ends the call without a message or an error
  (`main.py:122-123`).
- Balances are written with `update_coins` as absolute values
  (`main.py:20-21`). They are computed from the balance `get_user` read at the
  start of the same update. There is no separate debit or credit operation.
- The session table holds one session per user and never removes one. A lost
  or cashed session stays until the next `/mine` replaces it.

## Model

| member | source | states |
|---|---|---|
| `Payout.Reward` | main.py:134-140 | no gems pays 0; otherwise the reward is the floor of bet * (100 + 30 * gems) / 100 |
| `Payout.RewardCoversStake` | main.py:138-140 | with at least one gem the reward is at least the stake |
| `Payout.RewardZeroIff` | main.py:136-140 | the reward is 0 exactly when there are no gems or the stake is 0 |
| `Payout.RewardMonotone` | main.py:139-140 | more gems never pay less |
| `Payout.RewardStep` | main.py:139-140 | each further gem adds 0.3 of the stake to within one coin, either way |
| `Payout.RewardExamples` | main.py:134-140 | stake 20 with 1 gem pays 26; stake 100 with 3 gems pays 190; 0 gems pays 0 |
| `Callback.Decimal` | main.py:52 | the decimal text of an index is non-empty, all digits, and has no leading zero |
| `Callback.DecimalRoundTrip` | main.py:52 | reading the decimal text of n back gives n |
| `Callback.TapData` | main.py:52 | the payload of a cell button is `tap:` followed by decimal digits whose value is the cell index |
| `Callback.ParseInt` | main.py:121 | a field is read exactly when it is ASCII digits with an optional `+` or `-` sign, and its value is the signed value of the digits |
| `Callback.ParseIntRoundTrip` | main.py:121 | the decimal text of n, bare or with `+`, reads as n; with `-` it reads as -n |
| `Callback.Field` | main.py:121 | the first `:`-separated field is a colon-free prefix, ended by a colon or the end |
| `Callback.FieldOfDigits` | main.py:121 | a digit string is its own first field |
| `Callback.Parse` | main.py:120-121 | a payload counts as cashout exactly when it equals `cashout`; it is ignored exactly when it neither starts with `tap:` nor equals `cashout`; a tap is on the integer `int()` reads from the first field after `tap:`, and a field it cannot read is malformed |
| `Callback.ParseTapData` | main.py:52 | the payload `tap:<n>` of every cell button reads back as a tap on n |
| `Callback.ParseIgnoresLaterFields` | main.py:121 | `tap:7:x` taps 7, `tap:-3` taps -3, and `tap:` and `tap:x` make `int()` raise |
| `Game.CheckStart` | main.py:94-99 | a start is accepted exactly when stake >= 10, 1 <= mines <= 24 and balance >= stake; bad parameters are reported before an insufficient balance |
| `Game.NewSession` | main.py:58-65 | a new session is well-formed and playing, with nothing opened, the given bombs and \|bombs\| = mines |
| `Game.Reveal` | main.py:122-131 | an opened index changes nothing; otherwise the index is added to opened and the session is lost exactly when it is a bomb; bombs and bet unchanged |
| `Game.Gems` | main.py:134 | the gem count is 0 exactly when nothing is opened |
| `Game.Settle` | main.py:142 | a cash-out sets the status to cashed and changes nothing else |
| `Game.RevealKeepsWellFormed` | main.py:125-131 | a tap keeps the invariant: no opened bomb while not lost; the tap loses exactly when it hits a bomb |
| `Game.SettleKeepsWellFormed` | main.py:134-142 | a cash-out keeps the invariant; the credit is 0 exactly with no gems, and at least the stake otherwise |
| `Game.OffGridTapIsGem` | main.py:121-131 | a new tap outside 0..24 keeps the game playing and adds one gem |
| `Game.Play` | main.py:116-131 | a run of taps through the handler never changes the bombs, stake or mine count and never closes an opened cell; once the session is not playing, taps change nothing |
| `Game.PlayKeepsWellFormed` | main.py:116-131 | any run of taps keeps the invariant; opened grows only by tapped indices; taps never cash out |
| `Game.PlayLostIff` | main.py:116-131 | a run of taps loses exactly when some tap is on a bomb; if still playing, opened gained exactly the tapped indices |
| `Grid.CellLabel` | main.py:41-51 | 💎 exactly for opened cells that hold no bomb; 💣 for every bomb on the final board, and during play only for an opened bomb; 🔲 for unopened safe cells on the final board; ❓ for every unopened cell during play |
| `Grid.BuildGrid` | main.py:35-56 | 5 rows of 5 buttons, where cell (i, j) carries `tap:{5i+j}` and its label; the Cashout row is added exactly when not revealing all and still playing |
| `Grid.PlayViewHidesLayout` | main.py:49-51 | during play an unopened cell shows ❓ whatever the layout |
| `Grid.PlayViewShowsNoBomb` | main.py:49-51 | the play view of a session that is not lost shows no bomb |
| `Grid.FinalBoardShowsLayout` | main.py:41-47 | the final board marks exactly the bombs with 💣 and exactly the opened safe cells with 💎 |
| `Grid.ButtonsReadBack` | main.py:52-55 | every cell button's payload is read by the handler as a tap on that cell; the Cashout button as a cash-out |
| `Bot.Lookup` | main.py:13-18 | the record `get_user` returns is the stored one, or a new one with the given name and 100 coins |
| `Bot.MinesBot.constructor` | main.py:9-11 | the bot starts with no sessions and no users |
| `Bot.MinesBot.GetUser` | main.py:13-18 | returns the stored record, or inserts and returns one with 100 coins; sessions unchanged |
| `Bot.MinesBot.UpdateCoins` | main.py:20-21 | overwrites the balance of a stored user and nothing else; no effect for an unknown user |
| `Bot.MinesBot.StartGame` | main.py:58-65 | stores a new playing session for the user, replacing any previous one |
| `Bot.MinesBot.Mine` | main.py:86-102 | on rejection neither the sessions nor the balance change; on acceptance the new session replaces the old one and the balance drops by exactly the stake |
| `Bot.MinesBot.HandleCallback` | main.py:106-143 | with no playing session the sessions and every stored balance stay as they were (`get_user` may add the tapper with 100 coins), and the reply is "No active game"; otherwise it dispatches on the payload to tap, cash-out, ignore or crash |
| `Bot.MinesBot.Tap` | main.py:120-131 | the session becomes `Reveal(old, index)` and balances are unchanged; a bomb answers with the final board, a gem with the play board, an opened cell with nothing |
| `Bot.MinesBot.Cashout` | main.py:133-143 | credits exactly `Reward(bet, gems)` to the balance, sets the status to cashed and answers with the gems, the reward and the final board |
| `Bot.WinScenario` | main.py:100-101 | 100 coins, stake 20 on 5 mines, one safe tap, then cash-out: reward 26, balance 106, status cashed |
| `Bot.LossScenario` | main.py:125-127 | 100 coins, stake 50 on 10 mines, then a bomb tap: balance 50, status lost |
| `Bot.RestartScenario` | main.py:100 | a second `/mine` while playing replaces the session; both stakes are debited, the first is not refunded |

Helpers without a row of their own are described by the rows of the members
that use them:
- `Payout.MultiplierHundredths`: the multiplier at `main.py:139`;
- `Bot.Active`: the guard at `main.py:116`;
- `Grid.CashoutOffered`: the test at `main.py:54`;
- `Grid.Cell` and `Grid.Text`: the button and label text at `main.py:43-52`;
- `Game.IsLayout`: the draw at `main.py:59-60`.

`Bot.MinesBot.StartGame` requires a validated stake and mine count and a valid
layout. `start_game` is only reached after the `/mine` checks at
`main.py:94-99`, with the layout `random.sample` draws.

## Left out

- Flask routing and JSON update parsing (`main.py:67-78`, `main.py:106-114`)
  are left out: they are transport. The model starts from the user id, the
  display name and the button payload or command arguments.
- `/mine` argument parsing is left out: the wrong-count usage message, `int()`
  on the arguments and the bare `except`. `Mine` takes the stake and the mine
  count as parsed integers.
- The `/start` and `/balance` commands (`main.py:80-84`) only send text. The
  `get_user` call they make is modelled.
- `send_message` and `edit_message` (`main.py:23-33`) are HTTP calls to
  Telegram with no game effect. `Bot.Reply` values stand for the messages.
- TinyDB persistence (`main.py:9-10`) is an in-memory map. The display name is
  stored on first contact and never updated, as in the code.
- `random.sample` (`main.py:60`) is not modelled: randomness cannot be
  verified, so the layout is an input.
- The float multiplier `round(1 + gems * 0.3, 2)` and the `int()` truncation
  (`main.py:139-140`) are computed exactly in hundredths. While the exact
  product of stake and multiplier is below 10^13 coins, the float reward
  equals the exact one. It can be one coin lower only when the exact product
  is a whole number. Above that range the float can miss by one coin or more,
  in either direction. Stakes above 2^53 are rounded before the multiplication.
  This range is reachable, because balances have no upper limit and off-grid
  taps allow any number of gems. From about 1.8 * 10^308 coins on,
  `bet * multiplier` raises `OverflowError` before `update_coins` runs, so the
  bot neither credits nor closes the session. The model still credits
  `Reward` and sets the session to cashed.
- Callback.Parse: `int()` also accepts surrounding whitespace, underscores
  between digits and non-ASCII digits. The model reads only an optional sign
  and ASCII digits, and treats other payloads as raising. CPython's `int()`
  also refuses a field of more than 4300 digits. The bot then raises, while
  the model taps that index.
- When `int()` raises in the callback handler, Flask answers with an error
  status. The model ends the call with `Crashed` and changes no game state.
  Telegram's redelivery of the update is not modelled.
- Concurrency is left out. Flask may serve updates on several threads, and the
  dictionary and the balance read-modify-write are unguarded. The model
  handles one update at a time.
- Server startup (`main.py:147-149`) is left out.
- Restarts are left out. `Bot.MinesBot.constructor` stands for a first start
  only. On a restart, `users.json` (`main.py:9`) comes back with its balances,
  but `games` (`main.py:11`) starts empty. The stake of a game still in
  progress is then lost.
- Daily and weekly bonuses, the leaderboard, transfers, the shop and admin
  commands are left out: no source for them appears in `main.py`.
