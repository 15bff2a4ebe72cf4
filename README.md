# DerivBot trading state machine in Dafny

This project models the trading core of `DerivBot` (main.py). The bot is an
automated client for the Deriv Volatility 100 index. It keeps the last 200
ticks, derives one synthetic candle from the newest 100 ticks, and reads an
even/odd signal off the candle. It then buys one digit-parity contract at a
time and sizes the stake with a martingale policy. It shuts down at a profit
target or at a stop-loss.

The model has six modules:

- `Wrappers` (wrappers.dfy): the `Option` type.
- `Ticks` (ticks.dfy): the `Tick` record and `Abs`, shared by the others.
- `Candle` (candle.dfy): the pure analysis.
  - A tick window becomes a `VirtualCandle` (`BuildCandle`).
  - `CandleDetails` gives the body, range, wicks and Indecision/Green/Red type.
  - `RecognizePatterns` gives the set of single-candle pattern labels.
  - `TradeSignal` gives the even/odd signal.
  - `IsUptrend` and `IsDowntrend` are the trend helpers, which nothing calls.
- `History` (history.dfy): the bounded tick history.
  - `Appended` is the deque append with `maxlen=200`.
  - `AppendAll` is a bulk append.
  - `SnapshotTicks` gives the ticks that a history snapshot appends.
- `Engine` (engine.dfy): the stake and outcome engine.
  - `Config` holds the five configuration constants as parameters; `Default` holds the shipped values.
  - `Settle` is the win/loss accounting with the martingale rule.
  - `HaltStatus` is the target-profit / stop-loss check.
- `Bot` (bot.dfy): the state machine.
  - `BotState` holds every field of the bot.
  - `OnTickSpec`, `OnHistorySpec` and `AfterOutcome` say what each handler does to the whole state.
  - The class `DerivBot` keeps the same fields and updates them in place. Its methods are proved against these functions.
  - `Run` applies a sequence of inbound messages, so invariants can be stated over any run.

Modelling choices:

- Prices and money are `real`.
- The last decimal digit of a printed price, `int(str(price)[-1])`, is a given function `lastDigit: real -> Digit`.
- Whether the buy request went out is the `sent` input of the tick handler.
- `exit()` becomes a `status` field (`Live`, `TargetReached`, `StopLossReached`). Once the status is not `Live`, every handler leaves the state unchanged, because the process is gone.
- `_on_history` raises `IndexError` when a time's first position is past the end of the price list. The model stops loading at that tick and returns `ok == false`. The ticks appended before it stay in the history.

Behaviours of main.py the model keeps as written:

- A failed send still sets `last_trade_action`, because main.py:129 assigns it before the send (main.py:131-139).
- With no pattern there is no signal (main.py:184-185), so the digit fallback only runs once some pattern is present.
- When a settlement halts the bot, `exit()` runs inside `_on_trade_outcome`. Both trade flags are then left set (main.py:117-119, 286, 289).
- Each snapshot tick takes the price at its time's first position (main.py:97). So repeated times all get the same price.

## Model

| member | source | states |
|---|---|---|
| `Candle.MaxOf` | main.py:176 | the high is one of the prices and no price is above it |
| `Candle.MinOf` | main.py:177 | the low is one of the prices and no price is below it |
| `Candle.BuildCandle` | main.py:167-179 | no candle for an empty window; otherwise open and close are the first and last prices, high and low bound every price and are attained, epoch is the last time, so low ≤ open, close ≤ high |
| `Candle.DetailsFacts` | main.py:200-227 | for a well-formed candle: body = \|close − open\| ≤ range = high − low; wicks are 0 when range is 0, otherwise non-negative with upper + body + lower = range; type is Indecision iff range = 0 or body < 0.10·range, otherwise Green iff close > open and Red iff close < open |
| `Candle.RecognizePatterns` | main.py:245-259 | labels are only Doji, Spinning Top or Marubozu (never engulfing, hammer or shooting star); Doji iff body < 0.0001; Spinning Top and Marubozu need a positive range and never occur together |
| `Candle.PatternFacts` | main.py:245-259 | Spinning Top iff range > 0 and body < 0.3·range; Marubozu iff range > 0 and body > 0.9·range; a flat well-formed candle is a Doji; a well-formed candle shows no pattern iff body ≥ 0.0001 and 0.3·range ≤ body ≤ 0.9·range |
| `Candle.FlatBodyCandle` | main.py:200-259 | open = close = 1.0, high 1.0001, low 0.9999 gives type Indecision and patterns exactly {Doji, Spinning Top} |
| `Candle.ParityOf` | main.py:192-196 | the direction is Even exactly for the digits 0, 2, 4, 6, 8 |
| `Candle.SignalCandle` | main.py:167-179 | with at least 200 ticks, the signal candle is well-formed, opens at the 100th newest price and closes at the newest |
| `Candle.SignalSpec` | main.py:159-198 | a signal exists iff the history holds ≥ 200 ticks and the candle of the newest 100 shows a pattern; it is then the parity of the newest price's last digit |
| `Candle.TrendWindow` | main.py:233 | the newest `lookback` closes in order, or all of them when `lookback` is 0 |
| `Candle.TrendFacts` | main.py:229-243 | never an uptrend and a downtrend at once; a window of equal closes is neither |
| `History.AppendedKeepsNewest` | main.py:35 | an append keeps the newest 200 of history + [tick]: the tick is last, length grows by one below 200 and stays 200 at capacity, and a full history drops only its oldest tick |
| `History.AppendAllKeepsNewest` | main.py:94-98 | appending a list one tick at a time leaves the newest 200 of history + list, never more than 200 |
| `History.FirstIndex` | main.py:97 | the position of the first occurrence of a time, like `list.index` |
| `History.SnapshotPriceIndex` | main.py:97 | the price position of a snapshot tick is the first position holding its time: at or before its own position, same time, and no earlier position holds that time |
| `History.SnapshotTicks` | main.py:94-98 | each loaded tick has its snapshot time and the price at that time's first position; loading stops at the first tick whose price is missing (that stop is `History.SnapshotTicksStop`) |
| `History.SnapshotTicksStop` | main.py:94-98 | a load that ends early ends exactly at a tick whose first-position price is missing, the point where `prices[...]` raises `IndexError` |
| `History.SnapshotTicksSpec` | main.py:94-98 | every snapshot tick loads iff every one finds its price |
| `History.CompleteWhenPricesCover` | main.py:94-98 | a price list at least as long as the time list always loads completely |
| `History.RepeatedTimeSharesPrice` | main.py:97 | two loaded ticks with the same time carry the same price |
| `Engine.HaltStatus` | main.py:284-289 | the bot halts iff profit ≥ target or profit ≤ −\|stop loss\|; the target is tested first |
| `Engine.SettleSpec` | main.py:261-281 | a win adds 0.95 × the pre-update stake and resets stake and streak; a loss subtracts that stake; below the level the streak grows by one and the stake is multiplied by the factor, at the level both reset; the martingale invariant (streak ≤ level, stake = init × factor^streak) is kept; with positive stake a win strictly raises and a loss strictly lowers the profit |
| `Engine.LossStreak` | main.py:272-276 | after k ≤ level losses in a row from a fresh stake, the stake is init × factor^k and the streak is k |
| `Engine.StreakCapResets` | main.py:274-281 | loss number level + 1 in a row resets the stake to the initial stake and the streak to 0 |
| `Engine.DefaultStreak` | main.py:17-19 | with 0.35, 1.2 and level 4, four losses give stakes 0.42, 0.504, 0.6048, 0.72576 and a fifth resets to 0.35 |
| `Candle.CandleDetails` | main.py:200-227 | the details of a candle; their meaning is stated by `Candle.DetailsFacts` |
| `Candle.TradeSignal` | main.py:159-198 | the trade signal; stated by `Candle.SignalSpec` (signal iff 200 ticks and some pattern, then the close's digit parity) |
| `Candle.IsUptrend` | main.py:229-235 | newest close above the window mean, false when fewer candles than the lookback; stated by `Candle.TrendFacts` |
| `Candle.IsDowntrend` | main.py:237-243 | newest close below the window mean, false when fewer candles than the lookback; stated by `Candle.TrendFacts` |
| `History.Appended` | main.py:35 | the deque append of main.py:122; stated by `History.AppendedKeepsNewest` |
| `History.AppendAll` | main.py:94-98 | one append per snapshot tick, oldest first; stated by `History.AppendAllKeepsNewest` |
| `Engine.Settle` | main.py:261-281 | win/loss accounting with the martingale rule; stated by `Engine.SettleSpec`, `Engine.LossStreak` and `Engine.StreakCapResets` |
| `Bot.IsWin` | main.py:110-115 | the win test; stated by `Bot.IsWinSpec` |
| `Bot.AfterOutcome` | main.py:261-289 | settlement then halt check; its effect on a tick is stated by `Bot.ResolvingTick` |
| `Bot.OnTickSpec` | main.py:103-139 | the whole tick handler; stated by `Bot.ResolvingTick`, `Bot.RecordingTick`, `Bot.OnTickKeepsInv` and `Bot.HaltedIsFinal` |
| `Bot.SettleTick` | main.py:109-120 | the settling branch; stated by `Bot.ResolvingTick` |
| `Bot.RecordTick` | main.py:122-139 | the recording branch; stated by `Bot.RecordingTick` |
| `Bot.OnHistorySpec` | main.py:90-98 | the snapshot handler; stated by `Bot.OnHistorySpecFacts` and `Bot.OnHistoryKeepsInv` |
| `Bot.IsWinSpec` | main.py:110-115 | a contract wins iff its direction is the parity of the settling price's last digit |
| `Bot.InitInv` | main.py:34-41 | the initial state satisfies the invariant with an empty history and zero profit |
| `Bot.OnTickKeepsInv` | main.py:103-139 | every tick keeps history ≤ 200, `trade_in_progress == awaiting_outcome`, a direction for an awaited contract, and the martingale invariant |
| `Bot.OnHistoryKeepsInv` | main.py:90-98 | every snapshot keeps the invariant |
| `Bot.OnHistorySpecFacts` | main.py:90-98 | a snapshot leaves the newest 200 of the old history followed by the snapshot's ticks and changes nothing else |
| `Bot.ResolvingTick` | main.py:109-120 | while a contract is awaited, the tick is not recorded; it is a win iff the digit parity matches the last action; the profit moves by +0.95 × stake or −stake; the bot halts iff target or stop-loss is reached, and otherwise both flags are cleared |
| `Bot.RecordingTick` | main.py:122-139 | otherwise the tick is appended and the account is untouched; a contract is armed iff the send succeeded, the history is full and there is a signal; its direction is the tick's digit parity; a failed send leaves both flags false |
| `Bot.HaltedIsFinal` | main.py:284-289 | once halted, no tick or snapshot changes the state |
| `Bot.RunKeepsInv` | main.py:103-139 | after any sequence of snapshots and ticks, the invariant still holds: at most one contract outstanding, history ≤ 200, martingale invariant |
| `Bot.RunAfterHalt` | main.py:284-289 | after a halt, no sequence of messages changes the state, so no contract is placed |
| `Bot.LoadSnapshot` | main.py:94-98 | the append loop: the resulting history is the bulk append of the snapshot's ticks, and `ok` holds iff every tick found its price |
| `Bot.DerivBot.constructor` | main.py:34-41 | fields start at the initial stake, zero streak and profit, both flags false, no last action |
| `Bot.DerivBot.OnHistory` | main.py:90-98 | appends the snapshot's ticks through `LoadSnapshot`; the new state is `OnHistorySpec` of the old; `ok` is false exactly when a price is missing |
| `Bot.DerivBot.OnTradeOutcome` | main.py:261-292 | updates profit, stake, streak and status in place as `AfterOutcome` says |
| `Bot.DerivBot.OnTick` | main.py:103-139 | updates the fields in place as `OnTickSpec` says and keeps the invariant |
| `Bot.DerivBot.SettleOutstanding` | main.py:109-120 | settles the awaited contract in place as `SettleTick` says |
| `Bot.DerivBot.Record` | main.py:122-139 | records the tick and arms or disarms a contract in place as `RecordTick` says |

## Left out

- The connection loop: connect, authenticate, subscribe, the `async for` receive loop, JSON decoding, the ping/pong reply, the buy acknowledgement, which is logging only, and the 10-second reconnect (main.py:43-88). These are network and async I/O. `Bot.Run` covers only the two messages that reach the state machine.
- The body of `_trade` (main.py:141-157). It only builds and sends a payload. Its success or failure is the `sent` input of `OnTick`.
- Logging throughout, and the `details` value that `_get_trade_signal` computes but never uses (main.py:181).
- IEEE float rounding and the float-to-string conversion behind `int(str(price)[-1])`. Prices and money are `real`, and the last digit is the parameter `lastDigit`.
- Conversion errors in `float(...)` / `int(...)` on malformed messages, and the generic `except Exception` in the connection loop that catches them.
- Module-level configuration and logger setup (main.py:8-29). The constants are the `Config` parameters; `Engine.Default` holds the shipped values.
- Candle.IsUptrend: requires `lookback > 0` or a non-empty list. With `lookback_period=0` and an empty list the source raises `ZeroDivisionError` (main.py:234); that error path is not modelled.
- Candle.IsDowntrend: the same precondition, for the same `ZeroDivisionError` (main.py:242).
- Candle.IsUptrend and Candle.IsDowntrend take `lookback` as a `nat`. The source also accepts a negative `lookback_period`, which slices from the front (`closes[-(-k):]`). Nothing in main.py calls either helper with such a value.
- Bot.DerivBot.OnTradeOutcome: requires a live bot. The source only calls it from the tick handler, which never runs after `exit()`.
