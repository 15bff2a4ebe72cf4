/**
 * The stake and outcome engine: martingale stake sizing, profit accounting
 * and the target-profit / stop-loss halt.
 */
module Engine {
  import opened Ticks

  /** The bot's fixed configuration; the shipped values are `Default`. */
  datatype Config = Config(initStake: real, factor: real, level: nat, targetProfit: real, stopLoss: real)

  predicate ValidConfig(cfg: Config)
  {
    cfg.initStake > 0.0 && cfg.factor > 0.0
  }

  const Default: Config := Config(0.35, 1.2, 4, 2.0, 2.0)

  /** The share of the stake a won contract pays out. */
  const PayoutRate: real := 0.95

  /** The money side of the bot's state. */
  datatype Account = Account(stake: real, lossCount: nat, totalProfit: real)

  /** Whether the bot still trades, or why it shut down. */
  datatype Status = Live | TargetReached | StopLossReached

  function Fresh(cfg: Config, totalProfit: real): Account
  {
    Account(cfg.initStake, 0, totalProfit)
  }

  function Pow(x: real, n: nat): real
  {
    if n == 0 then 1.0 else x * Pow(x, n - 1)
  }

  /** The martingale invariant: the streak is capped and the stake grew by the factor once per loss. */
  predicate StakeInv(cfg: Config, a: Account)
  {
    a.lossCount <= cfg.level && a.stake == cfg.initStake * Pow(cfg.factor, a.lossCount)
  }

  /**
   * Accounting for one settled contract: a win adds 95% of the stake and
   * resets stake and streak; a loss subtracts the stake and extends the
   * streak, multiplying the stake while the streak is within the level and
   * resetting both once it goes past it.
   */
  function Settle(cfg: Config, a: Account, isWin: bool): Account
  {
    if isWin then
      Account(cfg.initStake, 0, a.totalProfit + a.stake * PayoutRate)
    else
      var streak := a.lossCount + 1;
      if streak <= cfg.level then Account(a.stake * cfg.factor, streak, a.totalProfit - a.stake)
      else Account(cfg.initStake, 0, a.totalProfit - a.stake)
  }

  /** The halt check after a settlement: the target is tested before the stop-loss. */
  function HaltStatus(cfg: Config, totalProfit: real): (s: Status)
    ensures s != Live <==> totalProfit >= cfg.targetProfit || totalProfit <= -Abs(cfg.stopLoss)
    ensures s == TargetReached <==> totalProfit >= cfg.targetProfit
  {
    if totalProfit >= cfg.targetProfit then TargetReached
    else if totalProfit <= -Abs(cfg.stopLoss) then StopLossReached
    else Live
  }

  /**
   * A win raises the profit by 95% of the stake in effect before it and
   * resets the stake; a loss lowers the profit by that stake. With a valid
   * configuration and the invariant, a win strictly raises and a loss
   * strictly lowers the profit, and the invariant holds afterwards.
   */
  lemma SettleSpec(cfg: Config, a: Account, isWin: bool)
    requires StakeInv(cfg, a)
    ensures var b := Settle(cfg, a, isWin);
      && StakeInv(cfg, b)
      && (isWin ==> b == Fresh(cfg, a.totalProfit + PayoutRate * a.stake))
      && (!isWin ==> b.totalProfit == a.totalProfit - a.stake)
      && (!isWin && a.lossCount < cfg.level ==> b.lossCount == a.lossCount + 1 && b.stake == a.stake * cfg.factor)
      && (!isWin && a.lossCount == cfg.level ==> b == Fresh(cfg, a.totalProfit - a.stake))
      && (ValidConfig(cfg) ==> a.stake > 0.0 && (isWin <==> b.totalProfit > a.totalProfit))
  {
    if !isWin && a.lossCount < cfg.level {
      assert Pow(cfg.factor, a.lossCount + 1) == cfg.factor * Pow(cfg.factor, a.lossCount);
    }
    if ValidConfig(cfg) {
      PowPositive(cfg.factor, a.lossCount);
      assert a.stake > 0.0 by {
        PositiveProduct(cfg.initStake, Pow(cfg.factor, a.lossCount));
      }
    }
  }

  lemma {:induction false} PowPositive(x: real, n: nat)
    requires x > 0.0
    ensures Pow(x, n) > 0.0
  {
    if n > 0 {
      PowPositive(x, n - 1);
      PositiveProduct(x, Pow(x, n - 1));
    }
  }

  lemma PositiveProduct(x: real, y: real)
    requires x > 0.0 && y > 0.0
    ensures x * y > 0.0
  {
  }

  /** The account after `k` losses in a row. */
  function Losses(cfg: Config, a: Account, k: nat): Account
    decreases k
  {
    if k == 0 then a else Losses(cfg, Settle(cfg, a, false), k - 1)
  }

  /**
   * From a fresh account, `k` losses in a row with `k` within the level
   * leave the stake at the initial stake times the factor to the `k` and a
   * streak of `k`.
   */
  lemma {:induction false} LossStreak(cfg: Config, profit: real, k: nat)
    requires k <= cfg.level
    ensures Losses(cfg, Fresh(cfg, profit), k).stake == cfg.initStake * Pow(cfg.factor, k)
    ensures Losses(cfg, Fresh(cfg, profit), k).lossCount == k
  {
    if k > 0 {
      LossStreak(cfg, profit, k - 1);
      var a := Losses(cfg, Fresh(cfg, profit), k - 1);
      LossesSplit(cfg, Fresh(cfg, profit), k - 1);
      assert Losses(cfg, Fresh(cfg, profit), k) == Settle(cfg, a, false);
      assert Pow(cfg.factor, k) == cfg.factor * Pow(cfg.factor, k - 1);
    }
  }

  /** The last of `k + 1` losses is applied to the account after the first `k`. */
  lemma {:induction false} LossesSplit(cfg: Config, a: Account, k: nat)
    ensures Losses(cfg, a, k + 1) == Settle(cfg, Losses(cfg, a, k), false)
    decreases k
  {
    if k > 0 {
      LossesSplit(cfg, Settle(cfg, a, false), k - 1);
    }
  }

  /** The loss after a full streak of `level` losses resets stake and streak. */
  lemma StreakCapResets(cfg: Config, profit: real)
    ensures Losses(cfg, Fresh(cfg, profit), cfg.level + 1).stake == cfg.initStake
    ensures Losses(cfg, Fresh(cfg, profit), cfg.level + 1).lossCount == 0
  {
    LossStreak(cfg, profit, cfg.level);
    LossesSplit(cfg, Fresh(cfg, profit), cfg.level);
  }

  /** With the shipped configuration four losses reach a stake of 0.72576 and a fifth resets it to 0.35. */
  lemma DefaultStreak()
    ensures Losses(Default, Fresh(Default, 0.0), 1).stake == 0.42
    ensures Losses(Default, Fresh(Default, 0.0), 2).stake == 0.504
    ensures Losses(Default, Fresh(Default, 0.0), 3).stake == 0.6048
    ensures Losses(Default, Fresh(Default, 0.0), 4).stake == 0.72576
    ensures Losses(Default, Fresh(Default, 0.0), 5).stake == 0.35
  {
    LossStreak(Default, 0.0, 4);
    StreakCapResets(Default, 0.0);
  }
}
