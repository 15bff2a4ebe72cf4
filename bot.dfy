/**
 * DerivBot's tick-driven trading state machine: the history snapshot
 * handler, the tick handler that either settles the outstanding contract or
 * records the tick and may place a new one, and the outcome handler. The
 * pure functions say what each handler does to the whole state; the class
 * performs the same updates field by field.
 */
module Bot {
  import opened Wrappers
  import opened Ticks
  import opened Candle
  import opened History
  import opened Engine

  /** Everything the bot remembers between messages. */
  datatype BotState = BotState(
    history: seq<Tick>,
    account: Account,
    tradeInProgress: bool,
    awaitingOutcome: bool,
    lastTradeAction: Option<Direction>,
    status: Status)

  /** The state the bot starts in. */
  function Init(cfg: Config): BotState
  {
    BotState([], Fresh(cfg, 0.0), false, false, None, Live)
  }

  /**
   * The bot's invariant: the history stays within capacity, the two trade
   * flags agree, an awaited contract has a direction, and the martingale
   * invariant holds.
   */
  predicate Inv(cfg: Config, s: BotState)
  {
    && |s.history| <= Capacity
    && s.tradeInProgress == s.awaitingOutcome
    && (s.awaitingOutcome ==> s.lastTradeAction.Some?)
    && StakeInv(cfg, s.account)
  }

  /** Whether the contract bought on `action` wins when the settling price ends in `digit`. */
  function IsWin(action: Option<Direction>, digit: Digit): bool
  {
    (action == Some(Even) && digit % 2 == 0) || (action == Some(Odd) && digit % 2 != 0)
  }

  /** A contract wins exactly when its direction is the parity of the settling digit. */
  lemma IsWinSpec(action: Option<Direction>, digit: Digit)
    ensures IsWin(action, digit) <==> action == Some(ParityOf(digit))
  {
  }

  /** The outcome handler: settle the account, then check the halt conditions. */
  function AfterOutcome(cfg: Config, s: BotState, isWin: bool): BotState
  {
    var a := Settle(cfg, s.account, isWin);
    s.(account := a, status := HaltStatus(cfg, a.totalProfit))
  }

  /**
   * The tick handler. A halted bot ignores the tick. While a contract is
   * awaited, the tick only settles it (and, unless that halts the bot,
   * clears both trade flags). Otherwise the tick is recorded, and when no
   * trade is in progress and the history is full, a signal is read; a
   * signal becomes the last trade action and both flags follow whether the
   * buy request went out.
   */
  function OnTickSpec(cfg: Config, lastDigit: real -> Digit, s: BotState, t: Tick, sent: bool): BotState
  {
    if s.status != Live then s
    else if s.awaitingOutcome then SettleTick(cfg, lastDigit, s, t)
    else RecordTick(lastDigit, s, t, sent)
  }

  /** A tick that settles the awaited contract; the bot exits right after a halt. */
  function SettleTick(cfg: Config, lastDigit: real -> Digit, s: BotState, t: Tick): BotState
  {
    var settled := AfterOutcome(cfg, s, IsWin(s.lastTradeAction, lastDigit(t.price)));
    if settled.status != Live then settled
    else settled.(awaitingOutcome := false, tradeInProgress := false)
  }

  /** A tick that is recorded and may lead to a new contract. */
  function RecordTick(lastDigit: real -> Digit, s: BotState, t: Tick, sent: bool): BotState
  {
    var recorded := s.(history := Appended(s.history, t));
    if !s.tradeInProgress && |recorded.history| >= SignalMinHistory then
      match TradeSignal(recorded.history, lastDigit)
      case None => recorded
      case Some(d) => recorded.(lastTradeAction := Some(d), tradeInProgress := sent, awaitingOutcome := sent)
    else recorded
  }

  /** The snapshot handler: a halted bot ignores it; otherwise the snapshot's ticks are appended. */
  function OnHistorySpec(s: BotState, times: seq<int>, prices: seq<real>): BotState
  {
    if s.status != Live then s
    else s.(history := AppendAll(s.history, SnapshotTicks(times, prices, 0)))
  }

  /** The bot starts in a state that satisfies the invariant. */
  lemma InitInv(cfg: Config)
    ensures Inv(cfg, Init(cfg))
    ensures Init(cfg).history == [] && Init(cfg).account.totalProfit == 0.0
  {
  }

  /** Every tick keeps the invariant, in particular at most one contract is outstanding. */
  lemma OnTickKeepsInv(cfg: Config, lastDigit: real -> Digit, s: BotState, t: Tick, sent: bool)
    requires Inv(cfg, s)
    ensures Inv(cfg, OnTickSpec(cfg, lastDigit, s, t, sent))
  {
    if s.status == Live {
      if s.awaitingOutcome {
        SettleSpec(cfg, s.account, IsWin(s.lastTradeAction, lastDigit(t.price)));
      } else {
        AppendedKeepsNewest(s.history, t);
      }
    }
  }

  /** Every snapshot keeps the invariant. */
  lemma OnHistoryKeepsInv(cfg: Config, s: BotState, times: seq<int>, prices: seq<real>)
    requires Inv(cfg, s)
    ensures Inv(cfg, OnHistorySpec(s, times, prices))
  {
    AppendAllKeepsNewest(s.history, SnapshotTicks(times, prices, 0));
  }

  /**
   * A snapshot leaves the newest 200 of the old history followed by the
   * snapshot's ticks, and touches nothing else.
   */
  lemma OnHistorySpecFacts(cfg: Config, s: BotState, times: seq<int>, prices: seq<real>)
    requires Inv(cfg, s) && s.status == Live
    ensures OnHistorySpec(s, times, prices).history == LastN(s.history + SnapshotTicks(times, prices, 0), Capacity)
    ensures OnHistorySpec(s, times, prices).(history := s.history) == s
  {
    AppendAllKeepsNewest(s.history, SnapshotTicks(times, prices, 0));
  }

  /**
   * The tick that arrives while a contract is awaited settles it and
   * nothing more: it is not recorded, the contract wins exactly when the
   * tick's last digit has the bought parity, the account is settled with the
   * stake in effect before, the bot halts exactly at the target or the
   * stop-loss, and otherwise both flags are cleared.
   */
  lemma ResolvingTick(cfg: Config, lastDigit: real -> Digit, s: BotState, t: Tick, sent: bool)
    requires Inv(cfg, s) && s.status == Live && s.awaitingOutcome
    ensures var s' := OnTickSpec(cfg, lastDigit, s, t, sent);
      var win := s.lastTradeAction.value == ParityOf(lastDigit(t.price));
      && s'.history == s.history
      && s'.lastTradeAction == s.lastTradeAction
      && s'.account == Settle(cfg, s.account, win)
      && (win ==> s'.account.totalProfit == s.account.totalProfit + PayoutRate * s.account.stake)
      && (!win ==> s'.account.totalProfit == s.account.totalProfit - s.account.stake)
      && (s'.status != Live <==>
            s'.account.totalProfit >= cfg.targetProfit || s'.account.totalProfit <= -Abs(cfg.stopLoss))
      && (s'.status == Live ==> !s'.awaitingOutcome && !s'.tradeInProgress)
  {
    var win := s.lastTradeAction.value == ParityOf(lastDigit(t.price));
    IsWinSpec(s.lastTradeAction, lastDigit(t.price));
    SettleSpec(cfg, s.account, win);
  }

  /**
   * A tick that arrives while no contract is awaited is recorded, never
   * touches the account, and arms a contract exactly when the history is
   * full, the signal gives a direction and the buy request went out; the
   * direction is then the parity of the tick's own last digit.
   */
  lemma RecordingTick(cfg: Config, lastDigit: real -> Digit, s: BotState, t: Tick, sent: bool)
    requires Inv(cfg, s) && s.status == Live && !s.awaitingOutcome
    ensures var s' := OnTickSpec(cfg, lastDigit, s, t, sent);
      && s'.history == Appended(s.history, t)
      && s'.account == s.account
      && s'.status == Live
      && (s'.awaitingOutcome <==>
            sent && |s'.history| == Capacity && TradeSignal(s'.history, lastDigit).Some?)
      && (s'.awaitingOutcome ==> s'.lastTradeAction == Some(ParityOf(lastDigit(t.price))))
      && (!sent ==> !s'.awaitingOutcome && !s'.tradeInProgress)
  {
    AppendedKeepsNewest(s.history, t);
    SignalSpec(Appended(s.history, t), lastDigit);
  }

  /** Once halted, the bot does nothing: no tick or snapshot changes its state. */
  lemma HaltedIsFinal(cfg: Config, lastDigit: real -> Digit, s: BotState, t: Tick, sent: bool, times: seq<int>, prices: seq<real>)
    requires s.status != Live
    ensures OnTickSpec(cfg, lastDigit, s, t, sent) == s
    ensures OnHistorySpec(s, times, prices) == s
  {
  }

  /** The two inbound messages that reach the state machine. */
  datatype Event =
    | Snapshot(times: seq<int>, prices: seq<real>)
    | NewTick(tick: Tick, sent: bool)

  /** The state after handling the events in order. */
  function Run(cfg: Config, lastDigit: real -> Digit, s: BotState, events: seq<Event>): BotState
    decreases |events|
  {
    if events == [] then s
    else
      var next := match events[0]
        case Snapshot(times, prices) => OnHistorySpec(s, times, prices)
        case NewTick(t, sent) => OnTickSpec(cfg, lastDigit, s, t, sent);
      Run(cfg, lastDigit, next, events[1..])
  }

  /**
   * Whatever messages arrive, the invariant holds after each of them: the
   * history never exceeds 200 ticks, at most one contract is outstanding,
   * and the streak and stake follow the martingale invariant.
   */
  lemma {:induction false} RunKeepsInv(cfg: Config, lastDigit: real -> Digit, s: BotState, events: seq<Event>)
    requires Inv(cfg, s)
    ensures Inv(cfg, Run(cfg, lastDigit, s, events))
    decreases |events|
  {
    if events != [] {
      match events[0]
      case Snapshot(times, prices) =>
        OnHistoryKeepsInv(cfg, s, times, prices);
        RunKeepsInv(cfg, lastDigit, OnHistorySpec(s, times, prices), events[1..]);
      case NewTick(t, sent) =>
        OnTickKeepsInv(cfg, lastDigit, s, t, sent);
        RunKeepsInv(cfg, lastDigit, OnTickSpec(cfg, lastDigit, s, t, sent), events[1..]);
    }
  }

  /** After a halt no message changes anything, so no contract is ever placed again. */
  lemma {:induction false} RunAfterHalt(cfg: Config, lastDigit: real -> Digit, s: BotState, events: seq<Event>)
    requires s.status != Live
    ensures Run(cfg, lastDigit, s, events) == s
    decreases |events|
  {
    if events != [] {
      match events[0] {
        case Snapshot(times, prices) =>
          HaltedIsFinal(cfg, lastDigit, s, Tick(0, 0.0), false, times, prices);
        case NewTick(t, sent) =>
          HaltedIsFinal(cfg, lastDigit, s, t, sent, [], []);
      }
      RunAfterHalt(cfg, lastDigit, s, events[1..]);
    }
  }

  /**
   * The loop of the snapshot handler: appends each tick of the snapshot in
   * turn, stopping with `ok` false at the first tick whose price is missing.
   */
  method LoadSnapshot(h: seq<Tick>, times: seq<int>, prices: seq<real>) returns (h': seq<Tick>, ok: bool)
    ensures h' == AppendAll(h, SnapshotTicks(times, prices, 0))
    ensures ok <==> SnapshotComplete(times, prices)
  {
    h' := h;
    var i := 0;
    while i < |times|
      invariant 0 <= i <= |times|
      invariant forall j :: 0 <= j < i ==> SnapshotPriceIndex(times, j) < |prices|
      invariant AppendAll(h, SnapshotTicks(times, prices, 0)) == AppendAll(h', SnapshotTicks(times, prices, i))
    {
      var k := FirstIndex(times, times[i]);
      if k >= |prices| {
        return h', false;
      }
      h' := Appended(h', Tick(times[i], prices[k]));
      i := i + 1;
    }
    return h', true;
  }

  /** The bot itself: one instance holding the state the handlers update. */
  class DerivBot {
    const cfg: Config
    const lastDigit: real -> Digit
    var history: seq<Tick>
    var stake: real
    var lossCount: nat
    var totalProfit: real
    var tradeInProgress: bool
    var awaitingOutcome: bool
    var lastTradeAction: Option<Direction>
    var status: Status

    /** The fields as one state value. */
    ghost function State(): BotState
      reads this
    {
      BotState(history, Account(stake, lossCount, totalProfit), tradeInProgress, awaitingOutcome, lastTradeAction, status)
    }

    ghost predicate Valid()
      reads this
    {
      ValidConfig(cfg) && Inv(cfg, State())
    }

    constructor (cfg: Config, lastDigit: real -> Digit)
      requires ValidConfig(cfg)
      ensures this.cfg == cfg && this.lastDigit == lastDigit
      ensures State() == Init(cfg)
      ensures Valid()
    {
      this.cfg := cfg;
      this.lastDigit := lastDigit;
      history := [];
      stake := cfg.initStake;
      lossCount := 0;
      totalProfit := 0.0;
      tradeInProgress := false;
      awaitingOutcome := false;
      lastTradeAction := None;
      status := Live;
    }

    /** Appends the ticks of a snapshot one by one; `ok` is false when a tick's price is missing. */
    method OnHistory(times: seq<int>, prices: seq<real>) returns (ok: bool)
      requires Valid()
      modifies this
      ensures Valid()
      ensures State() == OnHistorySpec(old(State()), times, prices)
      ensures ok <==> old(status) != Live || SnapshotComplete(times, prices)
    {
      if status != Live {
        return true;
      }
      OnHistoryKeepsInv(cfg, State(), times, prices);
      history, ok := LoadSnapshot(history, times, prices);
    }

    /** The outcome handler: settles the account and checks the target and the stop-loss. */
    method OnTradeOutcome(isWin: bool)
      requires status == Live
      modifies this
      ensures State() == AfterOutcome(cfg, old(State()), isWin)
    {
      var profit := stake * PayoutRate;
      if isWin {
        totalProfit := totalProfit + profit;
        stake := cfg.initStake;
        lossCount := 0;
      } else {
        totalProfit := totalProfit - stake;
        lossCount := lossCount + 1;
        if lossCount <= cfg.level {
          stake := stake * cfg.factor;
        } else {
          stake := cfg.initStake;
          lossCount := 0;
        }
      }
      if totalProfit >= cfg.targetProfit {
        status := TargetReached;
      } else if totalProfit <= -Abs(cfg.stopLoss) {
        status := StopLossReached;
      }
    }

    /** The tick handler; `sent` is whether the buy request for a new signal went out. */
    method OnTick(t: Tick, sent: bool)
      requires Valid()
      modifies this
      ensures Valid()
      ensures State() == OnTickSpec(cfg, lastDigit, old(State()), t, sent)
    {
      OnTickKeepsInv(cfg, lastDigit, State(), t, sent);
      if status != Live {
        return;
      }
      if awaitingOutcome {
        SettleOutstanding(t);
      } else {
        Record(t, sent);
      }
    }

    /** Settles the awaited contract with the parity of the tick's last digit. */
    method SettleOutstanding(t: Tick)
      requires status == Live
      modifies this
      ensures State() == SettleTick(cfg, lastDigit, old(State()), t)
    {
      var digit := lastDigit(t.price);
      var isEven := digit % 2 == 0;
      var isWin := (lastTradeAction == Some(Even) && isEven) || (lastTradeAction == Some(Odd) && !isEven);
      OnTradeOutcome(isWin);
      if status != Live {
        return;
      }
      awaitingOutcome := false;
      tradeInProgress := false;
    }

    /** Records the tick and, when eligible, acts on the signal. */
    method Record(t: Tick, sent: bool)
      modifies this
      ensures State() == RecordTick(lastDigit, old(State()), t, sent)
    {
      history := Appended(history, t);
      if !tradeInProgress && |history| >= SignalMinHistory {
        var signal := TradeSignal(history, lastDigit);
        if signal.Some? {
          lastTradeAction := signal;
          if sent {
            tradeInProgress := true;
            awaitingOutcome := true;
          } else {
            tradeInProgress := false;
            awaitingOutcome := false;
          }
        }
      }
    }
  }
}
