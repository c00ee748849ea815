/**
 * The server side of the web dashboard (app.py): the global `BotState`
 * counters and positions, the simplified bot's market-cap filter, its
 * per-token bookkeeping and start guard, and the statistics the dashboard
 * derives from the state.
 *
 * The pump.fun request is a parameter (`None`: a non-200 answer or a
 * failed request, both giving no tokens); `time.time()` is `now`
 * (seconds). Sizes and profit are thousandths of a SOL; the daily change is
 * in tenths of a percent.
 */
module Dashboard {
  import opened Wrappers

  /** A coin as the pump.fun frontend API returns it; every field may be missing. */
  datatype PumpCoin = PumpCoin(
    mint: Option<string>,
    symbol: Option<string>,
    name: Option<string>,
    usdMarketCap: Option<real>,
    price: Option<real>,
    createdTimestamp: Option<real>)

  /** The token dictionary `scan_tokens` builds. */
  datatype ScannedToken = ScannedToken(
    address: string,
    symbol: string,
    name: string,
    marketCap: real,
    price: real,
    created: real)

  /** A dashboard position. */
  datatype DashPosition = DashPosition(
    symbol: string,
    entryPrice: real,
    currentPrice: real,
    sizeMilli: nat,
    entryTime: real,
    pnl: real)

  /** The JSON object `get_stats` answers with. */
  datatype Stats = Stats(
    totalProfitMilli: int,
    winRate: int,
    wins: nat,
    losses: int,
    activePositions: nat,
    totalInvestedMilli: nat,
    dailyChangeTenths: nat,
    uptime: real)

  /** Every simulated position is 0.05 SOL. */
  const PositionMilli: nat := 50
  /** The profit booked for a winning trade, 0.05 SOL. */
  const WinProfitMilli: nat := 50
  /** A trade counts as a win when the market cap is above this. */
  const WinningMarketCap: real := 10000.0
  /** The fixed daily change shown while the profit is positive, 14.2%. */
  const ShownDailyChangeTenths: nat := 142

  // ---------------------------------------------------------------- scan_tokens

  /** The "good range" of `scan_tokens`, strict at both ends; a missing market cap reads as 0. */
  predicate InRange(c: PumpCoin) {
    5000.0 < c.usdMarketCap.GetOr(0.0) < 500000.0
  }

  function ScannedOf(c: PumpCoin): (t: ScannedToken)
    ensures t.marketCap == c.usdMarketCap.GetOr(0.0)
  {
    ScannedToken(c.mint.GetOr(""), c.symbol.GetOr("UNKNOWN"), c.name.GetOr(""),
                 c.usdMarketCap.GetOr(0.0), c.price.GetOr(0.0), c.createdTimestamp.GetOr(0.0))
  }

  /** The loop of `scan_tokens` over the coins of one answer. */
  function FilterInRange(data: seq<PumpCoin>): (r: seq<ScannedToken>)
    ensures |r| <= |data|
  {
    if data == [] then []
    else (if InRange(data[0]) then [ScannedOf(data[0])] else []) + FilterInRange(data[1..])
  }

  /**
   * The filter keeps exactly the coins in the good range: every token it
   * yields has a market cap strictly between 5000 and 500000 and comes from
   * such a coin, and every such coin yields its token.
   */
  lemma {:induction false} FilterInRangeSpec(data: seq<PumpCoin>)
    ensures forall t :: t in FilterInRange(data) ==> 5000.0 < t.marketCap < 500000.0
    ensures forall t :: t in FilterInRange(data) ==> exists c :: c in data && InRange(c) && t == ScannedOf(c)
    ensures forall c :: c in data && InRange(c) ==> ScannedOf(c) in FilterInRange(data)
  {
    if data != [] {
      FilterInRangeSpec(data[1..]);
      assert forall c :: c in data[1..] ==> c in data;
      assert forall c :: c in data ==> c == data[0] || c in data[1..];
    }
  }

  /** `scan_tokens`: the in-range coins of the answer, in answer order; nothing when the request failed. */
  function ScanTokens(fetched: Option<seq<PumpCoin>>): (r: seq<ScannedToken>)
    ensures fetched.None? ==> r == []
  {
    match fetched
    case None => []
    case Some(data) => FilterInRange(data)
  }

  /**
   * The filter keeps input order: filtering a concatenation is filtering
   * each part, so a coin's token comes after the tokens of the coins
   * before it.
   */
  lemma {:induction false} FilterInRangeAppend(a: seq<PumpCoin>, b: seq<PumpCoin>)
    ensures FilterInRange(a + b) == FilterInRange(a) + FilterInRange(b)
  {
    if a == [] {
      assert a + b == b;
    } else {
      var head := if InRange(a[0]) then [ScannedOf(a[0])] else [];
      assert FilterInRange(a + b) == head + FilterInRange(a[1..] + b) by {
        assert (a + b)[0] == a[0];
        assert (a + b)[1..] == a[1..] + b;
      }
      assert FilterInRange(a[1..] + b) == FilterInRange(a[1..]) + FilterInRange(b) by {
        FilterInRangeAppend(a[1..], b);
      }
      assert FilterInRange(a) == head + FilterInRange(a[1..]);
    }
  }

  /** A coin whose market cap is missing is never kept. */
  lemma MissingMarketCapExcluded(c: PumpCoin)
    requires c.usdMarketCap.None?
    ensures FilterInRange([c]) == []
  {
  }

  // ---------------------------------------------------------------- get_stats

  /** The win rate in whole percent: 0 without trades, else the wins' share rounded down. */
  function WinRate(wins: nat, total: nat): (r: int)
    requires wins <= total
    ensures 0 <= r <= 100
    ensures total == 0 ==> r == 0
    ensures 0 < total && wins == total ==> r == 100
  {
    if total == 0 then 0
    else
      WinRateFloor(wins, total);
      100 * wins / total
  }

  /** With trades, the win rate is the largest whole percentage not above the wins' share. */
  lemma WinRateFloor(wins: nat, total: nat)
    requires wins <= total && 0 < total
    ensures var r := 100 * wins / total;
            r * total <= 100 * wins < (r + 1) * total && 0 <= r <= 100
            && (wins == total ==> r == 100)
  {
    var n := 100 * wins;
    var r := n / total;
    FloorDiv(n, total);
    MulMono(wins, total, 100);
    CancelLe(r, 100, total);
    if wins == total {
      CancelLt(100, r + 1, total);
    }
  }

  lemma FloorDiv(n: nat, d: nat)
    requires 0 < d
    ensures (n / d) * d <= n < (n / d + 1) * d
  {
  }

  lemma MulMono(a: int, b: int, d: nat)
    requires a <= b
    ensures a * d <= b * d
  {
  }

  lemma CancelLe(a: int, b: int, d: nat)
    requires 0 < d && a * d <= b * d + d - 1
    ensures a <= b
  {
    if a > b {
      MulMono(b + 1, a, d);
    }
  }

  lemma CancelLt(a: int, b: int, d: nat)
    requires 0 < d && a * d < b * d
    ensures a < b
  {
    if a >= b {
      MulMono(b, a, d);
    }
  }

  // ---------------------------------------------------------------- state

  /** The global `bot_state`. */
  class BotState {
    var authenticated: bool
    var telegramReady: bool
    var botRunning: bool
    var totalProfitMilli: int
    var totalTrades: nat
    var winningTrades: nat
    var positions: map<string, DashPosition>
    var startTime: real

    /** The counters' invariant: no more wins than trades. */
    predicate Valid()
      reads this
    {
      winningTrades <= totalTrades
    }

    constructor (now: real)
      ensures Valid()
      ensures !authenticated && !telegramReady && !botRunning
      ensures totalProfitMilli == 0 && totalTrades == 0 && winningTrades == 0
      ensures positions == map[] && startTime == now
    {
      authenticated := false;
      telegramReady := false;
      botRunning := false;
      totalProfitMilli := 0;
      totalTrades := 0;
      winningTrades := 0;
      positions := map[];
      startTime := now;
    }
  }

  /** `get_stats`: the dashboard's view of the state at time `now`. */
  function GetStats(s: BotState, now: real): (v: Stats)
    reads s
    requires s.Valid()
    ensures 0 <= v.winRate <= 100
    ensures s.totalTrades == 0 ==> v.winRate == 0
    ensures v.wins == s.winningTrades && v.losses >= 0 && v.wins + v.losses == s.totalTrades
    ensures v.activePositions == |s.positions| && v.totalInvestedMilli == PositionMilli * v.activePositions
    ensures v.dailyChangeTenths > 0 <==> s.totalProfitMilli > 0
    ensures v.uptime == now - s.startTime
  {
    Stats(s.totalProfitMilli, WinRate(s.winningTrades, s.totalTrades), s.winningTrades,
          s.totalTrades - s.winningTrades, |s.positions|, |s.positions| * PositionMilli,
          if s.totalProfitMilli > 0 then ShownDailyChangeTenths else 0, now - s.startTime)
  }

  /** The position `process_token` opens: entry and current price both the token's price, 0.05 SOL, no P&L. */
  function EntryPosition(t: ScannedToken, now: real): DashPosition {
    DashPosition(t.symbol, t.price, t.price, PositionMilli, now, 0.0)
  }

  /** The simplified bot that the dashboard starts after authentication. */
  class SimplifiedTradingBot {
    var running: bool
    const state: BotState

    constructor (state: BotState)
      ensures this.state == state && !running
    {
      this.state := state;
      running := false;
    }

    /** `start`: nothing happens unless the state is authenticated. */
    method Start()
      modifies this, state`botRunning
      ensures old(state.authenticated) ==> running && state.botRunning
      ensures !old(state.authenticated) ==> running == old(running) && state.botRunning == old(state.botRunning)
    {
      if !state.authenticated {
        return;
      }
      running := true;
      state.botRunning := true;
    }

    /**
     * `process_token`: one more trade, a win (and 0.05 SOL profit) exactly
     * when the market cap is above 10000, and the position at the token's
     * address replaced by a fresh one; the counters' invariant is kept.
     */
    method ProcessToken(token: ScannedToken, now: real)
      requires state.Valid()
      modifies state`totalTrades, state`winningTrades, state`totalProfitMilli, state`positions
      ensures state.Valid()
      ensures state.totalTrades == old(state.totalTrades) + 1
      ensures state.winningTrades == old(state.winningTrades) + (if token.marketCap > WinningMarketCap then 1 else 0)
      ensures state.totalProfitMilli == old(state.totalProfitMilli) + (if token.marketCap > WinningMarketCap then WinProfitMilli else 0)
      ensures state.positions == old(state.positions)[token.address := EntryPosition(token, now)]
    {
      state.totalTrades := state.totalTrades + 1;
      if token.marketCap > WinningMarketCap {
        state.winningTrades := state.winningTrades + 1;
        state.totalProfitMilli := state.totalProfitMilli + WinProfitMilli;
      }
      state.positions := state.positions[token.address := EntryPosition(token, now)];
    }

    /** One iteration of `main_loop`: scan, then process at most the first token found. */
    method MainLoopIteration(fetched: Option<seq<PumpCoin>>, now: real)
      requires state.Valid()
      modifies state`totalTrades, state`winningTrades, state`totalProfitMilli, state`positions
      ensures state.Valid()
      ensures ScanTokens(fetched) == [] ==>
                && state.totalTrades == old(state.totalTrades)
                && state.winningTrades == old(state.winningTrades)
                && state.totalProfitMilli == old(state.totalProfitMilli)
                && state.positions == old(state.positions)
      ensures ScanTokens(fetched) != [] ==>
                var t := ScanTokens(fetched)[0];
                && state.totalTrades == old(state.totalTrades) + 1
                && state.winningTrades == old(state.winningTrades) + (if t.marketCap > WinningMarketCap then 1 else 0)
                && state.totalProfitMilli == old(state.totalProfitMilli) + (if t.marketCap > WinningMarketCap then WinProfitMilli else 0)
                && state.positions == old(state.positions)[t.address := EntryPosition(t, now)]
    {
      var tokens := ScanTokens(fetched);
      if |tokens| > 0 {
        ProcessToken(tokens[0], now);
      }
    }
  }
}
