/**
 * The bookkeeping of the main bot (main.py, class SolanaTradingBot): the
 * open positions keyed by token address and the trade counter, as changed
 * by one pass of the scanner loop, of the social-signal loop and of the
 * position monitor.
 *
 * The outcome of each `execute_trade` call is a parameter, and so is the
 * clock (`now`, seconds). Position sizes are thousandths of a SOL: 50 is
 * 0.05 SOL.
 */
module TradingBot {
  import opened Wrappers
  import opened Text
  import opened TokenFinder
  import opened SocialMonitor

  /** An open position as the bot records it. */
  datatype Position = Position(symbol: string, entryTime: real, sizeMilli: nat, signal: string)

  /** `base_position_size`, 0.05 SOL. */
  const BasePositionMilli: nat := 50
  /** The cap on a social buy, 0.10 SOL. */
  const MaxSocialMilli: nat := 100
  /** The scanner does not buy while this many positions are open. */
  const MaxPositions: nat := 5
  /** The scanner buys tokens scoring at least 0.7. */
  const BuyThreshold: nat := 7
  /** The scanner looks at the first 10 tokens, the social path at the first 3. */
  const ScannerWindow: nat := 10
  const SocialWindow: nat := 3
  /** Positions are sold after being held more than two hours. */
  const MaxHoldSeconds: real := 7200.0

  type Book = map<string, Position>

  // ---------------------------------------------------------------- scanner

  /** A token the scanner would try to buy: scoring at least 0.7 and not already held. */
  predicate Eligible(held: Book, t: Token) {
    t.score >= BuyThreshold && t.address !in held
  }

  /** The index the scanning loop stops at, from `i` on: the first eligible token whose buy succeeds. */
  function PickFrom(held: Book, tokens: seq<Token>, buyOk: seq<bool>, i: nat): (r: Option<nat>)
    requires |buyOk| == |tokens|
    ensures r.Some? ==> i <= r.value < Min(ScannerWindow, |tokens|) && Eligible(held, tokens[r.value]) && buyOk[r.value]
    decreases Min(ScannerWindow, |tokens|) - i
  {
    if i >= Min(ScannerWindow, |tokens|) then None
    else if Eligible(held, tokens[i]) && buyOk[i] then Some(i)
    else PickFrom(held, tokens, buyOk, i + 1)
  }

  /** The token one scanner pass buys, if any: none while 5 or more positions are open. */
  function ScanPick(held: Book, tokens: seq<Token>, buyOk: seq<bool>): (r: Option<nat>)
    requires |buyOk| == |tokens|
    ensures r.Some? ==> r.value < |tokens| && |held| < MaxPositions
  {
    if |held| >= MaxPositions then None else PickFrom(held, tokens, buyOk, 0)
  }

  /** The position the scanner records for a token it bought. */
  function ScannerPosition(t: Token, now: real): Position {
    Position(t.symbol, now, BasePositionMilli, "scanner")
  }

  /**
   * The positions after one scanner pass. The scanner never replaces a held
   * position, adds one position exactly when it buys, namely the scanner
   * position under the bought token's address, and on its own never takes
   * the number of positions above 5.
   */
  function ScanPositions(held: Book, tokens: seq<Token>, buyOk: seq<bool>, now: real): (after: Book)
    requires |buyOk| == |tokens|
    ensures forall a :: a in held ==> a in after && after[a] == held[a]
    ensures |after| == |held| + (if ScanPick(held, tokens, buyOk).Some? then 1 else 0)
    ensures |held| <= MaxPositions ==> |after| <= MaxPositions
    ensures ScanPick(held, tokens, buyOk).Some? ==>
              var k := ScanPick(held, tokens, buyOk).value;
              tokens[k].address in after && after[tokens[k].address] == ScannerPosition(tokens[k], now)
  {
    ScanPickSpec(held, tokens, buyOk);
    match ScanPick(held, tokens, buyOk)
    case None => held
    case Some(i) =>
      var after := held[tokens[i].address := ScannerPosition(tokens[i], now)];
      assert after.Keys == held.Keys + {tokens[i].address};
      after
  }

  lemma {:induction false} PickFromSpec(held: Book, tokens: seq<Token>, buyOk: seq<bool>, i: nat)
    requires |buyOk| == |tokens|
    ensures PickFrom(held, tokens, buyOk, i).None? <==>
              forall j :: i <= j < Min(ScannerWindow, |tokens|) ==> !(Eligible(held, tokens[j]) && buyOk[j])
    ensures PickFrom(held, tokens, buyOk, i).Some? ==>
              var k := PickFrom(held, tokens, buyOk, i).value;
              && i <= k < Min(ScannerWindow, |tokens|)
              && Eligible(held, tokens[k]) && buyOk[k]
              && forall j :: i <= j < k ==> !(Eligible(held, tokens[j]) && buyOk[j])
    decreases Min(ScannerWindow, |tokens|) - i
  {
    if i < Min(ScannerWindow, |tokens|) && !(Eligible(held, tokens[i]) && buyOk[i]) {
      PickFromSpec(held, tokens, buyOk, i + 1);
    }
  }

  /**
   * One scanner pass buys nothing while 5 or more positions are open;
   * otherwise it buys the first of the first 10 tokens that scores at least
   * 0.7, is not held, and whose buy succeeds, and nothing if there is none.
   */
  lemma ScanPickSpec(held: Book, tokens: seq<Token>, buyOk: seq<bool>)
    requires |buyOk| == |tokens|
    ensures |held| >= MaxPositions ==> ScanPick(held, tokens, buyOk).None?
    ensures ScanPick(held, tokens, buyOk).None? <==>
              |held| >= MaxPositions ||
              forall j :: 0 <= j < Min(ScannerWindow, |tokens|) ==> !(Eligible(held, tokens[j]) && buyOk[j])
    ensures ScanPick(held, tokens, buyOk).Some? ==>
              var k := ScanPick(held, tokens, buyOk).value;
              && k < ScannerWindow && k < |tokens|
              && tokens[k].score >= BuyThreshold && tokens[k].address !in held && buyOk[k]
              && forall j :: 0 <= j < k ==> !(Eligible(held, tokens[j]) && buyOk[j])
  {
    PickFromSpec(held, tokens, buyOk, 0);
  }

  // ---------------------------------------------------------------- social signals

  /** `min(base_position_size * multiplier, 0.10)` in thousandths. */
  function SignalSize(multiplier: nat): (r: nat)
    ensures r <= MaxSocialMilli
    ensures multiplier == 20 ==> r == 100
    ensures multiplier == 15 ==> r == 75
  {
    Min(BasePositionMilli * multiplier / 10, MaxSocialMilli)
  }

  /** The signal's keyword occurs in the lower-cased name or symbol of the token. */
  predicate Matches(s: Signal, t: Token) {
    Contains(Lower(t.name), s.keyword) || Contains(Lower(t.symbol), s.keyword)
  }

  /** The position the social path records for a token it bought on a signal. */
  function SocialPosition(s: Signal, t: Token, now: real): Position {
    Position(t.symbol, now, SignalSize(s.multiplier), s.account + "_" + s.keyword)
  }

  /** A token the social loop buys: among the first 3, matching the keyword, with a successful buy. */
  predicate SocialBought(s: Signal, tokens: seq<Token>, buyOk: seq<bool>, j: nat)
    requires |buyOk| == |tokens|
  {
    j < Min(SocialWindow, |tokens|) && Matches(s, tokens[j]) && buyOk[j]
  }

  /** The positions and trade count after the social loop has handled `tokens[i..3]` for one signal. */
  function SocialBuys(held: Book, count: nat, s: Signal, tokens: seq<Token>, buyOk: seq<bool>, now: real, i: nat): (r: (Book, nat))
    requires |buyOk| == |tokens|
    ensures held.Keys <= r.0.Keys && count <= r.1
    decreases Min(SocialWindow, |tokens|) - i
  {
    if i >= Min(SocialWindow, |tokens|) then (held, count)
    else if Matches(s, tokens[i]) && buyOk[i] then
      SocialBuys(held[tokens[i].address := SocialPosition(s, tokens[i], now)], count + 1, s, tokens, buyOk, now, i + 1)
    else SocialBuys(held, count, s, tokens, buyOk, now, i + 1)
  }

  /** The indices, from `i` on, of the tokens the social loop buys for `s`. */
  function BoughtFrom(s: Signal, tokens: seq<Token>, buyOk: seq<bool>, i: nat): set<nat>
    requires |buyOk| == |tokens|
  {
    set j: nat | i <= j < Min(SocialWindow, |tokens|) && SocialBought(s, tokens, buyOk, j)
  }

  /** A position recorded by the social path for signal `s` at time `now`. */
  predicate IsSocialPosition(p: Position, s: Signal, now: real) {
    p.sizeMilli == SignalSize(s.multiplier) && p.entryTime == now && p.signal == s.account + "_" + s.keyword
  }

  /** Looking at one more token adds it to the bought indices exactly when it is bought. */
  lemma BoughtFromStep(s: Signal, tokens: seq<Token>, buyOk: seq<bool>, i: nat)
    requires |buyOk| == |tokens| && i < Min(SocialWindow, |tokens|)
    ensures |BoughtFrom(s, tokens, buyOk, i)| ==
            |BoughtFrom(s, tokens, buyOk, i + 1)| + (if Matches(s, tokens[i]) && buyOk[i] then 1 else 0)
  {
    var b := BoughtFrom(s, tokens, buyOk, i);
    var b' := BoughtFrom(s, tokens, buyOk, i + 1);
    if Matches(s, tokens[i]) && buyOk[i] {
      assert b == b' + {i};
      assert i !in b';
    } else {
      assert b == b';
    }
  }

  /** One trade is counted per token bought, so at most one per remaining token of the first three. */
  lemma {:induction false} SocialBuysCount(held: Book, count: nat, s: Signal, tokens: seq<Token>, buyOk: seq<bool>, now: real, i: nat)
    requires |buyOk| == |tokens|
    ensures SocialBuys(held, count, s, tokens, buyOk, now, i).1 == count + |BoughtFrom(s, tokens, buyOk, i)|
    ensures var n := Min(SocialWindow, |tokens|);
            |BoughtFrom(s, tokens, buyOk, i)| <= (if i < n then n - i else 0)
    decreases Min(SocialWindow, |tokens|) - i
  {
    if i < Min(SocialWindow, |tokens|) {
      BoughtFromStep(s, tokens, buyOk, i);
      if Matches(s, tokens[i]) && buyOk[i] {
        SocialBuysCount(held[tokens[i].address := SocialPosition(s, tokens[i], now)], count + 1, s, tokens, buyOk, now, i + 1);
      } else {
        SocialBuysCount(held, count, s, tokens, buyOk, now, i + 1);
      }
    } else {
      assert BoughtFrom(s, tokens, buyOk, i) == {};
    }
  }

  lemma {:induction false} SocialBuysKeys(held: Book, count: nat, s: Signal, tokens: seq<Token>, buyOk: seq<bool>, now: real, i: nat)
    requires |buyOk| == |tokens|
    ensures forall a :: a in SocialBuys(held, count, s, tokens, buyOk, now, i).0 <==>
              a in held || exists j :: i <= j && SocialBought(s, tokens, buyOk, j) && tokens[j].address == a
    decreases Min(SocialWindow, |tokens|) - i
  {
    if i < Min(SocialWindow, |tokens|) {
      if Matches(s, tokens[i]) && buyOk[i] {
        SocialBuysKeys(held[tokens[i].address := SocialPosition(s, tokens[i], now)], count + 1, s, tokens, buyOk, now, i + 1);
      } else {
        SocialBuysKeys(held, count, s, tokens, buyOk, now, i + 1);
      }
    }
  }

  lemma {:induction false} SocialBuysKeepsOthers(held: Book, count: nat, s: Signal, tokens: seq<Token>, buyOk: seq<bool>, now: real, i: nat, a: string)
    requires |buyOk| == |tokens|
    requires a in held
    requires forall j :: i <= j && SocialBought(s, tokens, buyOk, j) ==> tokens[j].address != a
    ensures var after := SocialBuys(held, count, s, tokens, buyOk, now, i).0;
            a in after && after[a] == held[a]
    decreases Min(SocialWindow, |tokens|) - i
  {
    if i < Min(SocialWindow, |tokens|) {
      if Matches(s, tokens[i]) && buyOk[i] {
        assert SocialBought(s, tokens, buyOk, i);
        SocialBuysKeepsOthers(held[tokens[i].address := SocialPosition(s, tokens[i], now)], count + 1, s, tokens, buyOk, now, i + 1, a);
      } else {
        SocialBuysKeepsOthers(held, count, s, tokens, buyOk, now, i + 1, a);
      }
    }
  }

  lemma {:induction false} SocialBuysRecordsBought(held: Book, count: nat, s: Signal, tokens: seq<Token>, buyOk: seq<bool>, now: real, i: nat, j: nat)
    requires |buyOk| == |tokens|
    requires i <= j && SocialBought(s, tokens, buyOk, j)
    ensures var after := SocialBuys(held, count, s, tokens, buyOk, now, i).0;
            tokens[j].address in after && IsSocialPosition(after[tokens[j].address], s, now)
    decreases Min(SocialWindow, |tokens|) - i
  {
    var a := tokens[j].address;
    if Matches(s, tokens[i]) && buyOk[i] {
      var held' := held[tokens[i].address := SocialPosition(s, tokens[i], now)];
      if j > i {
        SocialBuysRecordsBought(held', count + 1, s, tokens, buyOk, now, i + 1, j);
      } else if exists j' :: i + 1 <= j' && SocialBought(s, tokens, buyOk, j') && tokens[j'].address == a {
        var j' :| i + 1 <= j' && SocialBought(s, tokens, buyOk, j') && tokens[j'].address == a;
        SocialBuysRecordsBought(held', count + 1, s, tokens, buyOk, now, i + 1, j');
      } else {
        SocialBuysKeepsOthers(held', count + 1, s, tokens, buyOk, now, i + 1, a);
      }
    } else {
      SocialBuysRecordsBought(held, count, s, tokens, buyOk, now, i + 1, j);
    }
  }

  /**
   * One signal's buys: every bought address ends up holding a social position
   * of the signal's size (capped at 0.10), overwriting a position already
   * held there; addresses not bought keep their position; nothing else is
   * added; the trade count grows by one per buy, so by at most 3.
   */
  lemma SocialBuysSpec(held: Book, count: nat, s: Signal, tokens: seq<Token>, buyOk: seq<bool>, now: real)
    requires |buyOk| == |tokens|
    ensures var (after, count') := SocialBuys(held, count, s, tokens, buyOk, now, 0);
            && (forall a :: a in after <==>
                  a in held || exists j :: 0 <= j && SocialBought(s, tokens, buyOk, j) && tokens[j].address == a)
            && (forall a :: a in held && (forall j :: 0 <= j && SocialBought(s, tokens, buyOk, j) ==> tokens[j].address != a) ==>
                  after[a] == held[a])
            && (forall j :: 0 <= j && SocialBought(s, tokens, buyOk, j) ==>
                  IsSocialPosition(after[tokens[j].address], s, now) && after[tokens[j].address].sizeMilli <= MaxSocialMilli)
            && count' == count + |BoughtFrom(s, tokens, buyOk, 0)|
            && count' <= count + SocialWindow
  {
    var after := SocialBuys(held, count, s, tokens, buyOk, now, 0).0;
    SocialBuysCount(held, count, s, tokens, buyOk, now, 0);
    SocialBuysKeys(held, count, s, tokens, buyOk, now, 0);
    forall a | a in held && (forall j :: 0 <= j && SocialBought(s, tokens, buyOk, j) ==> tokens[j].address != a)
      ensures after[a] == held[a]
    {
      SocialBuysKeepsOthers(held, count, s, tokens, buyOk, now, 0, a);
    }
    forall j: nat | SocialBought(s, tokens, buyOk, j)
      ensures IsSocialPosition(after[tokens[j].address], s, now)
    {
      SocialBuysRecordsBought(held, count, s, tokens, buyOk, now, 0, j);
    }
  }

  /** The social path's buys for each signal of one round, one signal after the other. */
  function SocialRound(held: Book, count: nat, signals: seq<Signal>, tokenLists: seq<seq<Token>>,
                       buyOks: seq<seq<bool>>, now: real, k: nat): (r: (Book, nat))
    requires |tokenLists| == |signals| && |buyOks| == |signals|
    requires forall m :: 0 <= m < |signals| ==> |buyOks[m]| == |tokenLists[m]|
    ensures held.Keys <= r.0.Keys && count <= r.1
    decreases |signals| - k
  {
    if k >= |signals| then (held, count)
    else
      var (held', count') := SocialBuys(held, count, signals[k], tokenLists[k], buyOks[k], now, 0);
      SocialRound(held', count', signals, tokenLists, buyOks, now, k + 1)
  }

  /** A round of social signals makes at most 3 buys per signal and never removes a position. */
  lemma {:induction false} SocialRoundBounded(held: Book, count: nat, signals: seq<Signal>, tokenLists: seq<seq<Token>>,
                                              buyOks: seq<seq<bool>>, now: real, k: nat)
    requires |tokenLists| == |signals| && |buyOks| == |signals|
    requires forall m :: 0 <= m < |signals| ==> |buyOks[m]| == |tokenLists[m]|
    ensures var (after, count') := SocialRound(held, count, signals, tokenLists, buyOks, now, k);
            && held.Keys <= after.Keys
            && count <= count' <= count + SocialWindow * (if k <= |signals| then |signals| - k else 0)
    decreases |signals| - k
  {
    if k < |signals| {
      SocialBuysSpec(held, count, signals[k], tokenLists[k], buyOks[k], now);
      var (held', count') := SocialBuys(held, count, signals[k], tokenLists[k], buyOks[k], now, 0);
      SocialRoundBounded(held', count', signals, tokenLists, buyOks, now, k + 1);
    }
  }

  // ---------------------------------------------------------------- exits

  /** Held more than two hours: `(now - entry_time) / 3600 > 2`. */
  predicate HeldTooLong(p: Position, now: real)
    ensures HeldTooLong(p, now) <==> now - p.entryTime > MaxHoldSeconds
  {
    (now - p.entryTime) / 3600.0 > 2.0
  }

  /** The positions left after one monitor pass: the ones held too long whose sale succeeded are gone. */
  function AfterExits(held: Book, now: real, sellOk: string -> bool): (after: Book)
    ensures forall a :: a in after ==> a in held && after[a] == held[a]
    ensures forall a :: a in held ==> (a !in after <==> HeldTooLong(held[a], now) && sellOk(a))
  {
    map a | a in held && !(HeldTooLong(held[a], now) && sellOk(a)) :: held[a]
  }

  /**
   * In simulation mode every sale succeeds, so a monitor pass leaves exactly
   * the positions held for at most two hours.
   */
  lemma SimulatedExits(held: Book, now: real)
    ensures AfterExits(held, now, _ => true).Keys == set a | a in held && (now - held[a].entryTime) <= MaxHoldSeconds
  {
    var after := AfterExits(held, now, _ => true);
    forall a | a in held ensures HeldTooLong(held[a], now) <==> now - held[a].entryTime > MaxHoldSeconds {
    }
  }

  // ---------------------------------------------------------------- the bot

  class SolanaTradingBot {
    var positions: Book
    var tradeCount: nat

    constructor ()
      ensures positions == map[] && tradeCount == 0
    {
      positions := map[];
      tradeCount := 0;
    }

    /** One pass of `scan_new_tokens` over the tokens `find_new_tokens` returned. */
    method ScanNewTokens(tokens: seq<Token>, buyOk: seq<bool>, now: real)
      requires |buyOk| == |tokens|
      modifies this
      ensures positions == ScanPositions(old(positions), tokens, buyOk, now)
      ensures tradeCount == old(tradeCount) + (if ScanPick(old(positions), tokens, buyOk).Some? then 1 else 0)
    {
      if |positions| >= MaxPositions {
        return;
      }
      var n := Min(ScannerWindow, |tokens|);
      var i := 0;
      while i < n
        invariant 0 <= i <= n
        invariant positions == old(positions) && tradeCount == old(tradeCount)
        invariant ScanPick(old(positions), tokens, buyOk) == PickFrom(old(positions), tokens, buyOk, i)
      {
        var token := tokens[i];
        if token.score >= BuyThreshold {
          if token.address in positions {
            i := i + 1;
            continue;
          }
          var success := buyOk[i];
          if success {
            positions := positions[token.address := ScannerPosition(token, now)];
            tradeCount := tradeCount + 1;
            return;
          }
        }
        i := i + 1;
      }
    }

    /** The handling of one signal in `monitor_social_signals`: try each of the first 3 tokens that match. */
    method ActOnSignal(signal: Signal, tokens: seq<Token>, buyOk: seq<bool>, now: real)
      requires |buyOk| == |tokens|
      modifies this
      ensures (positions, tradeCount) == SocialBuys(old(positions), old(tradeCount), signal, tokens, buyOk, now, 0)
    {
      var n := Min(SocialWindow, |tokens|);
      var i := 0;
      while i < n
        invariant 0 <= i <= n
        invariant SocialBuys(positions, tradeCount, signal, tokens, buyOk, now, i)
               == SocialBuys(old(positions), old(tradeCount), signal, tokens, buyOk, now, 0)
      {
        var token := tokens[i];
        if Matches(signal, token) {
          var success := buyOk[i];
          if success {
            positions := positions[token.address := SocialPosition(signal, token, now)];
            tradeCount := tradeCount + 1;
          }
        }
        i := i + 1;
      }
    }

    /** One round of `monitor_social_signals`: each signal, with the tokens fetched for it, in turn. */
    method MonitorSocialSignals(signals: seq<Signal>, tokenLists: seq<seq<Token>>, buyOks: seq<seq<bool>>, now: real)
      requires |tokenLists| == |signals| && |buyOks| == |signals|
      requires forall m :: 0 <= m < |signals| ==> |buyOks[m]| == |tokenLists[m]|
      modifies this
      ensures (positions, tradeCount) == SocialRound(old(positions), old(tradeCount), signals, tokenLists, buyOks, now, 0)
    {
      var k := 0;
      while k < |signals|
        invariant 0 <= k <= |signals|
        invariant SocialRound(positions, tradeCount, signals, tokenLists, buyOks, now, k)
               == SocialRound(old(positions), old(tradeCount), signals, tokenLists, buyOks, now, 0)
      {
        ActOnSignal(signals[k], tokenLists[k], buyOks[k], now);
        k := k + 1;
      }
    }

    /** One pass of `monitor_positions`: sell every position held more than two hours, drop it if the sale succeeded. */
    method MonitorPositions(now: real, sellOk: string -> bool)
      modifies this
      ensures positions == AfterExits(old(positions), now, sellOk)
      ensures tradeCount == old(tradeCount)
    {
      var pending := positions.Keys;
      ghost var before := positions;
      while pending != {}
        invariant pending <= before.Keys
        invariant tradeCount == old(tradeCount)
        invariant positions == map a | a in before && (a in pending || !(HeldTooLong(before[a], now) && sellOk(a))) :: before[a]
        decreases pending
      {
        var address :| address in pending;
        var position := positions[address];
        if HeldTooLong(position, now) {
          var success := sellOk(address);
          if success {
            positions := positions - {address};
          }
        }
        pending := pending - {address};
      }
    }
  }
}
