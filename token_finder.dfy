/**
 * Token discovery on pump.fun (main.py, class TokenFinder): the tiered score
 * of a coin, and the filter, early abort and descending sort that
 * `find_new_tokens` applies to the list of newest coins.
 *
 * The HTTP fetch is a parameter: `None` stands for a non-200 answer or a
 * failed request, both of which leave the token list empty. `time.time()`
 * is the parameter `now` (seconds). Scores are integer tenths: 3 is 0.3.
 */
module TokenFinder {
  import opened Wrappers
  import opened Text

  /** A coin as pump.fun returns it; every field may be missing from the JSON object. */
  datatype Coin = Coin(
    mint: Option<string>,
    symbol: Option<string>,
    name: Option<string>,
    liquidityUsd: Option<real>,
    marketCap: Option<real>,
    createdAt: Option<real>)

  /** A candidate token as `find_new_tokens` builds it. */
  datatype Token = Token(
    address: string,
    symbol: string,
    name: string,
    liquidity: real,
    ageMinutes: real,
    score: nat)

  /** Highest possible score, 1.0. */
  const MaxScore: nat := 10
  /** Only this many of the newest coins are looked at. */
  const ScanWindow: nat := 20
  const MemeWords: seq<string> := ["elon", "doge", "moon", "mars", "pepe", "maga", "trump"]

  // ---------------------------------------------------------------- score

  /** Liquidity part of the score: 0.3 / 0.2 / 0.1 / 0 with strict lower bounds. */
  function LiquidityTier(liquidity: real): (r: nat)
    ensures r <= 3
    ensures r == 3 <==> liquidity > 50000.0
    ensures r >= 2 <==> liquidity > 25000.0
    ensures r >= 1 <==> liquidity > 10000.0
  {
    if liquidity > 50000.0 then 3
    else if liquidity > 25000.0 then 2
    else if liquidity > 10000.0 then 1
    else 0
  }

  /** Age part of the score: 0.3 / 0.2 / 0.1 / 0 with strict upper bounds (newer is better). */
  function AgeTier(ageMinutes: real): (r: nat)
    ensures r <= 3
    ensures r == 3 <==> ageMinutes < 10.0
    ensures r >= 2 <==> ageMinutes < 30.0
    ensures r >= 1 <==> ageMinutes < 60.0
  {
    if ageMinutes < 10.0 then 3
    else if ageMinutes < 30.0 then 2
    else if ageMinutes < 60.0 then 1
    else 0
  }

  /** Minutes since creation; a coin without `created_at` is taken to be created `now`. */
  function AgeMinutes(c: Coin, now: real): (r: real)
    ensures c.createdAt.None? ==> r == 0.0
    ensures c.createdAt.Some? ==> (r < 10.0 <==> now - c.createdAt.value < 600.0)
    ensures c.createdAt.GetOr(now) <= now ==> r >= 0.0
  {
    (now - c.createdAt.GetOr(now)) / 60.0
  }

  /** The loop over `words` that stops at the first one found in the name or the symbol. */
  predicate AnyWordIn(words: seq<string>, name: string, symbol: string) {
    if words == [] then false
    else if Contains(name, words[0]) || Contains(symbol, words[0]) then true
    else AnyWordIn(words[1..], name, symbol)
  }

  /** The meme bonus, 0.2, granted once however many meme words match. */
  function MemeBonus(c: Coin): (r: nat)
    ensures r == 0 || r == 2
    ensures c.name.None? && c.symbol.None? ==> r == 0
  {
    if AnyWordIn(MemeWords, Lower(c.name.GetOr("")), Lower(c.symbol.GetOr(""))) then 2 else 0
  }

  /** The smaller of two counts. */
  function Min(a: nat, b: nat): (r: nat)
    ensures r <= a && r <= b
    ensures r == a || r == b
  {
    if a <= b then a else b
  }

  /** `_calculate_score`: liquidity tier + age tier + meme bonus, capped at 1.0. */
  function Score(c: Coin, now: real): (r: nat)
    ensures r <= MaxScore
  {
    Min(LiquidityTier(c.liquidityUsd.GetOr(0.0)) + AgeTier(AgeMinutes(c, now)) + MemeBonus(c), MaxScore)
  }

  /** The early-exit word loop finds a word exactly when some word of the list matches. */
  lemma {:induction false} AnyWordInIff(words: seq<string>, name: string, symbol: string)
    ensures AnyWordIn(words, name, symbol) <==>
            exists i :: 0 <= i < |words| && (Contains(name, words[i]) || Contains(symbol, words[i]))
  {
    if words != [] {
      AnyWordInIff(words[1..], name, symbol);
      if exists i :: 0 <= i < |words| && (Contains(name, words[i]) || Contains(symbol, words[i])) {
        var i :| 0 <= i < |words| && (Contains(name, words[i]) || Contains(symbol, words[i]));
        if i > 0 {
          assert words[1..][i - 1] == words[i];
        }
      }
    }
  }

  /** The meme bonus is 0.2 exactly when some meme word occurs in the lower-cased name or symbol, else 0. */
  lemma MemeBonusIff(c: Coin)
    ensures MemeBonus(c) == 2 || MemeBonus(c) == 0
    ensures MemeBonus(c) == 2 <==>
            exists i :: 0 <= i < |MemeWords| &&
              (Contains(Lower(c.name.GetOr("")), MemeWords[i]) || Contains(Lower(c.symbol.GetOr("")), MemeWords[i]))
  {
    AnyWordInIff(MemeWords, Lower(c.name.GetOr("")), Lower(c.symbol.GetOr("")));
  }

  /** The score is the plain sum of its three parts: the parts add up to at most 0.8, so the 1.0 cap never bites. */
  lemma ScoreIsSumOfTiers(c: Coin, now: real)
    ensures Score(c, now) == LiquidityTier(c.liquidityUsd.GetOr(0.0)) + AgeTier(AgeMinutes(c, now)) + MemeBonus(c)
    ensures Score(c, now) <= 8
  {
  }

  /** A coin with no creation time has age 0 and gets the top age tier. */
  lemma MissingCreatedAtIsNewest(c: Coin, now: real)
    requires c.createdAt.None?
    ensures AgeMinutes(c, now) == 0.0
    ensures AgeTier(AgeMinutes(c, now)) == 3
  {
  }

  /**
   * The scanner's threshold of 0.7 is reached exactly when the coin has the
   * meme bonus and its liquidity and age tiers add up to at least 0.5.
   */
  lemma ScoreThresholdIff(c: Coin, now: real)
    ensures Score(c, now) >= 7 <==>
            MemeBonus(c) == 2 &&
            c.liquidityUsd.GetOr(0.0) > 25000.0 && AgeMinutes(c, now) < 30.0 &&
            (c.liquidityUsd.GetOr(0.0) > 50000.0 || AgeMinutes(c, now) < 10.0)
  {
    MemeBonusIff(c);
  }

  /** More liquidity never lowers the score. */
  lemma ScoreMonotoneInLiquidity(c: Coin, more: real, now: real)
    requires c.liquidityUsd.GetOr(0.0) <= more
    ensures Score(c, now) <= Score(c.(liquidityUsd := Some(more)), now)
  {
  }

  /** A more recently created coin never scores lower. */
  lemma ScoreMonotoneInCreation(c: Coin, later: real, now: real)
    requires c.createdAt.Some? && c.createdAt.value <= later
    ensures Score(c, now) <= Score(c.(createdAt := Some(later)), now)
  {
  }

  // ---------------------------------------------------------------- filter

  /** The basic filters: liquidity above 5000 and market cap below 500000 (missing values read as 0). */
  predicate PassesFilter(c: Coin)
    ensures PassesFilter(c) ==> c.liquidityUsd.Some? && c.liquidityUsd.value > 5000.0
    ensures c.marketCap.None? ==> (PassesFilter(c) <==> c.liquidityUsd.GetOr(0.0) > 5000.0)
  {
    c.liquidityUsd.GetOr(0.0) > 5000.0 && c.marketCap.GetOr(0.0) < 500000.0
  }

  /** The token dictionary built for a coin that passes the filters and has a mint. */
  function MakeToken(c: Coin, now: real): (t: Token)
    requires c.mint.Some?
    ensures t.address == c.mint.value && t.score == Score(c, now)
  {
    Token(c.mint.value, c.symbol.GetOr("UNKNOWN"), c.name.GetOr(""),
          c.liquidityUsd.GetOr(0.0), AgeMinutes(c, now), Score(c, now))
  }

  /** The tokens gathered by the loop, and whether it ran to the end (`false`: a `KeyError` on `mint` ended it). */
  datatype Gathered = Gathered(tokens: seq<Token>, complete: bool)

  /** A coin that the loop reaches and that raises: it passes the filters but has no mint. */
  predicate Aborts(c: Coin) {
    PassesFilter(c) && c.mint.None?
  }

  /** The filtering loop over the scanned coins, stopping at the first coin that aborts it. */
  function Gather(cs: seq<Coin>, now: real): (g: Gathered)
    ensures |g.tokens| <= |cs|
    ensures g.complete <==> forall i :: 0 <= i < |cs| ==> !Aborts(cs[i])
    ensures forall t :: t in g.tokens ==>
              exists i :: 0 <= i < |cs| && PassesFilter(cs[i]) && cs[i].mint.Some? && t == MakeToken(cs[i], now)
  {
    if cs == [] then Gathered([], true)
    else if !PassesFilter(cs[0]) then
      var g := Gather(cs[1..], now);
      assert forall i :: 1 <= i < |cs| ==> cs[i] == cs[1..][i - 1];
      g
    else if cs[0].mint.None? then Gathered([], false)
    else
      var g := Gather(cs[1..], now);
      assert forall i :: 1 <= i < |cs| ==> cs[i] == cs[1..][i - 1];
      Gathered([MakeToken(cs[0], now)] + g.tokens, g.complete)
  }

  /**
   * Gathering over a concatenation: the second part is looked at only when
   * the first ran to the end, and its tokens then follow the first part's,
   * so the loop keeps input order and stops for good at the first abort.
   */
  lemma {:induction false} GatherAppend(a: seq<Coin>, b: seq<Coin>, now: real)
    ensures Gather(a + b, now) ==
            if Gather(a, now).complete
            then Gathered(Gather(a, now).tokens + Gather(b, now).tokens, Gather(b, now).complete)
            else Gather(a, now)
  {
    if a != [] {
      assert (a + b)[1..] == a[1..] + b;
      GatherAppend(a[1..], b, now);
    } else {
      assert a + b == b;
    }
  }

  /**
   * The loop keeps every coin it reaches: a coin that passes both filters
   * and has a mint, with no aborting coin before it, yields its token.
   */
  lemma {:induction false} GatherKeepsPassing(cs: seq<Coin>, now: real)
    ensures forall i :: 0 <= i < |cs| && PassesFilter(cs[i]) && cs[i].mint.Some? &&
                        (forall j :: 0 <= j < i ==> !Aborts(cs[j])) ==>
              MakeToken(cs[i], now) in Gather(cs, now).tokens
  {
    if cs != [] && !Aborts(cs[0]) {
      GatherKeepsPassing(cs[1..], now);
      forall i | 1 <= i < |cs| && PassesFilter(cs[i]) && cs[i].mint.Some? &&
                 (forall j :: 0 <= j < i ==> !Aborts(cs[j]))
        ensures MakeToken(cs[i], now) in Gather(cs, now).tokens
      {
        assert cs[1..][i - 1] == cs[i];
        forall j | 0 <= j < i - 1 ensures !Aborts(cs[1..][j]) {
          assert cs[1..][j] == cs[j + 1];
        }
      }
    }
  }

  // ---------------------------------------------------------------- sort

  /** Scores never increase along the list. */
  predicate NonIncreasing(ts: seq<Token>) {
    forall i, j :: 0 <= i < j < |ts| ==> ts[i].score >= ts[j].score
  }

  /** The tokens of `ts` whose score is `v`, in order. */
  function WithScore(ts: seq<Token>, v: nat): (r: seq<Token>)
    ensures |r| <= |ts|
  {
    if ts == [] then []
    else (if ts[0].score == v then [ts[0]] else []) + WithScore(ts[1..], v)
  }

  /** Places `t` before the first token that does not score higher, behind those that do. */
  function Insert(t: Token, ts: seq<Token>): (r: seq<Token>)
    ensures |r| == |ts| + 1
    ensures ts == [] || ts[0].score <= t.score ==> r[0] == t
    ensures ts != [] && ts[0].score > t.score ==> r[0] == ts[0]
  {
    if ts == [] || ts[0].score <= t.score then [t] + ts
    else [ts[0]] + Insert(t, ts[1..])
  }

  /** Inserting into a list sorted by score keeps it sorted. */
  lemma {:induction false} InsertSorted(t: Token, ts: seq<Token>)
    requires NonIncreasing(ts)
    ensures NonIncreasing(Insert(t, ts))
  {
    if ts != [] && ts[0].score > t.score {
      var rest := Insert(t, ts[1..]);
      assert NonIncreasing(ts[1..]) by {
        forall i, j | 0 <= i < j < |ts[1..]| ensures ts[1..][i].score >= ts[1..][j].score {
          assert ts[1..][i] == ts[i + 1] && ts[1..][j] == ts[j + 1];
        }
      }
      InsertSorted(t, ts[1..]);
      assert ts[0].score >= rest[0].score;
      var r := [ts[0]] + rest;
      forall i, j | 0 <= i < j < |r| ensures r[i].score >= r[j].score {
        if i == 0 {
          assert r[j] == rest[j - 1];
        } else {
          assert r[i] == rest[i - 1] && r[j] == rest[j - 1];
        }
      }
    }
  }

  /** Inserting adds exactly `t`: the result is a permutation of `ts` with `t`. */
  lemma {:induction false} InsertPerm(t: Token, ts: seq<Token>)
    ensures multiset(Insert(t, ts)) == multiset(ts) + multiset{t}
  {
    if ts != [] && ts[0].score > t.score {
      InsertPerm(t, ts[1..]);
      assert ts == [ts[0]] + ts[1..];
    }
  }

  /** `tokens.sort(key=score, reverse=True)`: Python's stable sort, highest score first. */
  function SortByScore(ts: seq<Token>): (r: seq<Token>)
    ensures NonIncreasing(r)
    ensures multiset(r) == multiset(ts)
    ensures |r| == |ts|
  {
    if ts == [] then []
    else
      var rest := SortByScore(ts[1..]);
      SortStep(ts, rest);
      Insert(ts[0], rest)
  }

  /** Inserting the head of `ts` into a sorted permutation of its tail gives a sorted permutation of `ts`. */
  lemma SortStep(ts: seq<Token>, rest: seq<Token>)
    requires ts != [] && NonIncreasing(rest) && multiset(rest) == multiset(ts[1..])
    ensures NonIncreasing(Insert(ts[0], rest))
    ensures multiset(Insert(ts[0], rest)) == multiset(ts)
  {
    InsertSorted(ts[0], rest);
    InsertPerm(ts[0], rest);
    assert ts == [ts[0]] + ts[1..];
  }

  lemma {:induction false} InsertWithScore(t: Token, ts: seq<Token>, v: nat)
    ensures WithScore(Insert(t, ts), v) == (if t.score == v then [t] else []) + WithScore(ts, v)
  {
    if ts == [] || ts[0].score <= t.score {
      assert ([t] + ts)[1..] == ts;
    } else {
      var rest := Insert(t, ts[1..]);
      var head := if ts[0].score == v then [ts[0]] else [];
      var mid := if t.score == v then [t] else [];
      assert WithScore(rest, v) == mid + WithScore(ts[1..], v) by {
        InsertWithScore(t, ts[1..], v);
      }
      assert WithScore(Insert(t, ts), v) == head + WithScore(rest, v) by {
        assert Insert(t, ts) == [ts[0]] + rest;
        assert ([ts[0]] + rest)[1..] == rest;
      }
      assert WithScore(ts, v) == head + WithScore(ts[1..], v);
      assert head == [] || mid == [];
    }
  }

  /**
   * Sorting is stable: the tokens of any one score appear in the result in
   * the order they had in the input.
   */
  lemma {:induction false} SortByScoreStable(ts: seq<Token>, v: nat)
    ensures WithScore(SortByScore(ts), v) == WithScore(ts, v)
  {
    if ts != [] {
      SortByScoreStable(ts[1..], v);
      InsertWithScore(ts[0], SortByScore(ts[1..]), v);
    }
  }

  // ---------------------------------------------------------------- find_new_tokens

  /** `data[:20]`. */
  function Window(data: seq<Coin>): (w: seq<Coin>)
    ensures |w| == if |data| <= ScanWindow then |data| else ScanWindow
    ensures w <= data
  {
    if |data| <= ScanWindow then data else data[..ScanWindow]
  }

  /**
   * `find_new_tokens`: the tokens of the first 20 coins that pass the
   * filters, highest score first; when a passing coin lacks a mint, the
   * handler returns what was gathered up to it, unsorted.
   */
  function FindNewTokens(fetched: Option<seq<Coin>>, now: real): (r: seq<Token>)
    ensures |r| <= ScanWindow
    ensures fetched.None? ==> r == []
  {
    match fetched
    case None => []
    case Some(data) =>
      var g := Gather(Window(data), now);
      if g.complete then SortByScore(g.tokens) else g.tokens
  }

  /**
   * What `find_new_tokens` returns: every token comes from a passing coin
   * among the first 20; when no passing coin lacks a mint the list is
   * sorted by score, non-increasing, a permutation of the gathered tokens
   * with equal scores kept in input order; otherwise it is exactly the
   * tokens of the passing coins before the first one without a mint.
   */
  lemma FindNewTokensSpec(data: seq<Coin>, now: real)
    ensures var r := FindNewTokens(Some(data), now);
            var w := Window(data);
            && (forall t :: t in r ==>
                  exists i :: 0 <= i < |w| && PassesFilter(w[i]) && w[i].mint.Some? && t == MakeToken(w[i], now))
            && ((forall i :: 0 <= i < |w| ==> !Aborts(w[i])) ==>
                  && NonIncreasing(r)
                  && multiset(r) == multiset(Gather(w, now).tokens)
                  && forall v :: WithScore(r, v) == WithScore(Gather(w, now).tokens, v))
            && (forall k :: 0 <= k < |w| && Aborts(w[k]) && (forall i :: 0 <= i < k ==> !Aborts(w[i])) ==>
                  r == Gather(w[..k], now).tokens)
            && (forall i :: 0 <= i < |w| && PassesFilter(w[i]) && w[i].mint.Some? &&
                            (forall j :: 0 <= j < i ==> !Aborts(w[j])) ==>
                  MakeToken(w[i], now) in r)
  {
    var w := Window(data);
    var g := Gather(w, now);
    var r := FindNewTokens(Some(data), now);
    GatherKeepsPassing(w, now);
    forall i | 0 <= i < |w| && PassesFilter(w[i]) && w[i].mint.Some? && (forall j :: 0 <= j < i ==> !Aborts(w[j]))
      ensures MakeToken(w[i], now) in r
    {
      assert MakeToken(w[i], now) in g.tokens;
      if g.complete {
        assert MakeToken(w[i], now) in multiset(g.tokens);
        assert MakeToken(w[i], now) in multiset(r);
      }
    }
    if g.complete {
      forall t | t in r
        ensures exists i :: 0 <= i < |w| && PassesFilter(w[i]) && w[i].mint.Some? && t == MakeToken(w[i], now)
      {
        assert t in multiset(r);
        assert t in multiset(g.tokens);
        assert t in g.tokens;
      }
      forall v ensures WithScore(r, v) == WithScore(g.tokens, v) {
        SortByScoreStable(g.tokens, v);
      }
    }
    forall k | 0 <= k < |w| && Aborts(w[k]) && (forall i :: 0 <= i < k ==> !Aborts(w[i]))
      ensures r == Gather(w[..k], now).tokens
    {
      assert w == w[..k] + w[k..];
      GatherAppend(w[..k], w[k..], now);
      assert w[k..][0] == w[k];
    }
  }
}
