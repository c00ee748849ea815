/**
 * Keyword detection on VIP tweets (main.py, class SocialMonitor). The
 * Twitter requests are not modelled: the texts of an account's recent
 * tweets are a parameter. Multipliers are integer tenths: 20 is 2.0.
 */
module SocialMonitor {
  import opened Wrappers
  import opened Text

  /** A pump signal: who tweeted, which keyword matched, the tweet's first 100 characters, the size multiplier. */
  datatype Signal = Signal(account: string, keyword: string, text: string, multiplier: nat)

  const PumpKeywords: seq<string> := ["doge", "shib", "mars", "moon", "maga", "trump", "america", "listing", "pump", "crypto"]
  /** Only this many characters of the tweet are kept in the signal. */
  const SignalTextLength: nat := 100

  /** The keyword loop with `break`: the first keyword, in list order, that occurs in `text`. */
  function FirstKeyword(keywords: seq<string>, text: string): (r: Option<string>)
    ensures r.Some? ==> r.value in keywords && Contains(text, r.value)
  {
    if keywords == [] then None
    else if Contains(text, keywords[0]) then Some(keywords[0])
    else
      var r := FirstKeyword(keywords[1..], text);
      assert r.Some? ==> r.value in keywords[1..];
      r
  }

  /** `s[:n]`. */
  function Truncate(s: string, n: nat): (r: string)
    ensures |r| == if |s| <= n then |s| else n
    ensures r <= s
  {
    if |s| <= n then s else s[..n]
  }

  /** The multiplier of an account's signals: 2.0 for elonmusk, 1.5 for everyone else. */
  function Multiplier(account: string): nat {
    if account == "elonmusk" then 20 else 15
  }

  /** The signal one tweet yields, if any. */
  function TweetSignal(account: string, tweet: string): (r: Option<Signal>)
    ensures r.Some? ==> r.value.account == account && r.value.keyword in PumpKeywords
                        && Contains(Lower(tweet), r.value.keyword) && r.value.text <= tweet
  {
    match FirstKeyword(PumpKeywords, Lower(tweet))
    case None => None
    case Some(k) => Some(Signal(account, k, Truncate(tweet, SignalTextLength), Multiplier(account)))
  }

  /** The loop over one account's tweets: each tweet contributes at most one signal, in tweet order. */
  function TweetsSignals(account: string, tweets: seq<string>): (r: seq<Signal>)
    ensures |r| <= |tweets|
    ensures forall s :: s in r ==> s.account == account && s.keyword in PumpKeywords
  {
    if tweets == [] then []
    else
      match TweetSignal(account, tweets[0])
      case None => TweetsSignals(account, tweets[1..])
      case Some(s) => [s] + TweetsSignals(account, tweets[1..])
  }

  /**
   * The loop over the tweets keeps exactly the per-tweet signals: every tweet
   * that yields a signal contributes it, and every signal comes from a tweet.
   */
  lemma {:induction false} TweetsSignalsComplete(account: string, tweets: seq<string>)
    ensures forall i :: 0 <= i < |tweets| && TweetSignal(account, tweets[i]).Some? ==>
              TweetSignal(account, tweets[i]).value in TweetsSignals(account, tweets)
    ensures forall s :: s in TweetsSignals(account, tweets) ==>
              exists i :: 0 <= i < |tweets| && TweetSignal(account, tweets[i]) == Some(s)
  {
    if tweets != [] {
      TweetsSignalsComplete(account, tweets[1..]);
      assert forall i :: 1 <= i < |tweets| ==> tweets[1..][i - 1] == tweets[i];
      forall s | s in TweetsSignals(account, tweets)
        ensures exists i :: 0 <= i < |tweets| && TweetSignal(account, tweets[i]) == Some(s)
      {
        if s !in TweetsSignals(account, tweets[1..]) {
          assert TweetSignal(account, tweets[0]) == Some(s);
        } else {
          var j :| 0 <= j < |tweets[1..]| && TweetSignal(account, tweets[1..][j]) == Some(s);
          assert TweetSignal(account, tweets[j + 1]) == Some(s);
        }
      }
    }
  }

  /** The loop keeps tweet order: the signals of `a + b` are those of `a`, then those of `b`. */
  lemma {:induction false} TweetsSignalsAppend(account: string, a: seq<string>, b: seq<string>)
    ensures TweetsSignals(account, a + b) == TweetsSignals(account, a) + TweetsSignals(account, b)
  {
    if a == [] {
      assert a + b == b;
    } else {
      assert (a + b)[0] == a[0];
      assert (a + b)[1..] == a[1..] + b;
      TweetsSignalsAppend(account, a[1..], b);
    }
  }

  /**
   * First match: the result is the keyword at the smallest index that occurs
   * in the text, and there is none exactly when no keyword occurs.
   */
  lemma {:induction false} FirstKeywordSpec(keywords: seq<string>, text: string)
    ensures FirstKeyword(keywords, text).None? <==> forall i :: 0 <= i < |keywords| ==> !Contains(text, keywords[i])
    ensures FirstKeyword(keywords, text).Some? ==>
              exists i :: 0 <= i < |keywords| && keywords[i] == FirstKeyword(keywords, text).value
                && Contains(text, keywords[i])
                && forall j :: 0 <= j < i ==> !Contains(text, keywords[j])
  {
    if keywords != [] && !Contains(text, keywords[0]) {
      FirstKeywordSpec(keywords[1..], text);
      forall i | 1 <= i < |keywords| ensures keywords[i] == keywords[1..][i - 1] { }
      if FirstKeyword(keywords, text).Some? {
        var i :| 0 <= i < |keywords[1..]| && keywords[1..][i] == FirstKeyword(keywords, text).value
                 && Contains(text, keywords[1..][i])
                 && forall j :: 0 <= j < i ==> !Contains(text, keywords[1..][j]);
        assert keywords[i + 1] == FirstKeyword(keywords, text).value;
      }
    } else if keywords != [] {
      assert Contains(text, keywords[0]);
    }
  }

  /**
   * A tweet yields a signal exactly when its lower-cased text contains a pump
   * keyword; the signal names the first such keyword in list order and
   * carries the account's multiplier and the first 100 characters of the
   * text (all of it when shorter).
   */
  lemma TweetSignalSpec(account: string, tweet: string)
    ensures TweetSignal(account, tweet).None? <==>
              forall i :: 0 <= i < |PumpKeywords| ==> !Contains(Lower(tweet), PumpKeywords[i])
    ensures TweetSignal(account, tweet).Some? ==>
              var s := TweetSignal(account, tweet).value;
              && s.account == account
              && (s.multiplier == 20 <==> account == "elonmusk")
              && (s.multiplier == 15 <==> account != "elonmusk")
              && |s.text| == (if |tweet| <= SignalTextLength then |tweet| else SignalTextLength) && s.text <= tweet
              && exists i :: 0 <= i < |PumpKeywords| && PumpKeywords[i] == s.keyword
                   && Contains(Lower(tweet), s.keyword)
                   && forall j :: 0 <= j < i ==> !Contains(Lower(tweet), PumpKeywords[j])
  {
    FirstKeywordSpec(PumpKeywords, Lower(tweet));
  }
}
