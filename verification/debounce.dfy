/** The confirmation counters of bot.py: the entry debouncer of
    `attempt_entry_and_trade` and the exit debouncer of
    `monitor_exit_for_active_trade`, as folds over the sequence of polls of
    the price feed. A poll is `None` when a fetch failed. */
module Debounce {
  import opened Common

  /** Entry needs the spread at or above this, in percent. */
  const ENTRY_SPREAD: real := 5.0
  /** Entry is abandoned once the spread drops below this, in percent. */
  const ENTRY_ABORT_THRESHOLD: real := 2.0
  /** Captured spread at which the trade is taken off, in percent. */
  const PROFIT_TARGET: real := 2.5
  /** An exit spread closer to zero than this also takes the trade off. */
  const NEAR_ZERO: real := 0.02
  /** Consecutive confirmations needed to enter and to exit. */
  const CONFIRMATIONS: nat := 3

  /** The entry spread of a poll in percent (KuCoin bid over Binance ask). */
  function EntrySpread(q: Quote): real
    requires q.binAsk != 0.0
  {
    PercentAbove(q.kuBid, q.binAsk)
  }

  /** A poll that counts towards entry. */
  predicate High(p: Option<Quote>) {
    Usable(p) && EntrySpread(p.value) >= ENTRY_SPREAD
  }

  /** A poll that aborts the entry attempt. */
  predicate Low(p: Option<Quote>) {
    Usable(p) && EntrySpread(p.value) < ENTRY_ABORT_THRESHOLD
  }

  /** Where the entry loop stands: still counting, or decided at a poll. */
  datatype EntryOutcome = Confirming(count: nat) | Aborted(at: nat) | Fired(at: nat)

  /** One pass of the entry loop: a failed fetch or a spread between the
      abort and the entry thresholds resets the counter, a spread below the
      abort threshold aborts, and a spread at the entry threshold counts,
      firing on the third count. */
  function EntryStep(count: nat, p: Option<Quote>, at: nat): (r: EntryOutcome)
    requires count < CONFIRMATIONS
    ensures r.Confirming? ==> r.count < CONFIRMATIONS && (r.count > 0 <==> High(p))
    ensures r.Aborted? <==> Low(p)
    ensures r.Fired? <==> count + 1 == CONFIRMATIONS && High(p)
    ensures !r.Confirming? ==> r.at == at
  {
    if !Usable(p) then Confirming(0)
    else if EntrySpread(p.value) < ENTRY_ABORT_THRESHOLD then Aborted(at)
    else if EntrySpread(p.value) >= ENTRY_SPREAD then
      (if count + 1 == CONFIRMATIONS then Fired(at) else Confirming(count + 1))
    else Confirming(0)
  }

  /** The entry loop after the polls of `feed`, starting from a zero count;
      once decided, later polls are not looked at. */
  function EntryAfter(feed: seq<Option<Quote>>): (r: EntryOutcome)
    ensures r.Confirming? ==> r.count < CONFIRMATIONS
    ensures !r.Confirming? ==> r.at < |feed|
  {
    if feed == [] then Confirming(0)
    else
      var prev := EntryAfter(feed[..|feed| - 1]);
      if prev.Confirming? then EntryStep(prev.count, feed[|feed| - 1], |feed| - 1) else prev
  }

  /** The number of polls at the end of `feed` that are all high. */
  function HighStreak(feed: seq<Option<Quote>>): nat {
    if feed == [] then 0
    else if High(feed[|feed| - 1]) then HighStreak(feed[..|feed| - 1]) + 1
    else 0
  }

  /** While undecided, the counter is the run of high polls at the end of
      the feed, and no poll so far was low. */
  lemma {:induction false} EntryCountIsHighStreak(feed: seq<Option<Quote>>)
    ensures EntryAfter(feed).Confirming? ==>
      EntryAfter(feed).count == HighStreak(feed) && forall j :: 0 <= j < |feed| ==> !Low(feed[j])
  {
    if feed != [] {
      var init := feed[..|feed| - 1];
      EntryCountIsHighStreak(init);
      if EntryAfter(feed).Confirming? {
        assert EntryAfter(init).Confirming?;
        forall j | 0 <= j < |feed| ensures !Low(feed[j]) {
          if j < |init| { assert feed[j] == init[j]; }
        }
      }
    }
  }

  /** A decision taken on a prefix of the feed is the decision on the whole feed. */
  lemma {:induction false} EntryDecisionIsFinal(feed: seq<Option<Quote>>, n: nat)
    requires n <= |feed| && !EntryAfter(feed[..n]).Confirming?
    ensures EntryAfter(feed) == EntryAfter(feed[..n])
  {
    if n < |feed| {
      var init := feed[..|feed| - 1];
      assert init[..n] == feed[..n];
      EntryDecisionIsFinal(init, n);
    } else {
      assert feed[..n] == feed;
    }
  }

  /** A decision is taken by the poll it names. */
  lemma {:induction false} EntryDecidedAt(feed: seq<Option<Quote>>)
    requires !EntryAfter(feed).Confirming?
    ensures EntryAfter(feed[..EntryAfter(feed).at]).Confirming?
    ensures EntryAfter(feed[..EntryAfter(feed).at + 1]) == EntryAfter(feed)
  {
    var init := feed[..|feed| - 1];
    if EntryAfter(init).Confirming? {
      assert EntryAfter(feed).at == |feed| - 1;
      assert feed[..|feed|] == feed;
    } else {
      EntryDecidedAt(init);
      var k := EntryAfter(init).at;
      assert init[..k] == feed[..k] && init[..k + 1] == feed[..k + 1];
    }
  }

  lemma {:induction false} HighStreakTail(feed: seq<Option<Quote>>, m: nat)
    requires m <= HighStreak(feed)
    ensures m <= |feed|
    ensures forall j :: |feed| - m <= j < |feed| ==> High(feed[j])
  {
    if m > 0 {
      var init := feed[..|feed| - 1];
      HighStreakTail(init, m - 1);
      forall j | |feed| - m <= j < |feed| ensures High(feed[j]) {
        if j < |feed| - 1 { assert feed[j] == init[j]; }
      }
    }
  }

  /** Orders are dispatched only after three consecutive high polls, with
      no low poll anywhere before them. */
  lemma FiredAfterThreeHighs(feed: seq<Option<Quote>>)
    requires EntryAfter(feed).Fired?
    ensures var k := EntryAfter(feed).at;
      2 <= k < |feed| && High(feed[k - 2]) && High(feed[k - 1]) && High(feed[k])
      && forall j :: 0 <= j <= k ==> !Low(feed[j])
  {
    var k := EntryAfter(feed).at;
    EntryDecidedAt(feed);
    var pre := feed[..k];
    EntryCountIsHighStreak(pre);
    var c := EntryAfter(pre).count;
    assert EntryAfter(feed[..k + 1]) == EntryStep(c, feed[k], k) by {
      assert feed[..k + 1][..k] == pre;
    }
    HighStreakTail(pre, 2);
    assert forall j :: 0 <= j < k ==> feed[j] == pre[j];
  }

  /** The attempt is abandoned at the first low poll, and only there. */
  lemma AbortedAtFirstLow(feed: seq<Option<Quote>>)
    requires EntryAfter(feed).Aborted?
    ensures var k := EntryAfter(feed).at;
      k < |feed| && Low(feed[k]) && forall j :: 0 <= j < k ==> !Low(feed[j])
  {
    var k := EntryAfter(feed).at;
    EntryDecidedAt(feed);
    var pre := feed[..k];
    EntryCountIsHighStreak(pre);
    assert EntryAfter(feed[..k + 1]) == EntryStep(EntryAfter(pre).count, feed[k], k) by {
      assert feed[..k + 1][..k] == pre;
    }
    forall j | 0 <= j < k ensures !Low(feed[j]) {
      assert feed[j] == pre[j];
    }
  }

  lemma {:induction false} HighStreakOfHighTail(feed: seq<Option<Quote>>, m: nat)
    requires m <= |feed|
    requires forall j :: |feed| - m <= j < |feed| ==> High(feed[j])
    ensures HighStreak(feed) >= m
  {
    if m > 0 {
      var init := feed[..|feed| - 1];
      forall j | |init| - (m - 1) <= j < |init| ensures High(init[j]) {
        assert init[j] == feed[j];
      }
      HighStreakOfHighTail(init, m - 1);
    }
  }

  /** Conversely, three consecutive high polls with no low poll before them
      fire the entry, at the third of them at the latest. */
  lemma ThreeHighsFire(feed: seq<Option<Quote>>, k: nat)
    requires 2 <= k < |feed|
    requires High(feed[k - 2]) && High(feed[k - 1]) && High(feed[k])
    requires forall j :: 0 <= j < k ==> !Low(feed[j])
    ensures EntryAfter(feed).Fired? && EntryAfter(feed).at <= k
  {
    var pre := feed[..k + 1];
    HighStreakOfHighTail(pre, 3);
    EntryCountIsHighStreak(pre);
    forall j | 0 <= j < |pre| ensures !Low(pre[j]) {
      assert pre[j] == feed[j];
    }
    if EntryAfter(pre).Aborted? {
      AbortedAtFirstLow(pre);
    }
    EntryDecisionIsFinal(feed, k + 1);
  }

  /** The exit spread of a poll in percent (KuCoin ask over Binance bid),
      measured against the Binance entry price; 0 without an entry price. */
  function ExitSpread(q: Quote, entryBin: real): real {
    if entryBin != 0.0 then 100.0 * (q.kuAsk - q.binBid) / entryBin else 0.0
  }

  /** The spread captured so far: the entry basis less the exit spread. */
  function Captured(basis: real, entryBin: real, q: Quote): real {
    basis - ExitSpread(q, entryBin)
  }

  predicate ExitCondition(basis: real, entryBin: real, q: Quote) {
    Captured(basis, entryBin, q) >= PROFIT_TARGET || Abs(ExitSpread(q, entryBin)) < NEAR_ZERO
  }

  /** A poll that counts towards exit. */
  predicate Meets(basis: real, entryBin: real, p: Option<Quote>) {
    Usable(p) && ExitCondition(basis, entryBin, p.value)
  }

  /** A poll that resets the exit counter. */
  predicate Misses(basis: real, entryBin: real, p: Option<Quote>) {
    Usable(p) && !ExitCondition(basis, entryBin, p.value)
  }

  /** Where the exit loop stands: still open with a count, or closing at a poll. */
  datatype ExitOutcome = Open(count: nat) | Closed(at: nat)

  /** One pass of the exit loop: a failed fetch changes nothing, a poll
      meeting the exit condition counts and closes once the count reaches
      three, any other poll resets the count. */
  function ExitStep(count: nat, basis: real, entryBin: real, p: Option<Quote>, at: nat): (r: ExitOutcome)
    ensures !Usable(p) ==> r == Open(count)
    ensures r.Closed? <==> Meets(basis, entryBin, p) && count + 1 >= CONFIRMATIONS
    ensures r.Closed? ==> r.at == at
    ensures Misses(basis, entryBin, p) ==> r == Open(0)
  {
    if !Usable(p) then Open(count)
    else if ExitCondition(basis, entryBin, p.value) then
      (if count + 1 >= CONFIRMATIONS then Closed(at) else Open(count + 1))
    else Open(0)
  }

  /** The exit loop after the polls of `feed`, from the count `start`. */
  function ExitAfter(start: nat, basis: real, entryBin: real, feed: seq<Option<Quote>>): (r: ExitOutcome)
    ensures r.Closed? ==> r.at < |feed|
    ensures r.Open? && start < CONFIRMATIONS ==> r.count < CONFIRMATIONS
  {
    if feed == [] then Open(start)
    else
      var prev := ExitAfter(start, basis, entryBin, feed[..|feed| - 1]);
      if prev.Open? then ExitStep(prev.count, basis, entryBin, feed[|feed| - 1], |feed| - 1) else prev
  }

  /** The polls meeting the exit condition since the last poll that missed
      it, failed fetches skipped. */
  function MeetStreak(basis: real, entryBin: real, feed: seq<Option<Quote>>): nat {
    if feed == [] then 0
    else if Misses(basis, entryBin, feed[|feed| - 1]) then 0
    else MeetStreak(basis, entryBin, feed[..|feed| - 1]) + (if Meets(basis, entryBin, feed[|feed| - 1]) then 1 else 0)
  }

  predicate NoMiss(basis: real, entryBin: real, feed: seq<Option<Quote>>) {
    forall j :: 0 <= j < |feed| ==> !Misses(basis, entryBin, feed[j])
  }

  /** The count that the exit loop would reach by plain counting: the start
      count is kept only while no poll has missed the condition. */
  function ExitCount(start: nat, basis: real, entryBin: real, feed: seq<Option<Quote>>): nat {
    (if NoMiss(basis, entryBin, feed) then start else 0) + MeetStreak(basis, entryBin, feed)
  }

  lemma NoMissInit(basis: real, entryBin: real, feed: seq<Option<Quote>>)
    requires feed != []
    ensures NoMiss(basis, entryBin, feed) <==>
      NoMiss(basis, entryBin, feed[..|feed| - 1]) && !Misses(basis, entryBin, feed[|feed| - 1])
  {
    var init := feed[..|feed| - 1];
    if NoMiss(basis, entryBin, init) && !Misses(basis, entryBin, feed[|feed| - 1]) {
      forall j | 0 <= j < |feed| ensures !Misses(basis, entryBin, feed[j]) {
        if j < |init| { assert feed[j] == init[j]; }
      }
    }
    if NoMiss(basis, entryBin, feed) {
      forall j | 0 <= j < |init| ensures !Misses(basis, entryBin, init[j]) {
        assert feed[j] == init[j];
      }
    }
  }

  /** While the trade stays open, the exit counter is the plain count of
      polls meeting the condition since the last poll that missed it. */
  lemma {:induction false} ExitCountIsStreak(start: nat, basis: real, entryBin: real, feed: seq<Option<Quote>>)
    ensures ExitAfter(start, basis, entryBin, feed).Open? ==>
      ExitAfter(start, basis, entryBin, feed).count == ExitCount(start, basis, entryBin, feed)
  {
    if feed != [] {
      var init := feed[..|feed| - 1];
      ExitCountIsStreak(start, basis, entryBin, init);
      NoMissInit(basis, entryBin, feed);
    }
  }

  /** The trade is taken off exactly at the poll where that count reaches
      three, and that poll meets the exit condition. */
  lemma {:induction false} ExitClosesOnThirdMeet(start: nat, basis: real, entryBin: real, feed: seq<Option<Quote>>)
    requires ExitAfter(start, basis, entryBin, feed).Closed?
    ensures var k := ExitAfter(start, basis, entryBin, feed).at;
      Meets(basis, entryBin, feed[k])
      && ExitAfter(start, basis, entryBin, feed[..k]).Open?
      && ExitCount(start, basis, entryBin, feed[..k + 1]) >= CONFIRMATIONS
      && ExitCount(start, basis, entryBin, feed[..k + 1]) == ExitCount(start, basis, entryBin, feed[..k]) + 1
  {
    var init := feed[..|feed| - 1];
    var k := ExitAfter(start, basis, entryBin, feed).at;
    if ExitAfter(start, basis, entryBin, init).Open? {
      assert k == |feed| - 1;
      assert feed[..k] == init && feed[..k + 1] == feed;
      ExitCountIsStreak(start, basis, entryBin, init);
      NoMissInit(basis, entryBin, feed);
    } else {
      ExitClosesOnThirdMeet(start, basis, entryBin, init);
      assert init[..k] == feed[..k] && init[..k + 1] == feed[..k + 1];
    }
  }

  /** Once the trade is taken off, later polls are not looked at. */
  lemma {:induction false} ExitDecisionIsFinal(start: nat, basis: real, entryBin: real, feed: seq<Option<Quote>>, n: nat)
    requires n <= |feed| && ExitAfter(start, basis, entryBin, feed[..n]).Closed?
    ensures ExitAfter(start, basis, entryBin, feed) == ExitAfter(start, basis, entryBin, feed[..n])
  {
    if n < |feed| {
      var init := feed[..|feed| - 1];
      assert init[..n] == feed[..n];
      ExitDecisionIsFinal(start, basis, entryBin, init, n);
    } else {
      assert feed[..n] == feed;
    }
  }

  /** A poll that fails to fetch leaves the exit loop where it was. */
  lemma ExitIgnoresFailedFetch(start: nat, basis: real, entryBin: real, feed: seq<Option<Quote>>, p: Option<Quote>)
    requires !Usable(p)
    ensures ExitAfter(start, basis, entryBin, feed + [p]) == ExitAfter(start, basis, entryBin, feed)
  {
    assert (feed + [p])[..|feed|] == feed;
  }
}
