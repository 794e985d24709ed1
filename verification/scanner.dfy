/** The bookkeeping of the scanner loop in `main` of bot.py: shortlisting
    candidates at the start of a window, tracking each candidate's extreme
    spreads, the per-symbol alert cooldown, the two fast rechecks that
    confirm an alert, and the end-of-window summary. Prices and the clock
    are inputs. */
module Scanner {
  import opened Common
  import opened Sizing

  /** Minimum spread to shortlist a symbol, in percent. */
  const SCAN_THRESHOLD: real := 0.25
  /** Spread that raises an alert, in percent. */
  const ALERT_THRESHOLD: real := 5.0
  /** Seconds before the same symbol may alert again. */
  const ALERT_COOLDOWN: real := 60.0
  /** Fast rechecks that may confirm an alert. */
  const CONFIRM_RETRIES: nat := 2

  /** A shortlisted symbol: its KuCoin name and the spreads seen so far. */
  datatype Candidate = Candidate(kuSym: string, startSpread: real, maxSpread: real, minSpread: real, alerted: bool)

  /** The KuCoin symbol for a normalised name: the mapped one, else the
      name with `M` appended. */
  function KuSymFor(kuMap: map<string, string>, sym: string): string {
    if sym in kuMap then kuMap[sym] else sym + "M"
  }

  /** The spread of a symbol in the start-of-window snapshot, if both books
      have it and it is reported. The KuCoin prices come from the fetcher,
      which keeps only positive ticks; the Binance book is taken as is. */
  function ScanSpread(sym: string, kuMap: map<string, string>, binBook: map<string, Tick>, kuPrices: map<string, Tick>): Option<real> {
    var k := KuSymFor(kuMap, sym);
    if sym in binBook && k in kuPrices && Live(kuPrices[k]) then
      CalculateSpread(binBook[sym].bid, binBook[sym].ask, kuPrices[k].bid, kuPrices[k].ask)
    else None
  }

  predicate Qualifies(sym: string, kuMap: map<string, string>, binBook: map<string, Tick>, kuPrices: map<string, Tick>) {
    var s := ScanSpread(sym, kuMap, binBook, kuPrices);
    s.Some? && s.value >= SCAN_THRESHOLD
  }

  /** A fresh candidate entry: every recorded spread is the first one. */
  function Fresh(kuSym: string, spread: real): Candidate {
    Candidate(kuSym, spread, spread, spread, false)
  }

  /** The extremes of a candidate bracket its first spread. */
  predicate Bracketed(c: Candidate) {
    c.minSpread <= c.startSpread <= c.maxSpread
  }

  /** A candidate after a poll with spread `s`: the maximum and the minimum
      are raised and lowered to take it in. */
  function Track(c: Candidate, s: real): (d: Candidate)
    ensures d.kuSym == c.kuSym && d.startSpread == c.startSpread && d.alerted == c.alerted
    ensures d.maxSpread >= c.maxSpread && d.maxSpread >= s && (d.maxSpread == c.maxSpread || d.maxSpread == s)
    ensures d.minSpread <= c.minSpread && d.minSpread <= s && (d.minSpread == c.minSpread || d.minSpread == s)
  {
    c.(maxSpread := if s > c.maxSpread then s else c.maxSpread,
       minSpread := if s < c.minSpread then s else c.minSpread)
  }

  /** The maximum of a candidate is the largest of the spreads it has
      seen, the minimum the smallest, and both bracket the first one. */
  lemma {:induction false} TrackedExtremes(c: Candidate, spreads: seq<real>)
    requires c.minSpread == c.startSpread == c.maxSpread
    ensures var d := TrackAll(c, spreads);
      Bracketed(d) &&
      (forall i :: 0 <= i < |spreads| ==> d.minSpread <= spreads[i] <= d.maxSpread) &&
      (d.maxSpread == c.startSpread || exists i :: 0 <= i < |spreads| && d.maxSpread == spreads[i]) &&
      (d.minSpread == c.startSpread || exists i :: 0 <= i < |spreads| && d.minSpread == spreads[i])
  {
    if spreads != [] {
      var init := spreads[..|spreads| - 1];
      TrackedExtremes(c, init);
      var prev := TrackAll(c, init);
      forall i | 0 <= i < |spreads|
        ensures TrackAll(c, spreads).minSpread <= spreads[i] <= TrackAll(c, spreads).maxSpread
      {
        if i < |init| { assert spreads[i] == init[i]; }
      }
      if prev.maxSpread != c.startSpread && TrackAll(c, spreads).maxSpread == prev.maxSpread {
        var i :| 0 <= i < |init| && prev.maxSpread == init[i];
        assert spreads[i] == init[i];
      }
      if prev.minSpread != c.startSpread && TrackAll(c, spreads).minSpread == prev.minSpread {
        var i :| 0 <= i < |init| && prev.minSpread == init[i];
        assert spreads[i] == init[i];
      }
    }
  }

  /** A candidate after a sequence of reported spreads. */
  function TrackAll(c: Candidate, spreads: seq<real>): Candidate {
    if spreads == [] then c else Track(TrackAll(c, spreads[..|spreads| - 1]), spreads[|spreads| - 1])
  }

  /** The per-symbol cooldown: a symbol may alert if it never did, or if
      its last alert is more than the cooldown ago. */
  predicate CooldownOk(lastAlert: Option<real>, now: real) {
    lastAlert.None? || now - lastAlert.value > ALERT_COOLDOWN
  }

  /** A fast recheck that confirms the alert: both fetchers answered (so
      all four prices are positive) and the spread reaches the alert
      threshold. */
  predicate Confirms(p: Option<Quote>) {
    Usable(p) &&
    var s := CalculateSpread(p.value.binBid, p.value.binAsk, p.value.kuBid, p.value.kuAsk);
    s.Some? && s.value >= ALERT_THRESHOLD
  }

  /** The fast rechecks of an alert, stopping at the first that confirms.
      Only the first `CONFIRM_RETRIES` polls of `rechecks` are looked at. */
  method ConfirmAlert(rechecks: seq<Option<Quote>>) returns (confirmed: bool, at: nat)
    ensures confirmed <==> exists j :: 0 <= j < |rechecks| && j < CONFIRM_RETRIES && Confirms(rechecks[j])
    ensures confirmed ==> at < |rechecks| && at < CONFIRM_RETRIES && Confirms(rechecks[at])
    ensures confirmed ==> forall j :: 0 <= j < at ==> !Confirms(rechecks[j])
  {
    confirmed, at := false, 0;
    var attempt := 0;
    while attempt < CONFIRM_RETRIES && attempt < |rechecks|
      invariant attempt <= CONFIRM_RETRIES && attempt <= |rechecks|
      invariant forall j :: 0 <= j < attempt ==> !Confirms(rechecks[j])
    {
      if Confirms(rechecks[attempt]) {
        return true, attempt;
      }
      attempt := attempt + 1;
    }
  }

  /** What the polls of one round show for one candidate. */
  datatype Latest = Latest(bin: Option<Tick>, ku: Option<Tick>)

  /** The spread of a round's poll, if both venues answered with positive
      prices and it is reported. */
  function RoundSpread(l: Latest): Option<real> {
    if l.bin.Some? && l.ku.Some? && Live(l.bin.value) && Live(l.ku.value) then CalculateSpread(l.bin.value.bid, l.bin.value.ask, l.ku.value.bid, l.ku.value.ask)
    else None
  }

  /** How an alert-level spread is handled. */
  datatype Verdict = Quiet | Suppressed | FalsePositive | Confirmed

  function VerdictFor(spread: real, lastAlert: Option<real>, now: real, confirmed: bool): (v: Verdict)
    ensures v == Confirmed <==> spread >= ALERT_THRESHOLD && CooldownOk(lastAlert, now) && confirmed
    ensures v == Suppressed <==> spread >= ALERT_THRESHOLD && !CooldownOk(lastAlert, now)
    ensures v == Quiet <==> spread < ALERT_THRESHOLD
  {
    if spread < ALERT_THRESHOLD then Quiet
    else if !CooldownOk(lastAlert, now) then Suppressed
    else if confirmed then Confirmed
    else FalsePositive
  }

  /** A candidate after one poll: still in the window with new contents,
      or dropped after a confirmed alert. */
  datatype Step = Keep(c: Candidate) | Dropped

  /** One candidate's poll. A missing spread changes nothing; otherwise the
      extremes take in the spread, and an alert-level spread marks the
      candidate alerted during its cooldown, clears the mark when the
      rechecks fail, and drops it when they confirm. A candidate leaves the
      window exactly on a confirmed alert outside its cooldown. */
  function Observe(c: Candidate, spread: Option<real>, lastAlert: Option<real>, now: real, confirmed: bool): (r: Step)
    ensures spread.None? ==> r == Keep(c)
    ensures r.Dropped? <==> spread.Some? && spread.value >= ALERT_THRESHOLD && CooldownOk(lastAlert, now) && confirmed
    ensures r.Keep? && spread.Some? ==> r.c.minSpread <= spread.value <= r.c.maxSpread
    ensures r.Keep? && Bracketed(c) ==> Bracketed(r.c)
    ensures r.Keep? ==> r.c.kuSym == c.kuSym && r.c.startSpread == c.startSpread
    ensures r.Keep? && spread.Some? && spread.value >= ALERT_THRESHOLD ==> (r.c.alerted <==> !CooldownOk(lastAlert, now))
    ensures r.Keep? && spread.Some? && spread.value < ALERT_THRESHOLD ==> r.c.alerted == c.alerted
  {
    if spread.None? then Keep(c)
    else
      var d := Track(c, spread.value);
      match VerdictFor(spread.value, lastAlert, now, confirmed)
      case Quiet => Keep(d)
      case Suppressed => Keep(d.(alerted := true))
      case FalsePositive => Keep(d.(alerted := false))
      case Confirmed => Dropped
  }

  /** The inputs of one round for one symbol, read from the round's maps;
      a symbol missing from a map had no answer. */
  function SpreadIn(latest: map<string, Latest>, sym: string): Option<real> {
    if sym in latest then RoundSpread(latest[sym]) else None
  }

  function LastAlertOf(lastAlert: map<string, real>, sym: string): Option<real> {
    if sym in lastAlert then Some(lastAlert[sym]) else None
  }

  function RechecksOf(rechecks: map<string, seq<Option<Quote>>>, sym: string): seq<Option<Quote>> {
    if sym in rechecks then rechecks[sym] else []
  }

  /** Whether one of the first `CONFIRM_RETRIES` rechecks confirms. */
  predicate ConfirmedBy(rechecks: seq<Option<Quote>>) {
    exists j :: 0 <= j < |rechecks| && j < CONFIRM_RETRIES && Confirms(rechecks[j])
  }

  /** What a round does to one candidate, given the alert times before it. */
  function Outcome(c: Candidate, sym: string, latest: map<string, Latest>, rechecks: map<string, seq<Option<Quote>>>,
                   lastAlert: map<string, real>, now: real): Step
  {
    Observe(c, SpreadIn(latest, sym), LastAlertOf(lastAlert, sym), now, ConfirmedBy(RechecksOf(rechecks, sym)))
  }

  /** Every candidate's outcome for a round, fixed before the round starts;
      a fact about one candidate is drawn only where its outcome is named. */
  lemma PlanRound(before: map<string, Candidate>, latest: map<string, Latest>, rechecks: map<string, seq<Option<Quote>>>,
                  lastAlert: map<string, real>, now: real)
    returns (plan: map<string, Step>)
    ensures plan.Keys == before.Keys
    ensures forall sym {:trigger Outcome(before[sym], sym, latest, rechecks, lastAlert, now)} ::
      sym in before ==> plan[sym] == Outcome(before[sym], sym, latest, rechecks, lastAlert, now)
    ensures forall sym :: sym in before && Bracketed(before[sym]) && plan[sym].Keep? ==> Bracketed(plan[sym].c)
  {
    plan := map sym | sym in before :: Outcome(before[sym], sym, latest, rechecks, lastAlert, now);
  }

  /** How far a round has got: the candidates still to visit are as they
      were and the visited ones follow the plan. */
  ghost predicate CandidatesSoFar(before: map<string, Candidate>, plan: map<string, Step>, todo: set<string>,
                                  cands: map<string, Candidate>)
  {
    plan.Keys == before.Keys &&
    (forall sym :: sym in cands <==> sym in before && (sym in todo || plan[sym].Keep?)) &&
    (forall sym :: sym in cands ==> cands[sym] == if sym in todo then before[sym] else plan[sym].c)
  }

  /** Alert times change only for visited candidates that were dropped. */
  ghost predicate AlertsSoFar(before: map<string, Candidate>, alertsBefore: map<string, real>, plan: map<string, Step>,
                              todo: set<string>, now: real, alerts: map<string, real>)
  {
    plan.Keys == before.Keys &&
    forall sym ::
      LastAlertOf(alerts, sym) ==
      (if sym in before && sym !in todo && plan[sym].Dropped? then Some(now) else LastAlertOf(alertsBefore, sym))
  }

  /** Launches are exactly the visited candidates that were dropped, while
      the lock is free. */
  ghost predicate LaunchesSoFar(before: map<string, Candidate>, plan: map<string, Step>, todo: set<string>,
                                lockHeld: bool, launched: map<string, string>)
  {
    plan.Keys == before.Keys &&
    (forall sym :: sym in launched <==> !lockHeld && sym in before && sym !in todo && plan[sym].Dropped?) &&
    (forall sym :: sym in launched ==> sym in before && launched[sym] == before[sym].kuSym)
  }

  lemma CandidatesStep(before: map<string, Candidate>, plan: map<string, Step>, todo: set<string>, sym: string,
                       cands0: map<string, Candidate>, cands1: map<string, Candidate>)
    requires sym in todo && todo <= before.Keys
    requires CandidatesSoFar(before, plan, todo, cands0)
    requires plan[sym].Keep? ==> cands1 == cands0[sym := plan[sym].c]
    requires plan[sym].Dropped? ==> cands1 == cands0 - {sym}
    ensures CandidatesSoFar(before, plan, todo - {sym}, cands1)
  {
  }

  lemma AlertsStep(before: map<string, Candidate>, alertsBefore: map<string, real>, plan: map<string, Step>,
                   todo: set<string>, sym: string, now: real, alerts0: map<string, real>, alerts1: map<string, real>)
    requires sym in todo && todo <= before.Keys
    requires AlertsSoFar(before, alertsBefore, plan, todo, now, alerts0)
    requires plan[sym].Keep? ==> alerts1 == alerts0
    requires plan[sym].Dropped? ==> alerts1 == alerts0[sym := now]
    ensures AlertsSoFar(before, alertsBefore, plan, todo - {sym}, now, alerts1)
  {
  }

  lemma LaunchesStep(before: map<string, Candidate>, plan: map<string, Step>, todo: set<string>, sym: string,
                     lockHeld: bool, launched0: map<string, string>, launched1: map<string, string>)
    requires sym in todo && todo <= before.Keys
    requires LaunchesSoFar(before, plan, todo, lockHeld, launched0)
    requires launched1 == if !lockHeld && plan[sym].Dropped? then launched0[sym := before[sym].kuSym] else launched0
    ensures LaunchesSoFar(before, plan, todo - {sym}, lockHeld, launched1)
  {
  }

  /** The scanner's per-window state: the shortlisted candidates and the
      time of each symbol's last confirmed alert. */
  class Scanner {
    var candidates: map<string, Candidate>
    var lastAlert: map<string, real>

    constructor ()
      ensures candidates == map[] && lastAlert == map[]
    {
      candidates := map[];
      lastAlert := map[];
    }

    predicate Valid()
      reads this
    {
      forall sym :: sym in candidates ==> Bracketed(candidates[sym])
    }

    /** The full scan at the start of a window: every common symbol whose
        spread reaches the scan threshold becomes a fresh candidate. */
    method StartWindow(common: set<string>, kuMap: map<string, string>, binBook: map<string, Tick>, kuPrices: map<string, Tick>)
      modifies this
      ensures lastAlert == old(lastAlert)
      ensures forall sym :: sym in candidates <==> sym in common && Qualifies(sym, kuMap, binBook, kuPrices)
      ensures forall sym :: sym in candidates ==>
        (ScanSpread(sym, kuMap, binBook, kuPrices).Some? &&
         candidates[sym] == Fresh(KuSymFor(kuMap, sym), ScanSpread(sym, kuMap, binBook, kuPrices).value))
      ensures Valid()
    {
      var cands: map<string, Candidate> := map[];
      var todo := common;
      while todo != {}
        invariant todo <= common
        invariant forall sym :: sym in cands <==> sym in common - todo && Qualifies(sym, kuMap, binBook, kuPrices)
        invariant forall sym :: sym in cands ==>
          (ScanSpread(sym, kuMap, binBook, kuPrices).Some? &&
           cands[sym] == Fresh(KuSymFor(kuMap, sym), ScanSpread(sym, kuMap, binBook, kuPrices).value))
        decreases todo
      {
        var sym :| sym in todo;
        var spread := ScanSpread(sym, kuMap, binBook, kuPrices);
        if spread.Some? && spread.value >= SCAN_THRESHOLD {
          cands := cands[sym := Fresh(KuSymFor(kuMap, sym), spread.value)];
        }
        todo := todo - {sym};
      }
      candidates := cands;
    }

    /** One candidate's turn in a poll round; `launch` says whether an
        entry attempt is started for it. */
    method ObserveOne(sym: string, latest: map<string, Latest>, rechecks: map<string, seq<Option<Quote>>>, now: real, lockHeld: bool)
      returns (launch: bool)
      requires sym in candidates
      modifies this
      ensures var o := Observe(old(candidates)[sym], SpreadIn(latest, sym), LastAlertOf(old(lastAlert), sym), now,
                               ConfirmedBy(RechecksOf(rechecks, sym)));
        (o.Keep? ==> candidates == old(candidates)[sym := o.c] && lastAlert == old(lastAlert)) &&
        (o.Dropped? ==> candidates == old(candidates) - {sym} && lastAlert == old(lastAlert)[sym := now]) &&
        (launch <==> !lockHeld && o.Dropped?)
    {
      launch := false;
      var info := candidates[sym];
      var spread := SpreadIn(latest, sym);
      if spread.None? {
        return;
      }
      var s := spread.value;
      info := Track(info, s);
      candidates := candidates[sym := info];
      if s >= ALERT_THRESHOLD {
        if !CooldownOk(LastAlertOf(lastAlert, sym), now) {
          candidates := candidates[sym := info.(alerted := true)];
          return;
        }
        var confirmed, _ := ConfirmAlert(RechecksOf(rechecks, sym));
        if !confirmed {
          candidates := candidates[sym := info.(alerted := false)];
          return;
        }
        lastAlert := lastAlert[sym := now];
        candidates := candidates - {sym};
        launch := !lockHeld;
      }
    }

    /** One poll round over the candidates: each is observed once, a
        confirmed one is stamped with `now` and dropped from the window and,
        unless a trade holds the lock, handed to an entry attempt (the map
        `launched` gives its KuCoin symbol). */
    method PollRound(latest: map<string, Latest>, rechecks: map<string, seq<Option<Quote>>>, now: real, lockHeld: bool)
      returns (launched: map<string, string>)
      requires Valid()
      modifies this
      ensures Valid()
      ensures forall sym :: sym in candidates <==>
        sym in old(candidates) && Outcome(old(candidates)[sym], sym, latest, rechecks, old(lastAlert), now).Keep?
      ensures forall sym :: sym in candidates ==>
        candidates[sym] == Outcome(old(candidates)[sym], sym, latest, rechecks, old(lastAlert), now).c
      ensures forall sym ::
        LastAlertOf(lastAlert, sym) ==
        (if sym in old(candidates) && Outcome(old(candidates)[sym], sym, latest, rechecks, old(lastAlert), now).Dropped?
         then Some(now) else LastAlertOf(old(lastAlert), sym))
      ensures forall sym :: sym in launched <==>
        !lockHeld && sym in old(candidates) && Outcome(old(candidates)[sym], sym, latest, rechecks, old(lastAlert), now).Dropped?
      ensures forall sym :: sym in launched ==> launched[sym] == old(candidates)[sym].kuSym
    {
      launched := map[];
      var todo := candidates.Keys;
      ghost var before := candidates;
      ghost var alertsBefore := lastAlert;
      ghost var plan := PlanRound(before, latest, rechecks, alertsBefore, now);
      while todo != {}
        invariant todo <= before.Keys
        invariant CandidatesSoFar(before, plan, todo, candidates)
        invariant AlertsSoFar(before, alertsBefore, plan, todo, now, lastAlert)
        invariant LaunchesSoFar(before, plan, todo, lockHeld, launched)
        decreases todo
      {
        var sym :| sym in todo;
        assert plan[sym] == Outcome(before[sym], sym, latest, rechecks, alertsBefore, now);
        assert LastAlertOf(lastAlert, sym) == LastAlertOf(alertsBefore, sym);
        ghost var cands0, alerts0, launched0 := candidates, lastAlert, launched;
        var kuSym := candidates[sym].kuSym;
        var launch := ObserveOne(sym, latest, rechecks, now, lockHeld);
        if launch {
          launched := launched[sym := kuSym];
        }
        CandidatesStep(before, plan, todo, sym, cands0, candidates);
        AlertsStep(before, alertsBefore, plan, todo, sym, now, alerts0, lastAlert);
        LaunchesStep(before, plan, todo, sym, lockHeld, launched0, launched);
        todo := todo - {sym};
      }
    }

    /** The end-of-window summary over the candidates in the order they
        were shortlisted: the first candidate with the largest maximum and
        the first with the smallest minimum. */
    method WindowSummary(order: seq<string>) returns (maxSym: Option<string>, overallMax: real, minSym: Option<string>, overallMin: real)
      requires forall i :: 0 <= i < |order| ==> order[i] in candidates
      requires forall sym :: sym in candidates ==> sym in order
      ensures maxSym.None? <==> order == [] && candidates == map[]
      ensures minSym.None? <==> order == [] && candidates == map[]
      ensures maxSym.Some? ==> exists i :: 0 <= i < |order| && order[i] == maxSym.value &&
                                  overallMax == candidates[order[i]].maxSpread &&
                                  forall j :: 0 <= j < i ==> candidates[order[j]].maxSpread < overallMax
      ensures maxSym.Some? ==> forall j :: 0 <= j < |order| ==> candidates[order[j]].maxSpread <= overallMax
      ensures minSym.Some? ==> exists i :: 0 <= i < |order| && order[i] == minSym.value &&
                                  overallMin == candidates[order[i]].minSpread &&
                                  forall j :: 0 <= j < i ==> candidates[order[j]].minSpread > overallMin
      ensures minSym.Some? ==> forall j :: 0 <= j < |order| ==> candidates[order[j]].minSpread >= overallMin
    {
      maxSym, overallMax, minSym, overallMin := None, 0.0, None, 0.0;
      var maxAt, minAt := 0, 0;
      var k := 0;
      while k < |order|
        invariant 0 <= k <= |order|
        invariant maxSym.None? <==> k == 0
        invariant minSym.None? <==> k == 0
        invariant k > 0 ==> maxAt < k && maxSym == Some(order[maxAt]) && overallMax == candidates[order[maxAt]].maxSpread
        invariant k > 0 ==> forall j :: 0 <= j < maxAt ==> candidates[order[j]].maxSpread < overallMax
        invariant k > 0 ==> forall j :: 0 <= j < k ==> candidates[order[j]].maxSpread <= overallMax
        invariant k > 0 ==> minAt < k && minSym == Some(order[minAt]) && overallMin == candidates[order[minAt]].minSpread
        invariant k > 0 ==> forall j :: 0 <= j < minAt ==> candidates[order[j]].minSpread > overallMin
        invariant k > 0 ==> forall j :: 0 <= j < k ==> candidates[order[j]].minSpread >= overallMin
      {
        var info := candidates[order[k]];
        if maxSym.None? || info.maxSpread > overallMax {
          maxSym, overallMax, maxAt := Some(order[k]), info.maxSpread, k;
        }
        if minSym.None? || info.minSpread < overallMin {
          minSym, overallMin, minAt := Some(order[k]), info.minSpread, k;
        }
        k := k + 1;
      }
      if order == [] {
        assert candidates.Keys == {};
      }
    }
  }
}
