/**
 Refreshing the access token of a Codex account that this machine holds. Requests are
 served one at a time; a failed refresh is not tried again for a minute, and is reported
 once until a refresh succeeds.
 */
module Tokens {
  import opened Prelude

  /** How long a failed refresh is left alone, in milliseconds. */
  const RETRY_BROKEN: int := 60000

  /** A login as it is kept: one that `tokens` can read, or text it can't. */
  datatype Login = Readable(access: string) | Unreadable

  /** What a refresh gives: a new login, which may not get written, or a failure. */
  datatype Outcome = Fresh(login: Login, written: bool) | Failed(why: string) {
    /** The new login replaced the old one. */
    predicate Kept() {
      Fresh? && login.Readable? && written
    }
  }

  datatype Broken = Broken(why: string, at: int)

  /** One account: whether it is held here, its login, and whether its last refresh failed. */
  datatype Holding = Holding(held: bool, login: Option<Login>, broken: Option<Broken>)

  datatype Answer = Token(access: string) | NotFound | CannotRead | Refused(why: string) | NotWritten

  /** A request with what the outside world does for it: `soon` is whether the current token expires soon. */
  datatype Request = Request(previous: Option<string>, soon: bool, start: int, end: int, outcome: Outcome)

  /** What a request comes to. */
  datatype Served = Served(holding: Holding, answer: Answer, refreshed: bool, report: Option<string>)

  predicate Stale(access: string, r: Request) {
    if r.previous.Some? then r.previous.value == access else r.soon
  }

  predicate BackingOff(broken: Option<Broken>, start: int) {
    broken.Some? && start - broken.value.at < RETRY_BROKEN
  }

  function Serve(h: Holding, r: Request): Served {
    if !h.held || h.login.None? then Served(h, NotFound, false, None)
    else if h.login.value.Unreadable? then Served(h, CannotRead, false, None)
    else if !Stale(h.login.value.access, r) then Served(h, Token(h.login.value.access), false, None)
    else if BackingOff(h.broken, r.start) then Served(h, Refused(h.broken.value.why), false, None)
    else match r.outcome
      case Fresh(login, written) =>
        if login.Unreadable? then Served(h, CannotRead, true, None)
        else if !written then Served(h, NotWritten, true, None)
        else Served(h.(login := Some(login), broken := None), Token(login.access), true, None)
      case Failed(why) =>
        Served(h.(broken := Some(Broken(why, r.end))), Refused(why), true, if h.broken.None? then Some(why) else None)
  }

  class Accounts {
    var held: set<nat>
    var logins: map<nat, Login>
    var broken: map<nat, Broken>

    ghost function At(account: nat): Holding
      reads this
    {
      Holding(account in held,
              if account in logins then Some(logins[account]) else None,
              if account in broken then Some(broken[account]) else None)
    }

    constructor ()
      ensures held == {} && logins == map[] && broken == map[]
    {
      held, logins, broken := {}, map[], map[];
    }

    method Token(account: nat, r: Request) returns (answer: Answer, report: Option<string>)
      modifies this`logins, this`broken
      ensures var served := Serve(old(At(account)), r);
              At(account) == served.holding && answer == served.answer && report == served.report
      ensures forall other :: other != account ==> At(other) == old(At(other))
    {
      report := None;
      if account !in held || account !in logins {
        return NotFound, None;
      }
      var login := logins[account];
      if login.Unreadable? {
        return CannotRead, None;
      }
      var stale := match r.previous case Some(previous) => previous == login.access case None => r.soon;
      if !stale {
        return Answer.Token(login.access), None;
      }
      if account in broken && r.start - broken[account].at < RETRY_BROKEN {
        return Refused(broken[account].why), None;
      }
      match r.outcome {
        case Fresh(renewed, written) =>
          if renewed.Unreadable? {
            return CannotRead, None;
          }
          if !written {
            return NotWritten, None;
          }
          logins := logins[account := renewed];
          broken := broken - {account};
          answer := Answer.Token(renewed.access);
        case Failed(why) =>
          var first := account !in broken;
          broken := broken[account := Broken(why, r.end)];
          if first {
            report := Some(why);
          }
          answer := Refused(why);
      }
    }

    /** What removing the account from the book does here. */
    method Forget(account: nat)
      modifies this
      ensures At(account) == Holding(false, None, None)
      ensures forall other :: other != account ==> At(other) == old(At(other))
    {
      held, logins, broken := held - {account}, logins - {account}, broken - {account};
    }
  }

  // Runs

  /** One refresh that was made, and of which token. */
  datatype Refresh = Refresh(access: string, start: int, end: int, outcome: Outcome)

  datatype Event = Ask(request: Request) | Removed

  /** A report that the account broke, and the refresh, by its place in the log, that it reports. */
  datatype Report = Report(refresh: nat, why: string)

  /** One account's story: its first login, where it stands, the refreshes and reports so far, and the time. */
  datatype Story = Story(first: Login, holding: Holding, log: seq<Refresh>, reports: seq<Report>, now: int)

  /** Requests come one after another, and time doesn't go back. */
  predicate Enabled(s: Story, e: Event) {
    e.Ask? ==> s.now <= e.request.start <= e.request.end
  }

  function Do(s: Story, e: Event): Story {
    match e
    case Removed => s.(holding := Holding(false, None, None))
    case Ask(r) =>
      var served := Serve(s.holding, r);
      s.(holding := served.holding,
         log := s.log + if served.refreshed then [Refresh(s.holding.login.value.access, r.start, r.end, r.outcome)] else [],
         reports := s.reports + if served.report.Some? then [Report(|s.log|, served.report.value)] else [],
         now := r.end)
  }

  function Start(first: Login, now: int): Story {
    Story(first, Holding(true, Some(first), None), [], [], now)
  }

  function Run(first: Login, now: int, events: seq<Event>): Option<Story> {
    if events == [] then Some(Start(first, now))
    else
      var before := Run(first, now, events[..|events| - 1]);
      var e := events[|events| - 1];
      if before.Some? && Enabled(before.value, e) then Some(Do(before.value, e)) else None
  }

  // What the log of refreshes alone says

  /** The login after the refreshes of `log`: the last one that was kept. */
  function LastKept(first: Login, log: seq<Refresh>): Login {
    if log == [] then first
    else if log[|log| - 1].outcome.Kept() then log[|log| - 1].outcome.login
    else LastKept(first, log[..|log| - 1])
  }

  /** The failure the account is broken by after `log`: the last, unless a refresh was kept since. */
  function BrokenBy(log: seq<Refresh>): Option<Broken> {
    if log == [] then None
    else
      var last := log[|log| - 1];
      if last.outcome.Kept() then None
      else if last.outcome.Failed? then Some(Broken(last.outcome.why, last.end))
      else BrokenBy(log[..|log| - 1])
  }

  /** The failures that find the account not broken, in order. */
  function Episodes(log: seq<Refresh>): seq<Report> {
    if log == [] then []
    else
      var before, last := log[..|log| - 1], log[|log| - 1];
      Episodes(before) + if last.outcome.Failed? && BrokenBy(before).None? then [Report(|before|, last.outcome.why)] else []
  }

  /** Every kept token is one never seen before. */
  predicate NeverSeen(first: Login, log: seq<Refresh>) {
    && (forall k :: 0 <= k < |log| && log[k].outcome.Kept() ==> log[k].outcome.login != first)
    && forall i, k :: 0 <= i < k < |log| && log[i].outcome.Kept() && log[k].outcome.Kept() ==> log[i].outcome.login != log[k].outcome.login
  }

  /** Each refresh is of the login kept then, and starts after those before it and after the wait for a failure. */
  predicate Fits(first: Login, log: seq<Refresh>, now: int) {
    log == [] || (
      var before, last := log[..|log| - 1], log[|log| - 1];
      && LastKept(first, before) == Readable(last.access)
      && last.start <= last.end <= now
      && Fits(first, before, last.start)
      && !BackingOff(BrokenBy(before), last.start))
  }

  predicate Inv(s: Story) {
    && (s.holding.held ==> s.holding.login == Some(LastKept(s.first, s.log)) && s.holding.broken == BrokenBy(s.log))
    && Fits(s.first, s.log, s.now)
    && s.reports == Episodes(s.log)
  }

  lemma {:induction false} FitsLater(first: Login, log: seq<Refresh>, now: int, later: int)
    requires Fits(first, log, now) && now <= later
    ensures Fits(first, log, later)
  {
  }

  lemma {:induction false} LogMore(first: Login, log: seq<Refresh>, r: Refresh)
    ensures var more := log + [r];
            && LastKept(first, more) == (if r.outcome.Kept() then r.outcome.login else LastKept(first, log))
            && BrokenBy(more) == (if r.outcome.Kept() then None else if r.outcome.Failed? then Some(Broken(r.outcome.why, r.end)) else BrokenBy(log))
            && Episodes(more) == Episodes(log) + (if r.outcome.Failed? && BrokenBy(log).None? then [Report(|log|, r.outcome.why)] else [])
            && (Fits(first, log, r.start) && LastKept(first, log) == Readable(r.access) && r.start <= r.end && !BackingOff(BrokenBy(log), r.start) ==>
                  Fits(first, more, r.end))
  {
    assert (log + [r])[..|log|] == log;
  }

  /** What a request can come to: nothing but an answer, or a refresh of the login there is. */
  lemma {:induction false} ServeHow(h: Holding, r: Request)
    ensures var served := Serve(h, r);
            && (!served.refreshed ==> served.holding == h && served.report.None?)
            && (served.refreshed ==>
                  && h.held && h.login.Some? && h.login.value.Readable? && !BackingOff(h.broken, r.start)
                  && served.holding == (if r.outcome.Kept() then h.(login := Some(r.outcome.login), broken := None)
                                        else if r.outcome.Failed? then h.(broken := Some(Broken(r.outcome.why, r.end)))
                                        else h)
                  && served.report == (if r.outcome.Failed? && h.broken.None? then Some(r.outcome.why) else None))
  {
  }

  lemma {:induction false} StepKeepsInv(s: Story, e: Event)
    requires Inv(s) && Enabled(s, e)
    ensures Inv(Do(s, e))
  {
    if e.Ask? {
      var r := e.request;
      ServeHow(s.holding, r);
      FitsLater(s.first, s.log, s.now, r.start);
      FitsLater(s.first, s.log, s.now, r.end);
      assert s.log + [] == s.log && s.reports + [] == s.reports;
      if Serve(s.holding, r).refreshed {
        LogMore(s.first, s.log, Refresh(s.holding.login.value.access, r.start, r.end, r.outcome));
      }
      hide LastKept, BrokenBy, Episodes, Fits, Serve, BackingOff;
    }
  }

  lemma {:induction false} RunKeepsInv(first: Login, now: int, events: seq<Event>)
    ensures Run(first, now, events).Some? ==> Inv(Run(first, now, events).value) && Run(first, now, events).value.first == first
  {
    if events != [] {
      RunKeepsInv(first, now, events[..|events| - 1]);
      var before := Run(first, now, events[..|events| - 1]);
      if before.Some? && Enabled(before.value, events[|events| - 1]) {
        StepKeepsInv(before.value, events[|events| - 1]);
      }
    }
  }

  lemma {:induction false} FitsAt(first: Login, log: seq<Refresh>, now: int, i: nat)
    requires Fits(first, log, now) && i < |log|
    ensures LastKept(first, log[..i]) == Readable(log[i].access)
    ensures !BackingOff(BrokenBy(log[..i]), log[i].start)
    ensures log[i].start <= log[i].end <= now
    ensures Fits(first, log[..i], log[i].start)
  {
    var before, last := log[..|log| - 1], log[|log| - 1];
    if i < |log| - 1 {
      FitsAt(first, before, last.start, i);
      assert before[..i] == log[..i];
    }
  }

  /** Some refresh from `i` up to `j` was kept. */
  predicate KeptWithin(log: seq<Refresh>, i: nat, j: nat)
    requires j <= |log|
  {
    exists k :: i <= k < j && log[k].outcome.Kept()
  }

  lemma {:induction false} NoneKeptNoChange(first: Login, log: seq<Refresh>, i: nat, j: nat)
    requires i <= j <= |log| && !KeptWithin(log, i, j)
    ensures LastKept(first, log[..i]) == LastKept(first, log[..j])
  {
    if i < j {
      NoneKeptNoChange(first, log, i, j - 1);
      assert log[..j][..j - 1] == log[..j - 1];
    }
  }

  /** The last kept refresh from `i` up to `j`: it made the login there is at `j`. */
  lemma {:induction false} LastKeptWithin(first: Login, log: seq<Refresh>, i: nat, j: nat) returns (k: nat)
    requires j <= |log| && KeptWithin(log, i, j)
    ensures i <= k < j && log[k].outcome.Kept() && LastKept(first, log[..j]) == log[k].outcome.login && !KeptWithin(log, k + 1, j)
  {
    if log[j - 1].outcome.Kept() {
      k := j - 1;
    } else {
      k := LastKeptWithin(first, log, i, j - 1);
      assert log[..j][..j - 1] == log[..j - 1];
    }
  }

  lemma {:induction false} KeptTokensDiffer(first: Login, log: seq<Refresh>, i: nat, j: nat)
    requires NeverSeen(first, log) && j <= |log| && KeptWithin(log, i, j)
    ensures LastKept(first, log[..i]) != LastKept(first, log[..j])
  {
    var k := LastKeptWithin(first, log, i, j);
    if KeptWithin(log, 0, i) {
      var a := LastKeptWithin(first, log, 0, i);
    } else {
      NoneKeptNoChange(first, log, 0, i);
    }
  }

  // Main results

  /**
   When two refreshes are of one token: exactly when none from the first up to the second
   was kept. So a token is refreshed successfully once, but for refreshes that weren't kept.
   */
  lemma {:induction false} OneKeptRefreshPerToken(first: Login, now: int, events: seq<Event>, i: nat, j: nat)
    requires Run(first, now, events).Some?
    requires var log := Run(first, now, events).value.log; NeverSeen(first, log) && i < j < |log|
    ensures var log := Run(first, now, events).value.log;
            log[i].access == log[j].access <==> forall k :: i <= k < j ==> !log[k].outcome.Kept()
  {
    RunKeepsInv(first, now, events);
    var s := Run(first, now, events).value;
    FitsAt(first, s.log, s.now, i);
    FitsAt(first, s.log, s.now, j);
    if KeptWithin(s.log, i, j) {
      KeptTokensDiffer(first, s.log, i, j);
    } else {
      NoneKeptNoChange(first, s.log, i, j);
    }
  }

  /**
   Without assuming anything of new tokens: two refreshes are of one token exactly when none
   in between was kept, or the last kept one brought that very token back.
   */
  lemma {:induction false} RefreshedAgainIff(first: Login, now: int, events: seq<Event>, i: nat, j: nat)
    requires Run(first, now, events).Some? && i < j < |Run(first, now, events).value.log|
    ensures var log := Run(first, now, events).value.log;
            log[i].access == log[j].access <==>
            || !KeptWithin(log, i, j)
            || exists k :: i <= k < j && log[k].outcome.Kept() && !KeptWithin(log, k + 1, j) && log[k].outcome.login == Readable(log[i].access)
  {
    RunKeepsInv(first, now, events);
    var s := Run(first, now, events).value;
    FitsAt(first, s.log, s.now, i);
    FitsAt(first, s.log, s.now, j);
    if KeptWithin(s.log, i, j) {
      var k := LastKeptWithin(first, s.log, i, j);
      forall m | i <= m < j && s.log[m].outcome.Kept() && !KeptWithin(s.log, m + 1, j) ensures m == k {
        assert m <= k && k <= m;
      }
    } else {
      NoneKeptNoChange(first, s.log, i, j);
    }
  }

  /** A token refreshed again after a kept refresh of it was brought back, by the refresh at `k`: that token was seen before. */
  lemma {:induction false} BroughtBackBy(first: Login, now: int, events: seq<Event>, i: nat, j: nat) returns (k: nat)
    requires Run(first, now, events).Some?
    requires var log := Run(first, now, events).value.log;
             i < j < |log| && log[i].outcome.Kept() && log[i].access == log[j].access
    ensures var log := Run(first, now, events).value.log;
            && i <= k < j && log[k].outcome.Kept() && log[k].outcome.login == Readable(log[i].access)
            && !NeverSeen(first, log)
  {
    RunKeepsInv(first, now, events);
    var s := Run(first, now, events).value;
    FitsAt(first, s.log, s.now, i);
    FitsAt(first, s.log, s.now, j);
    assert KeptWithin(s.log, i, j);
    k := LastKeptWithin(first, s.log, i, j);
    if NeverSeen(first, s.log) {
      KeptTokensDiffer(first, s.log, i, j);
    }
  }

  /** A caller holding a token that was replaced gets the current one, and nothing is refreshed. */
  lemma {:induction false} ReplacedTokenGetsTheCurrentOne(first: Login, now: int, events: seq<Event>, i: nat, r: Request)
    requires Run(first, now, events).Some?
    requires var s := Run(first, now, events).value;
             && s.holding.held && NeverSeen(first, s.log)
             && i < |s.log| && s.log[i].outcome.Kept() && r.previous == Some(s.log[i].access)
    ensures var s := Run(first, now, events).value;
            && LastKept(first, s.log).Readable?
            && Serve(s.holding, r) == Served(s.holding, Token(LastKept(first, s.log).access), false, None)
  {
    RunKeepsInv(first, now, events);
    var s := Run(first, now, events).value;
    FitsAt(first, s.log, s.now, i);
    assert KeptWithin(s.log, i, |s.log|);
    KeptTokensDiffer(first, s.log, i, |s.log|);
    assert s.log[..|s.log|] == s.log;
    var k := LastKeptWithin(first, s.log, i, |s.log|);
  }

  /** No refresh starts within the retry wait of any failure before it. */
  lemma {:induction false} RefreshesWaitAfterAFailure(first: Login, now: int, events: seq<Event>, i: nat, j: nat)
    requires Run(first, now, events).Some?
    requires var log := Run(first, now, events).value.log; i < j < |log| && log[i].outcome.Failed?
    ensures var log := Run(first, now, events).value.log; log[j].start >= log[i].end + RETRY_BROKEN
  {
    RunKeepsInv(first, now, events);
    var s := Run(first, now, events).value;
    WaitsAfter(first, s.log, s.now, i, j);
  }

  lemma {:induction false} WaitsAfter(first: Login, log: seq<Refresh>, now: int, i: nat, j: nat)
    requires Fits(first, log, now) && i < j < |log| && log[i].outcome.Failed?
    ensures log[j].start >= log[i].end + RETRY_BROKEN
  {
    FitsAt(first, log, now, j);
    FitsAt(first, log, now, i + 1);
    assert log[..i + 1][|log[..i + 1]| - 1] == log[i];
    if i + 1 < j {
      FitsAt(first, log[..j], log[j].start, i + 1);
      assert log[..j][i + 1] == log[i + 1];
    }
  }

  /** A refresh was kept after `i` and before `j`. */
  predicate KeptBetween(log: seq<Refresh>, i: nat, j: nat)
    requires j <= |log|
  {
    exists k :: i < k < j && log[k].outcome.Kept()
  }

  /** An account is broken exactly when a refresh failed and none was kept since. */
  lemma {:induction false} BrokenByIff(log: seq<Refresh>, n: nat)
    requires n <= |log|
    ensures BrokenBy(log[..n]).Some? <==> exists i :: 0 <= i < n && log[i].outcome.Failed? && !KeptBetween(log, i, n)
  {
    if n > 0 {
      assert log[..n][..n - 1] == log[..n - 1];
      BrokenByIff(log, n - 1);
      var last := log[n - 1].outcome;
      if last.Failed? {
        assert !KeptBetween(log, n - 1, n);
      } else if last.Kept() {
        assert forall i :: 0 <= i < n - 1 ==> KeptBetween(log, i, n);
      } else {
        forall i | 0 <= i < n - 1 ensures KeptBetween(log, i, n) <==> KeptBetween(log, i, n - 1) {
        }
      }
    }
  }

  /** Refresh `j` began a broken episode: it failed, and after every failure before it one was kept. */
  predicate Begins(log: seq<Refresh>, j: nat) {
    j < |log| && log[j].outcome.Failed? && forall i :: 0 <= i < j && log[i].outcome.Failed? ==> KeptBetween(log, i, j)
  }

  predicate ReportedAt(reports: seq<Report>, j: nat) {
    exists r :: 0 <= r < |reports| && reports[r].refresh == j
  }

  /** The reports of the first `n` refreshes: of those that begin an episode, in order. */
  ghost predicate Reported(log: seq<Refresh>, reports: seq<Report>, n: nat)
    requires n <= |log|
  {
    && (forall r :: 0 <= r < |reports| ==> reports[r].refresh < n && log[reports[r].refresh].outcome == Failed(reports[r].why))
    && (forall r, q :: 0 <= r < q < |reports| ==> reports[r].refresh < reports[q].refresh)
    && (forall j: nat :: j < n ==> (ReportedAt(reports, j) <==> Begins(log, j)))
  }

  lemma {:induction false} RunReports(first: Login, now: int, events: seq<Event>)
    requires Run(first, now, events).Some?
    ensures var s := Run(first, now, events).value; Reported(s.log, s.reports, |s.log|)
  {
    RunKeepsInv(first, now, events);
    var s := Run(first, now, events).value;
    EpisodesAre(s.log, |s.log|);
    assert s.log[..|s.log|] == s.log;
    assert s.reports == Episodes(s.log[..|s.log|]);
  }

  lemma {:induction false} ReportedMore(reports: seq<Report>, last: Report, j: nat)
    ensures ReportedAt(reports + [last], j) <==> ReportedAt(reports, j) || last.refresh == j
  {
    var more := reports + [last];
    if ReportedAt(reports, j) {
      var r :| 0 <= r < |reports| && reports[r].refresh == j;
      assert more[r].refresh == j;
    }
    if last.refresh == j {
      assert more[|reports|].refresh == j;
    }
  }

  lemma {:induction false} ReportsGrow(log: seq<Refresh>, reports: seq<Report>, n: nat)
    requires n < |log| && Reported(log, reports, n)
    ensures Reported(log, reports + if Begins(log, n) then [Report(n, log[n].outcome.why)] else [], n + 1)
  {
    forall j: nat | j < n ensures ReportedAt(reports, j) <==> Begins(log, j) {
    }
    hide Begins;
    if Begins(log, n) {
      var last := Report(n, log[n].outcome.why);
      forall j: nat | j <= n ensures ReportedAt(reports + [last], j) <==> Begins(log, j) {
        ReportedMore(reports, last, j);
      }
    } else {
      assert reports + [] == reports;
    }
  }

  lemma {:induction false} EpisodesAre(log: seq<Refresh>, n: nat)
    requires n <= |log|
    ensures Reported(log, Episodes(log[..n]), n)
  {
    if n > 0 {
      assert log[..n][..n - 1] == log[..n - 1];
      EpisodesAre(log, n - 1);
      BrokenByIff(log, n - 1);
      assert Begins(log, n - 1) <==> log[n - 1].outcome.Failed? && BrokenBy(log[..n - 1]).None?;
      ReportsGrow(log, Episodes(log[..n - 1]), n - 1);
      hide Reported, Begins, BrokenBy;
    }
  }

  /**
   Each broken episode is reported once, by the failure that began it: a refresh is reported
   exactly when it failed and a refresh was kept after every failure before it.
   */
  lemma {:induction false} EachEpisodeIsReportedOnce(first: Login, now: int, events: seq<Event>, j: nat)
    requires Run(first, now, events).Some? && j < |Run(first, now, events).value.log|
    ensures var s := Run(first, now, events).value;
            && (ReportedAt(s.reports, j) <==>
                s.log[j].outcome.Failed? && forall i :: 0 <= i < j && s.log[i].outcome.Failed? ==> KeptBetween(s.log, i, j))
            && (forall r :: 0 <= r < |s.reports| ==> s.reports[r].refresh < |s.log| && s.log[s.reports[r].refresh].outcome == Failed(s.reports[r].why))
            && (forall r, q :: 0 <= r < q < |s.reports| ==> s.reports[r].refresh < s.reports[q].refresh)
  {
    RunReports(first, now, events);
  }

  /** Between any two reports a refresh was kept. */
  lemma {:induction false} ReportsAreEpisodesApart(first: Login, now: int, events: seq<Event>, r: nat, q: nat) returns (k: nat)
    requires Run(first, now, events).Some? && r < q < |Run(first, now, events).value.reports|
    ensures var s := Run(first, now, events).value;
            s.reports[r].refresh < k < s.reports[q].refresh < |s.log| && s.log[k].outcome.Kept()
  {
    RunReports(first, now, events);
    var s := Run(first, now, events).value;
    var i, j := s.reports[r].refresh, s.reports[q].refresh;
    assert i < j < |s.log|;
    assert ReportedAt(s.reports, j);
    assert Begins(s.log, j);
    assert s.log[i].outcome.Failed?;
    assert KeptBetween(s.log, i, j);
    k :| i < k < j && s.log[k].outcome.Kept();
  }

  /** Every failure is covered by a report: its own or an earlier one, with no refresh kept since. */
  lemma {:induction false} EveryFailureIsCovered(first: Login, now: int, events: seq<Event>, j: nat) returns (b: nat)
    requires Run(first, now, events).Some?
    requires var log := Run(first, now, events).value.log; j < |log| && log[j].outcome.Failed?
    ensures var s := Run(first, now, events).value;
            b <= j && ReportedAt(s.reports, b) && forall k :: b <= k <= j ==> !s.log[k].outcome.Kept()
  {
    RunReports(first, now, events);
    var s := Run(first, now, events).value;
    b := BegunBy(s.log, j);
  }

  lemma {:induction false} BegunBy(log: seq<Refresh>, j: nat) returns (b: nat)
    requires j < |log| && log[j].outcome.Failed?
    ensures b <= j && Begins(log, b) && forall k :: b <= k <= j ==> !log[k].outcome.Kept()
  {
    if i :| 0 <= i < j && log[i].outcome.Failed? && !KeptBetween(log, i, j) {
      b := BegunBy(log, i);
    } else {
      b := j;
    }
  }

  /** A login that a refresh made but that couldn't be written leaves its token to be refreshed again. */
  lemma {:induction false} UnwrittenRefreshIsRepeated()
    ensures var again := Ask(Request(Some("a"), false, 0, 0, Fresh(Readable("b"), false)));
            var run := Run(Readable("a"), 0, [again, again]);
            run.Some? && |run.value.log| == 2 && run.value.log[0] == run.value.log[1] && run.value.log[0].outcome.Fresh?
  {
    var again := Ask(Request(Some("a"), false, 0, 0, Fresh(Readable("b"), false)));
    assert [again, again][..1] == [again];
    assert [again][..0] == [];
    assert Run(Readable("a"), 0, [again]) == Some(Do(Start(Readable("a"), 0), again));
  }

  /** Comparing a fresh token only with the last one lets a token come back and be refreshed twice. */
  lemma {:induction false} ReturningTokenIsRefreshedTwice()
    ensures var first := Ask(Request(Some("a"), false, 0, 0, Fresh(Readable("b"), true)));
            var back := Ask(Request(Some("b"), false, 0, 0, Fresh(Readable("a"), true)));
            var run := Run(Readable("a"), 0, [first, back, first]);
            && run.Some? && |run.value.log| == 3
            && (forall k <- run.value.log :: k.outcome.Kept() && k.outcome.login != Readable(k.access))
            && run.value.log[0].access == run.value.log[2].access
  {
    var first := Ask(Request(Some("a"), false, 0, 0, Fresh(Readable("b"), true)));
    var back := Ask(Request(Some("b"), false, 0, 0, Fresh(Readable("a"), true)));
    assert [first, back, first][..2] == [first, back];
    assert [first, back][..1] == [first];
    assert [first][..0] == [];
    assert Run(Readable("a"), 0, [first]) == Some(Do(Start(Readable("a"), 0), first));
    assert Run(Readable("a"), 0, [first, back]) == Some(Do(Do(Start(Readable("a"), 0), first), back));
  }

  // What each request is answered

  lemma {:induction false} HeldUntilRemoved(first: Login, now: int, events: seq<Event>)
    requires Run(first, now, events).Some?
    ensures Run(first, now, events).value.holding.held <==> Removed !in events
    ensures Run(first, now, events).value.first == first
  {
    if events != [] {
      var most, last := events[..|events| - 1], events[|events| - 1];
      HeldUntilRemoved(first, now, most);
      assert events == most + [last];
      if last.Ask? {
        ServeHow(Run(first, now, most).value.holding, last.request);
      }
      hide Serve;
    }
  }

  /** The request wants another token: it names the current one as no longer working, or names none and that one expires soon. */
  predicate WantsAnother(access: string, r: Request) {
    (r.previous.Some? && r.previous.value == access) || (r.previous.None? && r.soon)
  }

  /** The failure at `k` is the last, with no refresh kept since, and less than the wait ago. */
  predicate FailedLately(log: seq<Refresh>, k: nat, start: int) {
    && k < |log| && log[k].outcome.Failed? && start - log[k].end < RETRY_BROKEN
    && forall i :: k < i < |log| ==> !log[i].outcome.Failed? && !log[i].outcome.Kept()
  }

  lemma {:induction false} BackingOffIff(log: seq<Refresh>, start: int)
    ensures BackingOff(BrokenBy(log), start) <==> exists k: nat :: FailedLately(log, k, start)
    ensures forall k: nat :: FailedLately(log, k, start) ==> BrokenBy(log) == Some(Broken(log[k].outcome.why, log[k].end))
  {
    if log != [] {
      var n := |log| - 1;
      var before := log[..n];
      BackingOffIff(before, start);
      forall k: nat ensures FailedLately(log, k, start) <==>
        if k == n then log[n].outcome.Failed? && start - log[n].end < RETRY_BROKEN
        else FailedLately(before, k, start) && !log[n].outcome.Failed? && !log[n].outcome.Kept()
      {
      }
      if log[n].outcome.Failed? && start - log[n].end < RETRY_BROKEN {
        assert FailedLately(log, n, start);
      } else if !log[n].outcome.Failed? && !log[n].outcome.Kept() && BackingOff(BrokenBy(before), start) {
        var k: nat :| FailedLately(before, k, start);
        assert FailedLately(log, k, start);
      }
    }
  }

  /**
   In every run a request is answered by what came before it: a removed account isn't found; a login that
   can't be read says so; a token the request can use is given as it is; less than the wait after a
   failure the request is refused for the same reason; and otherwise there is a refresh, and the
   answer is the new token, once it is kept, or why there is none.
   */
  lemma {:induction false} RequestIsAnswered(first: Login, now: int, events: seq<Event>, r: Request)
    requires Run(first, now, events).Some? && Enabled(Run(first, now, events).value, Ask(r))
    ensures var s := Run(first, now, events).value;
            var served, current := Serve(s.holding, r), LastKept(first, s.log);
            if Removed in events then served.answer == NotFound && !served.refreshed
            else if current.Unreadable? then served.answer == CannotRead && !served.refreshed
            else if !WantsAnother(current.access, r) then served.answer == Token(current.access) && !served.refreshed
            else if k: nat :| FailedLately(s.log, k, r.start) then served.answer == Refused(s.log[k].outcome.why) && !served.refreshed
            else served.refreshed && served.answer == match r.outcome
                   case Failed(why) => Refused(why)
                   case Fresh(Unreadable, _) => CannotRead
                   case Fresh(Readable(access), written) => if written then Token(access) else NotWritten
  {
    RunKeepsInv(first, now, events);
    HeldUntilRemoved(first, now, events);
    BackingOffIff(Run(first, now, events).value.log, r.start);
  }
}
