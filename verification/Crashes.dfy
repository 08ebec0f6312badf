/**
 Watching the app: when it goes away without a goodbye and its process is dead, a crash
 record is looked for, and a crash is answered with a relaunch, up to three in ten minutes.
 Looking runs beside the main loop, so the result of an old look can come while a new one
 is awaited. Times are in milliseconds and never go back.
 */
module Crashes {
  import opened Prelude

  const WINDOW: int := 600_000
  const DELAYS: seq<int> := [1_000, 10_000, 60_000]
  const STILL_RUNNING: int := 30_000
  const IPS_WAIT: int := 5_000

  /** How to start the app again, if it said. */
  datatype Relaunch = Relaunch(path: Option<string>)

  datatype Next = After(delay: int) | GiveUp

  function NextFor(crashes: nat): Next {
    if crashes == 0 then After(DELAYS[0])
    else if crashes <= |DELAYS| then After(DELAYS[crashes - 1])
    else GiveUp
  }

  datatype Watch =
    | Idle
    | Attached(pid: int, relaunch: Relaunch, goodbye: bool)
    | Gone(pid: int, relaunch: Relaunch, since: int, dead: Option<int>, of: nat)
    | Looking
    | Relaunching(at: int, relaunch: Relaunch)

  /** A look for a crash record that hasn't come back. `of` is, as in `Gone`, where the trace marks the app's vanishing. */
  datatype Look = Look(pid: int, relaunch: Relaunch, since: int, deadAt: int, of: nat)

  /** What happened, for the record: the app came, quit or vanished; a relaunch was decided or done. */
  datatype Mark = Came | Quit | Vanished | Decided(at: int, delay: int, of: nat) | Launched(at: int)

  /** A crash that was seen, and whether a relaunch was decided for it, and after what delay. */
  datatype Crash = Crash(at: int, answered: bool, delay: int)

  datatype State = State(watch: Watch, history: seq<int>, stopping: bool, looks: seq<Look>, now: int, crashes: seq<Crash>, trace: seq<Mark>)

  datatype Event =
    | Attach(pid: int, relaunch: Relaunch)
    | Goodbye
    | Leave(now: int)
    | Tick(now: int, appAttached: bool, alive: bool)
    | Looked(now: int, index: nat, found: bool)
    | Stop

  // The steps

  function Recent(now: int): int -> bool {
    at => now - at < WINDOW
  }

  function Remember(history: seq<int>, now: int): seq<int> {
    Filter(Recent(now), history) + [now]
  }

  /** What a crash leads to. */
  function Answer(history: seq<int>, now: int, relaunch: Relaunch): Watch {
    var next := NextFor(|Remember(history, now)|);
    if relaunch.path.None? || next.GiveUp? then Idle else Relaunching(now + next.delay, relaunch)
  }

  function DelayOf(watch: Watch, now: int): int {
    if watch.Relaunching? then watch.at - now else 0
  }

  function Crashed(s: State, now: int, relaunch: Relaunch, of: nat): State {
    var watch := Answer(s.history, now, relaunch);
    s.(watch := watch,
       history := Remember(s.history, now),
       crashes := s.crashes + [Crash(now, watch.Relaunching?, DelayOf(watch, now))],
       trace := s.trace + if watch.Relaunching? then [Decided(now, DelayOf(watch, now), of)] else [])
  }

  function Ticked(s: State, now: int, appAttached: bool, alive: bool): State {
    if s.stopping then s.(watch := Idle)
    else match s.watch
      case Idle => s
      case Attached(_, _, _) => s
      case Gone(pid, relaunch, since, dead, of) =>
        if appAttached then s.(watch := Idle)
        else if alive then if now - since >= STILL_RUNNING then s.(watch := Idle) else s
        else s.(watch := Looking, looks := s.looks + [Look(pid, relaunch, since, if dead.Some? then dead.value else now, of)])
      case Looking => if appAttached then s.(watch := Idle) else s
      case Relaunching(at, _) =>
        if appAttached then s.(watch := Idle)
        else if now >= at then s.(watch := Idle, trace := s.trace + [Launched(now)])
        else s
  }

  function LookedUp(s: State, look: Look, now: int, found: bool): State {
    if !s.watch.Looking? || s.stopping then s
    else if found then Crashed(s, now, look.relaunch, look.of)
    else if now - look.deadAt < IPS_WAIT then s.(watch := Gone(look.pid, look.relaunch, look.since, Some(look.deadAt), look.of))
    else s.(watch := Idle)
  }

  predicate Enabled(s: State, e: Event) {
    match e
    case Leave(now) => s.now <= now
    case Tick(now, _, _) => s.now <= now
    case Looked(now, index, _) => s.now <= now && index < |s.looks|
    case _ => true
  }

  function Do(s: State, e: Event): State
    requires Enabled(s, e)
  {
    match e
    case Attach(pid, relaunch) => s.(watch := Attached(pid, relaunch, false), trace := s.trace + [Came])
    case Goodbye => if s.watch.Attached? then s.(watch := s.watch.(goodbye := true)) else s
    case Leave(now) =>
      if s.watch.Attached? && s.watch.goodbye then s.(watch := Idle, now := now, trace := s.trace + [Quit])
      else if s.watch.Attached? && !s.stopping
      then s.(watch := Gone(s.watch.pid, s.watch.relaunch, now, None, |s.trace|), now := now, trace := s.trace + [Vanished])
      else s.(watch := Idle, now := now)
    case Tick(now, appAttached, alive) => Ticked(s, now, appAttached, alive).(now := now)
    case Looked(now, index, found) =>
      LookedUp(s.(looks := Without(s.looks, index)), s.looks[index], now, found).(now := now)
    case Stop => s.(stopping := true)
  }

  function Start(now: int): State {
    State(Idle, [], false, [], now, [], [])
  }

  function Run(start: int, events: seq<Event>): Option<State> {
    if events == [] then Some(Start(start))
    else
      var before := Run(start, events[..|events| - 1]);
      var e := events[|events| - 1];
      if before.Some? && Enabled(before.value, e) then Some(Do(before.value, e)) else None
  }

  // The crashes of ten minutes

  function Times(crashes: seq<Crash>): seq<int> {
    seq(|crashes|, i requires 0 <= i < |crashes| => crashes[i].at)
  }

  /** How many of `crashes` were within the window before `now`. */
  function Count(crashes: seq<Crash>, now: int): nat {
    if crashes == [] then 0
    else Count(crashes[..|crashes| - 1], now) + if now - crashes[|crashes| - 1].at < WINDOW then 1 else 0
  }

  /** In order of time up to `now`, and each answered one at most the third of its ten minutes. */
  predicate Bounded(crashes: seq<Crash>, now: int) {
    crashes == [] || (
      var most, last := crashes[..|crashes| - 1], crashes[|crashes| - 1];
      && last.at <= now && Bounded(most, last.at)
      && (last.answered ==> 1 <= Count(crashes, last.at) <= |DELAYS| && last.delay == DELAYS[Count(crashes, last.at) - 1]))
  }

  /** The history is what of all crashes was recent at the last one. */
  predicate HistoryFits(history: seq<int>, crashes: seq<Crash>) {
    if crashes == [] then history == []
    else history == Filter(Recent(crashes[|crashes| - 1].at), Times(crashes))
  }

  lemma {:induction false} CountIsFilter(crashes: seq<Crash>, now: int)
    ensures |Filter(Recent(now), Times(crashes))| == Count(crashes, now)
  {
    if crashes != [] {
      CountIsFilter(crashes[..|crashes| - 1], now);
      assert Times(crashes)[..|crashes| - 1] == Times(crashes[..|crashes| - 1]);
    }
  }

  lemma {:induction false} StillRecent(times: seq<int>, earlier: int, now: int)
    requires earlier <= now
    ensures Filter(Recent(now), Filter(Recent(earlier), times)) == Filter(Recent(now), times)
  {
    if times != [] {
      var most, last := times[..|times| - 1], times[|times| - 1];
      StillRecent(most, earlier, now);
      FilterConcat(Recent(now), Filter(Recent(earlier), most), if Recent(earlier)(last) then [last] else []);
      assert Filter(Recent(now), [last]) == if Recent(now)(last) then [last] else [] by {
        assert [last][..0] == [];
      }
    }
  }

  /** What a crash leaves in the history, of all crashes: it drops only what was past already. */
  lemma {:induction false} RecentOnes(history: seq<int>, crashes: seq<Crash>, now: int)
    requires HistoryFits(history, crashes) && Bounded(crashes, now)
    ensures Filter(Recent(now), history) == Filter(Recent(now), Times(crashes))
  {
    if crashes != [] {
      StillRecent(Times(crashes), crashes[|crashes| - 1].at, now);
    }
  }

  lemma {:induction false} TimesMore(crashes: seq<Crash>, crash: Crash)
    ensures Times(crashes + [crash]) == Times(crashes) + [crash.at]
    ensures Filter(Recent(crash.at), Times(crashes) + [crash.at]) == Filter(Recent(crash.at), Times(crashes)) + [crash.at]
  {
    assert (Times(crashes) + [crash.at])[..|crashes|] == Times(crashes);
  }

  lemma {:induction false} CountMore(crashes: seq<Crash>, crash: Crash)
    ensures Count(crashes + [crash], crash.at) == Count(crashes, crash.at) + 1
  {
    assert (crashes + [crash])[..|crashes|] == crashes;
  }

  lemma {:induction false} RememberFits(history: seq<int>, crashes: seq<Crash>, now: int, crash: Crash)
    requires HistoryFits(history, crashes) && Bounded(crashes, now) && crash.at == now
    ensures HistoryFits(Remember(history, now), crashes + [crash])
    ensures |Remember(history, now)| == Count(crashes + [crash], now)
  {
    RecentOnes(history, crashes, now);
    TimesMore(crashes, crash);
    CountIsFilter(crashes, now);
    CountMore(crashes, crash);
    hide Filter, Count, Times, Bounded;
  }

  lemma {:induction false} CountAtLeast(crashes: seq<Crash>, now: int, i: nat)
    requires i <= |crashes| && forall k :: i <= k < |crashes| ==> now - crashes[k].at < WINDOW
    ensures Count(crashes, now) >= |crashes| - i
  {
    if i < |crashes| {
      CountAtLeast(crashes[..|crashes| - 1], now, i);
    }
  }

  lemma {:induction false} BoundedAt(crashes: seq<Crash>, now: int, k: nat)
    requires Bounded(crashes, now) && k < |crashes|
    ensures crashes[k].at <= now && Bounded(crashes[..k + 1], crashes[k].at)
  {
    var most, last := crashes[..|crashes| - 1], crashes[|crashes| - 1];
    if k < |crashes| - 1 {
      BoundedAt(most, last.at, k);
      assert most[..k + 1] == crashes[..k + 1];
    } else {
      assert crashes[..k + 1] == crashes;
    }
  }

  lemma {:induction false} FourSpanTheWindow(crashes: seq<Crash>, now: int, i: nat, l: nat)
    requires Bounded(crashes, now) && i + 3 <= l < |crashes| && crashes[l].answered
    ensures crashes[l].at - crashes[i].at >= WINDOW
  {
    BoundedAt(crashes, now, l);
    var upTo := crashes[..l + 1];
    if crashes[l].at - crashes[i].at < WINDOW {
      forall k | i <= k < |upTo| ensures crashes[l].at - upTo[k].at < WINDOW {
        if k < l {
          BoundedAt(upTo, crashes[l].at, k);
          if i < k {
            BoundedAt(upTo[..k + 1], upTo[k].at, i);
          }
        }
      }
      CountAtLeast(upTo, crashes[l].at, i);
    }
  }

  /** A decision: when it was made, and the delay before the relaunch. */
  datatype Decision = Decision(at: int, delay: int)

  /** The decisions for the crashes that were answered. */
  function Answered(crashes: seq<Crash>): seq<Decision> {
    if crashes == [] then []
    else
      var last := crashes[|crashes| - 1];
      Answered(crashes[..|crashes| - 1]) + if last.answered then [Decision(last.at, last.delay)] else []
  }

  lemma {:induction false} AnsweredAt(crashes: seq<Crash>, n: nat) returns (k: nat)
    requires n < |Answered(crashes)|
    ensures k < |crashes| && crashes[k].answered && Decision(crashes[k].at, crashes[k].delay) == Answered(crashes)[n] && |Answered(crashes[..k])| == n
  {
    var most := crashes[..|crashes| - 1];
    if n < |Answered(most)| {
      k := AnsweredAt(most, n);
      assert most[..k] == crashes[..k];
    } else {
      k := |crashes| - 1;
    }
  }

  lemma {:induction false} AnsweredGrows(crashes: seq<Crash>, a: nat, b: nat)
    requires a <= b <= |crashes|
    ensures |Answered(crashes[..a])| <= |Answered(crashes[..b])| <= |Answered(crashes[..a])| + b - a
  {
    if a < b {
      AnsweredGrows(crashes, a, b - 1);
      assert crashes[..b][..b - 1] == crashes[..b - 1];
    }
  }

  lemma {:induction false} AnswersSpanTheWindow(crashes: seq<Crash>, now: int, n: nat)
    requires Bounded(crashes, now) && n + 3 < |Answered(crashes)|
    ensures Answered(crashes)[n + 3].at - Answered(crashes)[n].at >= WINDOW
  {
    var i := AnsweredAt(crashes, n);
    var l := AnsweredAt(crashes, n + 3);
    if l < i {
      AnsweredGrows(crashes, l, i);
    } else {
      AnsweredGrows(crashes, i, l);
    }
    FourSpanTheWindow(crashes, now, i, l);
  }

  // The trace

  function Decisions(trace: seq<Mark>): seq<Decision> {
    if trace == [] then []
    else
      var last := trace[|trace| - 1];
      Decisions(trace[..|trace| - 1]) + if last.Decided? then [Decision(last.at, last.delay)] else []
  }

  /** Whether the app came, and then vanished, since it last quit. */
  datatype Phase = NoApp | HasApp | AppLost

  function PhaseOf(trace: seq<Mark>): Phase {
    if trace == [] then NoApp
    else match trace[|trace| - 1]
      case Came => HasApp
      case Quit => NoApp
      case Vanished => if PhaseOf(trace[..|trace| - 1]) == HasApp then AppLost else PhaseOf(trace[..|trace| - 1])
      case _ => PhaseOf(trace[..|trace| - 1])
  }

  /** The same, where a decision counts as an end: whether an app came, and vanished, that none has answered yet. */
  function Unanswered(trace: seq<Mark>): Phase {
    if trace == [] then NoApp
    else match trace[|trace| - 1]
      case Came => HasApp
      case Quit => NoApp
      case Decided(_, _, _) => NoApp
      case Vanished => if Unanswered(trace[..|trace| - 1]) == HasApp then AppLost else Unanswered(trace[..|trace| - 1])
      case Launched(_) => Unanswered(trace[..|trace| - 1])
  }

  predicate IsVanishing(trace: seq<Mark>, of: nat) {
    of < |trace| && trace[of] == Vanished
  }

  /** When a relaunch is due: as last decided, unless the app came or it was launched since. */
  function Pending(trace: seq<Mark>): Option<int> {
    if trace == [] then None
    else match trace[|trace| - 1]
      case Decided(at, delay, _) => Some(at + delay)
      case Came => None
      case Launched(_) => None
      case _ => Pending(trace[..|trace| - 1])
  }

  /** Each relaunch is decided and done while the app is lost, and done once, not before it is due. */
  predicate Orderly(trace: seq<Mark>) {
    trace == [] || (
      var before, last := trace[..|trace| - 1], trace[|trace| - 1];
      && Orderly(before)
      && (last.Vanished? ==> PhaseOf(before) == HasApp)
      && (last.Decided? ==> Unanswered(before) == AppLost && IsVanishing(before, last.of))
      && (last.Decided? || last.Launched? ==> PhaseOf(before) == AppLost)
      && (last.Launched? ==> Pending(before).Some? && Pending(before).value <= last.at))
  }

  predicate Inv(s: State) {
    && Bounded(s.crashes, s.now) && HistoryFits(s.history, s.crashes)
    && Orderly(s.trace) && Decisions(s.trace) == Answered(s.crashes)
    && (s.watch.Attached? ==> PhaseOf(s.trace) == HasApp && Unanswered(s.trace) == HasApp)
    && (s.watch.Gone? || s.watch.Looking? ==> Unanswered(s.trace) == AppLost)
    && (s.watch.Gone? ==> IsVanishing(s.trace, s.watch.of))
    && (forall look <- s.looks :: IsVanishing(s.trace, look.of))
    && (s.watch.Gone? || s.watch.Looking? || s.watch.Relaunching? ==> PhaseOf(s.trace) == AppLost)
    && (s.watch.Relaunching? ==> Pending(s.trace) == Some(s.watch.at))
  }

  lemma {:induction false} BoundedLater(crashes: seq<Crash>, now: int, later: int)
    requires Bounded(crashes, now) && now <= later
    ensures Bounded(crashes, later)
  {
  }

  /** What a crash adds to those before. */
  lemma {:induction false} CrashesMore(s: State, now: int, relaunch: Relaunch)
    requires HistoryFits(s.history, s.crashes) && Bounded(s.crashes, now)
    ensures var watch := Answer(s.history, now, relaunch);
            var more := s.crashes + [Crash(now, watch.Relaunching?, DelayOf(watch, now))];
            && HistoryFits(Remember(s.history, now), more) && Bounded(more, now)
            && Answered(more) == Answered(s.crashes) + if watch.Relaunching? then [Decision(now, DelayOf(watch, now))] else []
  {
    var watch := Answer(s.history, now, relaunch);
    var crash := Crash(now, watch.Relaunching?, DelayOf(watch, now));
    RememberFits(s.history, s.crashes, now, crash);
    CountMore(s.crashes, crash);
    assert (s.crashes + [crash])[..|s.crashes|] == s.crashes;
    hide Remember, HistoryFits, Count;
  }

  lemma {:induction false} CrashKeepsInv(s: State, now: int, relaunch: Relaunch, of: nat)
    requires Inv(s) && s.watch.Looking? && s.now <= now && IsVanishing(s.trace, of)
    ensures Inv(Crashed(s, now, relaunch, of).(now := now))
  {
    var watch := Answer(s.history, now, relaunch);
    var delay := DelayOf(watch, now);
    var after := Crashed(s, now, relaunch, of).(now := now);
    assert Bounded(s.crashes, s.now) && HistoryFits(s.history, s.crashes);
    assert watch.Idle? || (watch.Relaunching? && watch.at == now + delay);
    hide Inv, Remember, HistoryFits, Bounded, Answered, IsVanishing, DelayOf, Answer;
    BoundedLater(s.crashes, s.now, now);
    CrashesMore(s, now, relaunch);
    if watch.Relaunching? {
      DecidedKeepsInv(s, after, now, delay, of);
    } else {
      assert s.trace + [] == s.trace && Answered(s.crashes) + [] == Answered(s.crashes);
      GivenUpKeepsInv(s, after);
    }
  }

  lemma {:induction false} DecidedKeepsInv(s: State, after: State, now: int, delay: int, of: nat)
    requires Inv(s) && s.watch.Looking? && IsVanishing(s.trace, of)
    requires Bounded(after.crashes, after.now) && HistoryFits(after.history, after.crashes)
    requires after.watch.Relaunching? && after.watch.at == now + delay && after.looks == s.looks
    requires after.trace == s.trace + [Decided(now, delay, of)] && Answered(after.crashes) == Answered(s.crashes) + [Decision(now, delay)]
    ensures Inv(after)
  {
    MarkMore(s.trace, Decided(now, delay, of));
    StillVanishings(s.trace, Decided(now, delay, of), s.looks);
    hide HistoryFits, Orderly, PhaseOf, Pending, Decisions, Unanswered, Answered, Bounded, IsVanishing;
  }

  lemma {:induction false} GivenUpKeepsInv(s: State, after: State)
    requires Inv(s) && Bounded(after.crashes, after.now) && HistoryFits(after.history, after.crashes)
    requires after.watch.Idle? && after.looks == s.looks && after.trace == s.trace && Answered(after.crashes) == Answered(s.crashes)
    ensures Inv(after)
  {
    hide HistoryFits, Orderly, PhaseOf, Pending, Decisions, Unanswered, Answered, Bounded, IsVanishing;
  }

  lemma {:induction false} StillVanishings(trace: seq<Mark>, mark: Mark, looks: seq<Look>)
    requires forall look <- looks :: IsVanishing(trace, look.of)
    ensures forall look <- looks :: IsVanishing(trace + [mark], look.of)
  {
  }

  /** What a mark after the others changes of what the trace says. */
  lemma {:induction false} MarkMore(trace: seq<Mark>, mark: Mark)
    ensures var more := trace + [mark];
            && PhaseOf(more) == (match mark
                                 case Came => HasApp
                                 case Quit => NoApp
                                 case Vanished => if PhaseOf(trace) == HasApp then AppLost else PhaseOf(trace)
                                 case _ => PhaseOf(trace))
            && Unanswered(more) == (match mark
                                    case Came => HasApp
                                    case Quit => NoApp
                                    case Decided(_, _, _) => NoApp
                                    case Vanished => if Unanswered(trace) == HasApp then AppLost else Unanswered(trace)
                                    case Launched(_) => Unanswered(trace))
            && Pending(more) == (match mark
                                 case Decided(at, delay, _) => Some(at + delay)
                                 case Came => None
                                 case Launched(_) => None
                                 case _ => Pending(trace))
            && Decisions(more) == Decisions(trace) + (if mark.Decided? then [Decision(mark.at, mark.delay)] else [])
            && (Orderly(more) <==>
                  && Orderly(trace)
                  && (mark.Vanished? ==> PhaseOf(trace) == HasApp)
                  && (mark.Decided? ==> Unanswered(trace) == AppLost && IsVanishing(trace, mark.of))
                  && (mark.Decided? || mark.Launched? ==> PhaseOf(trace) == AppLost)
                  && (mark.Launched? ==> Pending(trace).Some? && Pending(trace).value <= mark.at))
  {
    assert (trace + [mark])[..|trace|] == trace;
  }

  lemma {:induction false} TickKeepsInv(s: State, now: int, appAttached: bool, alive: bool)
    requires Inv(s) && s.now <= now
    ensures Inv(Ticked(s, now, appAttached, alive).(now := now))
  {
    BoundedLater(s.crashes, s.now, now);
    MarkMore(s.trace, Launched(now));
    StillVanishings(s.trace, Launched(now), s.looks);
    assert Decisions(s.trace) + [] == Decisions(s.trace);
    hide Bounded, HistoryFits, Orderly, PhaseOf, Pending, Decisions, Answered, Unanswered;
  }

  lemma {:induction false} AttachKeepsInv(s: State, pid: int, relaunch: Relaunch)
    requires Inv(s)
    ensures Inv(Do(s, Attach(pid, relaunch)))
  {
    MarkMore(s.trace, Came);
    StillVanishings(s.trace, Came, s.looks);
    assert Decisions(s.trace) + [] == Decisions(s.trace);
    hide Bounded, HistoryFits, Orderly, PhaseOf, Pending, Decisions, Answered, Unanswered;
  }

  lemma {:induction false} LeaveKeepsInv(s: State, now: int)
    requires Inv(s) && s.now <= now
    ensures Inv(Do(s, Leave(now)))
  {
    BoundedLater(s.crashes, s.now, now);
    MarkMore(s.trace, Quit);
    MarkMore(s.trace, Vanished);
    StillVanishings(s.trace, Quit, s.looks);
    StillVanishings(s.trace, Vanished, s.looks);
    assert Decisions(s.trace) + [] == Decisions(s.trace);
    hide Bounded, HistoryFits, Orderly, PhaseOf, Pending, Decisions, Answered, Unanswered;
  }

  lemma {:induction false} LookKeepsInv(s: State, now: int, index: nat, found: bool)
    requires Inv(s) && Enabled(s, Looked(now, index, found))
    ensures Inv(Do(s, Looked(now, index, found)))
  {
    BoundedLater(s.crashes, s.now, now);
    var left := s.(looks := Without(s.looks, index));
    assert s.looks[index] in s.looks && forall look <- left.looks :: look in s.looks;
    if s.watch.Looking? && !s.stopping && found {
      CrashKeepsInv(left, now, s.looks[index].relaunch, s.looks[index].of);
    }
  }

  lemma {:induction false} StepKeepsInv(s: State, e: Event)
    requires Inv(s) && Enabled(s, e)
    ensures Inv(Do(s, e))
  {
    match e {
      case Attach(pid, relaunch) =>
        AttachKeepsInv(s, pid, relaunch);
      case Goodbye =>
      case Leave(now) =>
        LeaveKeepsInv(s, now);
      case Tick(now, appAttached, alive) =>
        TickKeepsInv(s, now, appAttached, alive);
      case Looked(now, index, found) =>
        LookKeepsInv(s, now, index, found);
      case Stop =>
    }
  }

  lemma {:induction false} RunKeepsInv(start: int, events: seq<Event>)
    ensures Run(start, events).Some? ==> Inv(Run(start, events).value)
  {
    if events != [] {
      RunKeepsInv(start, events[..|events| - 1]);
      var before := Run(start, events[..|events| - 1]);
      if before.Some? && Enabled(before.value, events[|events| - 1]) {
        StepKeepsInv(before.value, events[|events| - 1]);
      }
    }
  }

  // Main results

  /** In every run, any four relaunch decisions span at least ten minutes. */
  lemma {:induction false} FourDecisionsSpanTenMinutes(start: int, events: seq<Event>, n: nat)
    requires Run(start, events).Some? && n + 3 < |Decisions(Run(start, events).value.trace)|
    ensures var decisions := Decisions(Run(start, events).value.trace); decisions[n + 3].at - decisions[n].at >= WINDOW
  {
    RunKeepsInv(start, events);
    var s := Run(start, events).value;
    AnswersSpanTheWindow(s.crashes, s.now, n);
  }

  lemma {:induction false} LostHow(trace: seq<Mark>) returns (came: nat, vanished: nat)
    requires PhaseOf(trace) == AppLost
    ensures came < vanished < |trace| && trace[came] == Came && trace[vanished] == Vanished
    ensures forall i :: came <= i < |trace| ==> !trace[i].Quit?
  {
    var before, last := trace[..|trace| - 1], trace[|trace| - 1];
    if last == Vanished && PhaseOf(before) == HasApp {
      came := CameWhen(before);
      vanished := |trace| - 1;
    } else {
      came, vanished := LostHow(before);
    }
  }

  lemma {:induction false} CameWhen(trace: seq<Mark>) returns (came: nat)
    requires PhaseOf(trace) == HasApp
    ensures came < |trace| && trace[came] == Came && forall i :: came <= i < |trace| ==> !trace[i].Quit?
  {
    if trace[|trace| - 1] == Came {
      came := |trace| - 1;
    } else {
      came := CameWhen(trace[..|trace| - 1]);
    }
  }

  lemma {:induction false} OrderlyAt(trace: seq<Mark>, k: nat)
    requires Orderly(trace) && k < |trace|
    ensures trace[k].Decided? || trace[k].Launched? ==> PhaseOf(trace[..k]) == AppLost
    ensures trace[k].Decided? ==> Unanswered(trace[..k]) == AppLost && IsVanishing(trace[..k], trace[k].of)
    ensures Orderly(trace[..k])
    ensures trace[k].Launched? ==> Pending(trace[..k]).Some? && Pending(trace[..k]).value <= trace[k].at
  {
    if k < |trace| - 1 {
      OrderlyAt(trace[..|trace| - 1], k);
      assert trace[..|trace| - 1][..k] == trace[..k];
    }
  }

  /** A relaunch is decided after the delay for its place among the crashes of its ten minutes. */
  lemma {:induction false} DelayIsByCount(start: int, events: seq<Event>, n: nat) returns (k: nat)
    requires Run(start, events).Some? && n < |Decisions(Run(start, events).value.trace)|
    ensures var s := Run(start, events).value;
            var decision := Decisions(s.trace)[n];
            && k < |s.crashes| && s.crashes[k].at == decision.at
            && var count := Count(s.crashes[..k + 1], decision.at);
               1 <= count <= |DELAYS| && decision.delay == DELAYS[count - 1]
  {
    RunKeepsInv(start, events);
    var s := Run(start, events).value;
    k := AnsweredAt(s.crashes, n);
    BoundedAt(s.crashes, s.now, k);
    assert s.crashes[..k + 1][k] == s.crashes[k];
  }

  lemma {:induction false} UnansweredHow(trace: seq<Mark>) returns (came: nat, vanished: nat)
    requires Unanswered(trace) == AppLost
    ensures came < vanished < |trace| && trace[came] == Came && trace[vanished] == Vanished
    ensures forall i :: came <= i < |trace| ==> !trace[i].Decided?
  {
    var before, last := trace[..|trace| - 1], trace[|trace| - 1];
    if last == Vanished && Unanswered(before) == HasApp {
      came := CameUnanswered(before);
      vanished := |trace| - 1;
    } else {
      came, vanished := UnansweredHow(before);
    }
  }

  lemma {:induction false} CameUnanswered(trace: seq<Mark>) returns (came: nat)
    requires Unanswered(trace) == HasApp
    ensures came < |trace| && trace[came] == Came && forall i :: came <= i < |trace| ==> !trace[i].Decided?
  {
    if trace[|trace| - 1] == Came {
      came := |trace| - 1;
    } else {
      came := CameUnanswered(trace[..|trace| - 1]);
    }
  }

  /** Between any two decisions an app came and vanished: one vanishing is answered at most once. */
  lemma {:induction false} DecisionsAreOfDifferentApps(start: int, events: seq<Event>, a: nat, b: nat) returns (came: nat, vanished: nat)
    requires Run(start, events).Some?
    requires var trace := Run(start, events).value.trace; a < b < |trace| && trace[a].Decided? && trace[b].Decided?
    ensures var trace := Run(start, events).value.trace; a < came < vanished < b && trace[came] == Came && trace[vanished] == Vanished
  {
    RunKeepsInv(start, events);
    var trace := Run(start, events).value.trace;
    OrderlyAt(trace, b);
    assert trace[..b][a] == trace[a];
    came, vanished := UnansweredHow(trace[..b]);
  }

  predicate MarkWithin(trace: seq<Mark>, mark: Mark, a: nat, b: nat) {
    exists i :: a < i < b && i < |trace| && trace[i] == mark
  }

  lemma {:induction false} CameSince(trace: seq<Mark>, v: nat)
    requires Orderly(trace) && IsVanishing(trace, v) && (PhaseOf(trace) == HasApp || MarkWithin(trace, Vanished, v, |trace|))
    ensures MarkWithin(trace, Came, v, |trace|)
  {
    var n := |trace| - 1;
    var before, last := trace[..n], trace[n];
    if last == Came {
      VanishingIsNoComing(trace, v, n);
    } else if v == n {
      assert false;
    } else {
      assert IsVanishing(before, v);
      if MarkWithin(trace, Vanished, v, |trace|) && last != Vanished {
        var i :| v < i < |trace| && trace[i] == Vanished;
        assert before[i] == Vanished;
      }
      CameSince(before, v);
      var i :| v < i < n && before[i] == Came;
      assert trace[i] == Came;
    }
  }

  lemma {:induction false} VanishingIsNoComing(trace: seq<Mark>, v: nat, n: nat)
    requires IsVanishing(trace, v) && n < |trace| && trace[n] == Came && v <= n
    ensures MarkWithin(trace, Came, v, |trace|)
  {
    assert v < n;
  }

  /**
   Whose crash a decision answers: that of the app that vanished last, exactly when no app
   came between that vanishing and the decision. Where one did, the look that was awaited
   for it is answered by an older one that came back late.
   */
  lemma {:induction false} DecisionIsForTheLastIff(start: int, events: seq<Event>, k: nat)
    requires Run(start, events).Some?
    requires var trace := Run(start, events).value.trace; k < |trace| && trace[k].Decided?
    ensures var trace := Run(start, events).value.trace;
            && IsVanishing(trace, trace[k].of) && trace[k].of < k
            && (MarkWithin(trace, Vanished, trace[k].of, k) <==> MarkWithin(trace, Came, trace[k].of, k))
  {
    RunKeepsInv(start, events);
    var trace := Run(start, events).value.trace;
    OrderlyAt(trace, k);
    LaterVanishingIff(trace[..k], trace[k].of);
    MarksOfPrefix(trace, Vanished, trace[k].of, k);
    MarksOfPrefix(trace, Came, trace[k].of, k);
  }

  lemma {:induction false} MarksOfPrefix(trace: seq<Mark>, mark: Mark, a: nat, k: nat)
    requires k <= |trace|
    ensures MarkWithin(trace[..k], mark, a, k) <==> MarkWithin(trace, mark, a, k)
  {
    if i :| a < i < k && trace[i] == mark {
      assert trace[..k][i] == mark;
    }
  }

  lemma {:induction false} LaterVanishingIff(trace: seq<Mark>, v: nat)
    requires Orderly(trace) && IsVanishing(trace, v) && PhaseOf(trace) == AppLost
    ensures MarkWithin(trace, Vanished, v, |trace|) <==> MarkWithin(trace, Came, v, |trace|)
  {
    if MarkWithin(trace, Vanished, v, |trace|) {
      CameSince(trace, v);
    }
    if c :| v < c < |trace| && trace[c] == Came {
      var vanished := LostAfter(trace, c);
      assert trace[vanished] == Vanished;
    }
  }

  lemma {:induction false} LostAfter(trace: seq<Mark>, c: nat) returns (vanished: nat)
    requires c < |trace| && trace[c] == Came && PhaseOf(trace) == AppLost
    ensures c < vanished < |trace| && trace[vanished] == Vanished
  {
    var n := |trace| - 1;
    if trace[n] == Vanished {
      vanished := n;
    } else {
      vanished := LostAfter(trace[..n], c);
    }
  }

  /** A run in which the first app's slow look decides a relaunch while the second's is awaited. */
  lemma {:induction false} StaleLookDecides() returns (events: seq<Event>)
    ensures Run(0, events).Some?
    ensures Run(0, events).value.watch == Relaunching(DELAYS[0], Relaunch(Some("first")))
    ensures Run(0, events).value.trace == [Came, Vanished, Came, Vanished, Decided(0, DELAYS[0], 1)]
  {
    var first, second := Relaunch(Some("first")), Relaunch(Some("second"));
    var s1 := Do(Start(0), Attach(1, first));
    var s2 := Do(s1, Leave(0));
    var s3 := Do(s2, Tick(0, false, false));
    var s4 := Do(s3, Attach(2, second));
    var s5 := Do(s4, Leave(0));
    var s6 := Do(s5, Tick(0, false, false));
    var s7 := Do(s6, Looked(0, 0, true));
    events := Extend([], Start(0), Attach(1, first));
    events := Extend(events, s1, Leave(0));
    events := Extend(events, s2, Tick(0, false, false));
    events := Extend(events, s3, Attach(2, second));
    events := Extend(events, s4, Leave(0));
    events := Extend(events, s5, Tick(0, false, false));
    assert Remember([], 0) == [0];
    events := Extend(events, s6, Looked(0, 0, true));
  }

  lemma {:induction false} Extend(events: seq<Event>, s: State, e: Event) returns (longer: seq<Event>)
    requires Run(0, events) == Some(s) && Enabled(s, e)
    ensures longer == events + [e] && Run(0, longer) == Some(Do(s, e))
  {
    longer := events + [e];
    assert longer[..|longer| - 1] == events;
  }

  /** After a clean quit nothing is decided or launched until an app has come and vanished without a goodbye. */
  lemma {:induction false} QuietAfterQuit(start: int, events: seq<Event>, q: nat, k: nat) returns (came: nat, vanished: nat)
    requires Run(start, events).Some?
    requires var trace := Run(start, events).value.trace;
             q < k < |trace| && trace[q] == Quit && (trace[k].Decided? || trace[k].Launched?)
    ensures var trace := Run(start, events).value.trace;
            q < came < vanished < k && trace[came] == Came && trace[vanished] == Vanished
  {
    RunKeepsInv(start, events);
    var trace := Run(start, events).value.trace;
    OrderlyAt(trace, k);
    assert trace[..k][q] == Quit;
    came, vanished := LostHow(trace[..k]);
  }

  lemma {:induction false} PendingHow(trace: seq<Mark>) returns (d: nat)
    requires Pending(trace).Some?
    ensures d < |trace| && trace[d].Decided? && trace[d].at + trace[d].delay == Pending(trace).value
    ensures forall i :: d < i < |trace| ==> trace[i] != Came && !trace[i].Launched?
  {
    if trace[|trace| - 1].Decided? {
      d := |trace| - 1;
    } else {
      d := PendingHow(trace[..|trace| - 1]);
    }
  }

  /** Every launch has a decision of its own, at least its delay before, and no app came in between. */
  lemma {:induction false} ComingCancelsTheRelaunch(start: int, events: seq<Event>, k: nat) returns (d: nat)
    requires Run(start, events).Some?
    requires var trace := Run(start, events).value.trace; k < |trace| && trace[k].Launched?
    ensures var trace := Run(start, events).value.trace;
            && d < k && trace[d].Decided? && trace[d].at + trace[d].delay <= trace[k].at
            && forall i :: d < i < k ==> trace[i] != Came && !trace[i].Launched?
  {
    RunKeepsInv(start, events);
    var trace := Run(start, events).value.trace;
    OrderlyAt(trace, k);
    d := PendingHow(trace[..k]);
    assert forall i :: 0 <= i < k ==> trace[..k][i] == trace[i];
  }

  // The daemon's own

  /** A goodbye came after the last app did. */
  function SaidGoodbye(events: seq<Event>): bool {
    if events == [] then false
    else match events[|events| - 1]
      case Goodbye => true
      case Attach(_, _) => false
      case _ => SaidGoodbye(events[..|events| - 1])
  }

  lemma {:induction false} RemembersGoodbye(start: int, events: seq<Event>)
    requires Run(start, events).Some?
    ensures var s := Run(start, events).value;
            (s.watch.Attached? ==> (s.watch.goodbye <==> SaidGoodbye(events))) && (s.stopping <==> Stop in events)
  {
    if events != [] {
      var most, last := events[..|events| - 1], events[|events| - 1];
      RemembersGoodbye(start, most);
      assert events == most + [last];
      hide Answer, Remember;
    }
  }

  /** In every run an app that leaves has quit exactly when it said goodbye since it came; else, unless the daemon stops, it has vanished. */
  lemma {:induction false} GoodbyeDecides(start: int, events: seq<Event>, now: int)
    requires Run(start, events).Some? && Run(start, events).value.watch.Attached? && Run(start, events).value.now <= now
    ensures var s := Run(start, events).value;
            Do(s, Leave(now)).trace == s.trace + if SaidGoodbye(events) then [Quit] else if Stop in events then [] else [Vanished]
  {
    RemembersGoodbye(start, events);
    var s := Run(start, events).value;
    assert s.trace + [] == s.trace;
  }

  // That a crash is answered

  /** Where events lead from a state, if each can happen. */
  function Goes(s: State, events: seq<Event>): Option<State> {
    if events == [] then Some(s)
    else
      var before := Goes(s, events[..|events| - 1]);
      var e := events[|events| - 1];
      if before.Some? && Enabled(before.value, e) then Some(Do(before.value, e)) else None
  }

  lemma {:induction false} GoesOn(s: State, a: seq<Event>, b: seq<Event>)
    ensures Goes(s, a + b) == if Goes(s, a).Some? then Goes(Goes(s, a).value, b) else None
  {
    if b == [] {
      assert a + b == a;
    } else {
      assert (a + b)[..|a + b| - 1] == a + b[..|b| - 1];
      hide Do, Enabled;
      GoesOn(s, a, b[..|b| - 1]);
    }
  }

  lemma {:induction false} GoesOne(s: State, e: Event)
    ensures Goes(s, [e]) == if Enabled(s, e) then Some(Do(s, e)) else None
  {
    assert [e][..0] == [];
  }

  /** A tick with no app attached and the process still there, less than the wait after it vanished. */
  predicate StillThere(e: Event, since: int) {
    e.Tick? && !e.appAttached && e.alive && e.now - since < STILL_RUNNING
  }

  lemma {:induction false} StaysGone(s: State, events: seq<Event>)
    requires !s.stopping && s.watch.Gone? && (forall e <- events :: StillThere(e, s.watch.since)) && Goes(s, events).Some?
    ensures Goes(s, events).value == s.(now := Goes(s, events).value.now)
  {
    if events != [] {
      var most := events[..|events| - 1];
      assert events[|events| - 1] in events && forall e <- most :: e in events;
      StaysGone(s, most);
    }
  }

  /** A tick with no app attached before the relaunch is due. */
  predicate NotYet(e: Event, at: int) {
    e.Tick? && !e.appAttached && e.now < at
  }

  lemma {:induction false} StaysDue(s: State, events: seq<Event>)
    requires !s.stopping && s.watch.Relaunching? && (forall e <- events :: NotYet(e, s.watch.at)) && Goes(s, events).Some?
    ensures Goes(s, events).value == s.(now := Goes(s, events).value.now)
  {
    if events != [] {
      var most := events[..|events| - 1];
      assert events[|events| - 1] in events && forall e <- most :: e in events;
      StaysDue(s, most);
    }
  }

  lemma {:induction false} HistoryCounts(start: int, events: seq<Event>, s: State, now: int)
    requires Run(start, events) == Some(s) && s.now <= now
    ensures |Remember(s.history, now)| == Count(s.crashes, now) + 1
  {
    RunKeepsInv(start, events);
    BoundedLater(s.crashes, s.now, now);
    var crash := Crash(now, false, 0);
    RememberFits(s.history, s.crashes, now, crash);
    CountMore(s.crashes, crash);
  }

  /** From the vanishing to the look for its crash record. */
  lemma {:induction false} VanishedIsLookedFor(s: State, leave: int, waits: seq<Event>, dead: int)
    requires s.watch.Attached? && !s.watch.goodbye && !s.stopping && forall e <- waits :: StillThere(e, leave)
    requires Goes(s, [Leave(leave)] + waits + [Tick(dead, false, false)]).Some?
    ensures Goes(s, [Leave(leave)] + waits + [Tick(dead, false, false)]).value
         == s.(watch := Looking, now := dead, looks := s.looks + [Look(s.watch.pid, s.watch.relaunch, leave, dead, |s.trace|)], trace := s.trace + [Vanished])
  {
    GoesOn(s, [Leave(leave)] + waits, [Tick(dead, false, false)]);
    GoesOn(s, [Leave(leave)], waits);
    GoesOne(s, Leave(leave));
    var gone := Do(s, Leave(leave));
    StaysGone(gone, waits);
    GoesOne(Goes(gone, waits).value, Tick(dead, false, false));
  }

  /**
   What a found crash comes to, in every run: a relaunch after the delay for how many there were in the
   ten minutes, if the app said how to start it and this is at most the third, and else nothing.
   */
  lemma {:induction false} FoundCrashIsAnsweredIff(start: int, events: seq<Event>, s: State, now: int, index: nat)
    requires Run(start, events) == Some(s) && Enabled(s, Looked(now, index, true)) && s.watch.Looking? && !s.stopping
    ensures var next, count := Do(s, Looked(now, index, true)), Count(s.crashes, now) + 1;
            var relaunch := s.looks[index].relaunch;
            && (next.watch.Relaunching? <==> relaunch.path.Some? && count <= 3)
            && (next.watch.Relaunching? ==>
                  && next.watch == Relaunching(now + DELAYS[count - 1], relaunch)
                  && next.trace == s.trace + [Decided(now, DELAYS[count - 1], s.looks[index].of)])
            && (!next.watch.Relaunching? ==> next.watch.Idle? && next.trace == s.trace)
  {
    HistoryCounts(start, events, s, now);
    assert s.trace + [] == s.trace;
    hide Count, Remember;
  }

  /** A relaunch that was decided is made at the first tick that is due, unless an app came or the daemon stops. */
  lemma {:induction false} DueRelaunchIsMade(s: State, quiet: seq<Event>, due: int, alive: bool)
    requires !s.stopping && s.watch.Relaunching? && (forall e <- quiet :: NotYet(e, s.watch.at)) && due >= s.watch.at
    requires Goes(s, quiet + [Tick(due, false, alive)]).Some?
    ensures var after := Goes(s, quiet + [Tick(due, false, alive)]).value;
            after.trace == s.trace + [Launched(due)] && after.watch.Idle?
  {
    GoesOn(s, quiet, [Tick(due, false, alive)]);
    StaysDue(s, quiet);
    GoesOne(Goes(s, quiet).value, Tick(due, false, alive));
  }

  /** An app that lost its link but still runs when the wait is over is let go: nothing is looked for. */
  lemma {:induction false} RunningAppIsLetGo(s: State, leave: int, waits: seq<Event>, late: int)
    requires s.watch.Attached? && !s.watch.goodbye && !s.stopping && late - leave >= STILL_RUNNING && forall e <- waits :: StillThere(e, leave)
    requires Goes(s, [Leave(leave)] + waits + [Tick(late, false, true)]).Some?
    ensures Goes(s, [Leave(leave)] + waits + [Tick(late, false, true)]).value == s.(watch := Idle, now := late, trace := s.trace + [Vanished])
  {
    GoesOn(s, [Leave(leave)] + waits, [Tick(late, false, true)]);
    GoesOn(s, [Leave(leave)], waits);
    GoesOne(s, Leave(leave));
    var gone := Do(s, Leave(leave));
    StaysGone(gone, waits);
    GoesOne(Goes(gone, waits).value, Tick(late, false, true));
  }

  /** A dead app with no record is looked for again at the next tick, until the wait since its death is over; then it is let go. */
  lemma {:induction false} UnfoundIsLookedForAgain(s: State, now: int, index: nat, tick: int)
    requires s.watch.Looking? && !s.stopping && Goes(s, [Looked(now, index, false)] + [Tick(tick, false, false)]).Some?
    ensures index < |s.looks|
    ensures var after, look := Goes(s, [Looked(now, index, false)] + [Tick(tick, false, false)]).value, s.looks[index];
            && after.trace == s.trace && after.crashes == s.crashes
            && if now - look.deadAt < IPS_WAIT then after.watch.Looking? && after.looks == Without(s.looks, index) + [look]
               else after.watch.Idle? && after.looks == Without(s.looks, index)
  {
    GoesOn(s, [Looked(now, index, false)], [Tick(tick, false, false)]);
    GoesOne(s, Looked(now, index, false));
    GoesOne(Do(s, Looked(now, index, false)), Tick(tick, false, false));
  }

  lemma {:induction false} RunGoesOn(start: int, events: seq<Event>, s: State, more: seq<Event>)
    requires Run(start, events) == Some(s)
    ensures Run(start, events + more) == Goes(s, more)
  {
    if more == [] {
      assert events + more == events;
    } else {
      assert (events + more)[..|events + more| - 1] == events + more[..|more| - 1];
      hide Do, Enabled;
      RunGoesOn(start, events, s, more[..|more| - 1]);
    }
  }

  /**
   In every run: an app that goes away without a goodbye, whose process dies within the wait, and whose
   crash record is found, is launched again at the first tick once the delay has passed, if it said
   how and this is at most the third crash of the ten minutes.
   */
  lemma {:induction false} CrashedAppIsRelaunched(start: int, events: seq<Event>, s: State, leave: int, waits: seq<Event>, dead: int, found: int, quiet: seq<Event>, due: int, alive: bool)
    requires Run(start, events) == Some(s) && s.watch.Attached? && !s.watch.goodbye && !s.stopping && s.watch.relaunch.path.Some?
    requires Count(s.crashes, found) < 3 && forall e <- waits :: StillThere(e, leave)
    requires var at := found + DELAYS[Count(s.crashes, found)]; (forall e <- quiet :: NotYet(e, at)) && due >= at
    requires var lost := [Leave(leave)] + waits + [Tick(dead, false, false)];
             Goes(s, lost + ([Looked(found, |s.looks|, true)] + (quiet + [Tick(due, false, alive)]))).Some?
    ensures var lost := [Leave(leave)] + waits + [Tick(dead, false, false)];
            Goes(s, lost + ([Looked(found, |s.looks|, true)] + (quiet + [Tick(due, false, alive)]))).value.trace
            == s.trace + [Vanished, Decided(found, DELAYS[Count(s.crashes, found)], |s.trace|), Launched(due)]
  {
    var lost := [Leave(leave)] + waits + [Tick(dead, false, false)];
    var rest := quiet + [Tick(due, false, alive)];
    hide Do, Count, StillThere, NotYet;
    GoesOn(s, lost, [Looked(found, |s.looks|, true)] + rest);
    VanishedIsLookedFor(s, leave, waits, dead);
    var looking := Goes(s, lost).value;
    RunGoesOn(start, events, s, lost);
    GoesOn(looking, [Looked(found, |s.looks|, true)], rest);
    GoesOne(looking, Looked(found, |s.looks|, true));
    FoundCrashIsAnsweredIff(start, events + lost, looking, found, |s.looks|);
    var decided := Do(looking, Looked(found, |s.looks|, true));
    StillServing(looking, found, |s.looks|);
    DueRelaunchIsMade(decided, quiet, due, alive);
  }

  lemma {:induction false} StillServing(s: State, now: int, index: nat)
    requires Enabled(s, Looked(now, index, true))
    ensures Do(s, Looked(now, index, true)).stopping == s.stopping
  {
  }

  class Watcher {
    var watch: Watch
    var history: seq<int>
    var stopping: bool
    var looks: seq<Look>
    ghost var now: int
    ghost var crashes: seq<Crash>
    var trace: seq<Mark>

    ghost function Now(): State
      reads this
    {
      State(watch, history, stopping, looks, now, crashes, trace)
    }

    constructor (ghost now: int)
      ensures Now() == Start(now)
    {
      watch, history, stopping, looks := Idle, [], false, [];
      this.now, crashes, trace := now, [], [];
    }

    method Attached(pid: int, relaunch: Relaunch)
      modifies this`watch, this`trace
      ensures Now() == Do(old(Now()), Attach(pid, relaunch))
    {
      watch := Watch.Attached(pid, relaunch, false);
      trace := trace + [Came];
    }

    method SaidGoodbye()
      modifies this`watch
      ensures Now() == Do(old(Now()), Goodbye)
    {
      if watch.Attached? {
        watch := watch.(goodbye := true);
      }
    }

    method WentAway(now: int)
      requires this.now <= now
      modifies this`watch, this`trace, this`now
      ensures Now() == Do(old(Now()), Leave(now))
    {
      var was := watch;
      watch := Idle;
      if was.Attached? && was.goodbye {
        trace := trace + [Quit];
      } else if was.Attached? && !stopping {
        watch := Gone(was.pid, was.relaunch, now, None, |trace|);
        trace := trace + [Vanished];
      }
      this.now := now;
    }

    method Tick(now: int, appAttached: bool, alive: bool) returns (launched: bool)
      requires this.now <= now
      modifies this`watch, this`trace, this`now, this`looks
      ensures Now() == Do(old(Now()), Event.Tick(now, appAttached, alive))
      ensures launched <==> trace == old(trace) + [Launched(now)]
    {
      launched := false;
      this.now := now;
      if stopping {
        watch := Idle;
        return;
      }
      match watch {
        case Idle =>
        case Attached(_, _, _) =>
        case Gone(pid, relaunch, since, dead, of) =>
          if appAttached {
            watch := Idle;
          } else if alive {
            if now - since >= STILL_RUNNING {
              watch := Idle;
            }
          } else {
            watch := Looking;
            looks := looks + [Look(pid, relaunch, since, if dead.Some? then dead.value else now, of)];
          }
        case Looking =>
          if appAttached {
            watch := Idle;
          }
        case Relaunching(at, _) =>
          if appAttached {
            watch := Idle;
          } else if now >= at {
            watch := Idle;
            launched := true;
            trace := trace + [Launched(now)];
          }
      }
    }

    /** A look has come back, perhaps an old one. */
    method LookedFor(now: int, index: nat, found: bool)
      requires this.now <= now && index < |looks|
      modifies this
      ensures Now() == Do(old(Now()), Looked(now, index, found))
    {
      var look := looks[index];
      looks := Prelude.Without(looks, index);
      this.now := now;
      if !watch.Looking? || stopping {
        return;
      }
      if found {
        HasCrashed(now, look.relaunch, look.of);
      } else if now - look.deadAt < IPS_WAIT {
        watch := Gone(look.pid, look.relaunch, look.since, Some(look.deadAt), look.of);
      } else {
        watch := Idle;
      }
    }

    method HasCrashed(now: int, relaunch: Relaunch, of: nat)
      modifies this`watch, this`history, this`crashes, this`trace
      ensures Now() == Crashed(old(Now()), now, relaunch, of)
    {
      var recent := [];
      for i := 0 to |history|
        invariant recent == Filter(Recent(now), history[..i])
      {
        assert history[..i + 1][..i] == history[..i];
        if now - history[i] < WINDOW {
          recent := recent + [history[i]];
        }
      }
      assert history[..|history|] == history;
      history := recent + [now];
      watch := Idle;
      if relaunch.path.Some? {
        match NextFor(|history|) {
          case After(delay) =>
            watch := Relaunching(now + delay, relaunch);
            trace := trace + [Decided(now, delay, of)];
          case GiveUp =>
        }
      }
      crashes := crashes + [Crash(now, watch.Relaunching?, DelayOf(watch, now))];
    }

    method Stopping()
      modifies this`stopping
      ensures Now() == Do(old(Now()), Stop)
    {
      stopping := true;
    }
  }
}
