/**
 The app link's connections and the requests forwarded over them. A request waits
 for its connection's reply, its going away, or its deadline.
 */
module Requests {
  import opened Prelude

  /** Where an attached app runs: on this machine, or on another one. */
  datatype App = Here | Remote(from: string)

  /** A forwarded request: `who` numbers the responder that waits for its answer. */
  datatype Pending = Pending(deadline: int, conn: nat, who: nat)

  /** How a responder was answered. */
  datatype Outcome = Reply(conn: nat) | AppGone(conn: nat) | Timeout(at: int) | NoApp

  /** A request as it was sent: its ID, and the connection it went to. */
  datatype Sent = Sent(id: nat, who: nat, conn: nat, here: bool, deadline: int)

  /** What a hello's checks found, in the order the code makes them. */
  datatype Check = Fine | OtherBuild | OtherProtocol | WriteFailed

  /**
   The link's fields, then its effects: every request sent, what each responder was told,
   and how many requests had been sent before this machine's own app first attached.
   */
  datatype State = State(
    apps: map<nat, App>,
    seenHere: bool,
    lastUsed: nat,
    pending: map<nat, Pending>,
    nextId: nat,
    stopping: bool,
    sent: seq<Sent>,
    told: seq<seq<Outcome>>,
    before: nat)

  const INIT := State(map[], false, 0, map[], 0, false, [], [], 0)

  datatype Event =
    | Hello(conn: nat, app: App, check: Check)
    | Gone(conn: nat)
    | Answer(conn: nat, id: Option<nat>)
    | Used(conn: nat)
    | Ask(deadline: int)
    | Expire(now: int)
    | Quit

  function Local(apps: map<nat, App>): set<nat> {
    set conn | conn in apps && apps[conn].Here?
  }

  ghost function Least(s: set<nat>): (least: nat)
    requires s != {}
    ensures least in s && forall x <- s :: least <= x
  {
    var x :| x in s;
    if s == {x} then x
    else
      var rest := Least(s - {x});
      assert forall y <- s :: y == x || y in s - {x};
      if x < rest then x else rest
  }

  ghost function Greatest(s: set<nat>): (greatest: nat)
    requires s != {}
    ensures greatest in s && forall x <- s :: x <= greatest
  {
    var x :| x in s;
    if s == {x} then x
    else
      var rest := Greatest(s - {x});
      assert forall y <- s :: y == x || y in s - {x};
      if x > rest then x else rest
  }

  /** The connection a request goes to. */
  ghost function Target(apps: map<nat, App>, seenHere: bool, lastUsed: nat): Option<nat> {
    if Local(apps) != {} then Some(Least(Local(apps)))
    else if seenHere then None
    else if lastUsed in apps then Some(lastUsed)
    else if apps != map[] then Some(Greatest(apps.Keys))
    else None
  }

  /** Answers every pending request in `ids` with `outcome`. */
  ghost function AnswerAll(s: State, ids: set<nat>, outcome: Outcome): State {
    var told := seq(|s.told|, who requires 0 <= who < |s.told| =>
      s.told[who] + if WaitsIn(s.pending, ids, who) then [outcome] else []);
    s.(pending := s.pending - ids, told := told)
  }

  ghost predicate WaitsIn(pending: map<nat, Pending>, ids: set<nat>, who: nat) {
    exists id :: id in ids && id in pending && pending[id].who == who
  }

  ghost function Do(s: State, event: Event): State {
    match event
    case Hello(conn, app, check) =>
      if s.stopping || (app.Here? && Local(s.apps) != {}) || (check.OtherBuild? && app.Here?) || check.OtherProtocol? || check.WriteFailed? then s
      else s.(apps := s.apps[conn := app], seenHere := s.seenHere || app.Here?)
    case Gone(conn) =>
      if conn !in s.apps then s
      else AnswerAll(s.(apps := s.apps - {conn}), AskedOf(s.pending, conn), AppGone(conn))
    case Answer(conn, id) =>
      if conn in s.apps && id.Some? && id.value in s.pending && s.pending[id.value].conn == conn
      then AnswerAll(s, {id.value}, Reply(conn))
      else s
    case Used(conn) => if conn in s.apps then s.(lastUsed := conn) else s
    case Ask(deadline) =>
      var who := |s.told|;
      var target := Target(s.apps, s.seenHere, s.lastUsed);
      if target.None? then s.(told := s.told + [[NoApp]])
      else
        var (conn, id) := (target.value, s.nextId + 1);
        s.(nextId := id,
           pending := s.pending[id := Pending(deadline, conn, who)],
           sent := s.sent + [Sent(id, who, conn, s.apps[conn].Here?, deadline)],
           told := s.told + [[]],
           before := if s.seenHere then s.before else s.before + 1)
    case Expire(now) => AnswerAll(s, Late(s.pending, now), Timeout(now))
    case Quit => s.(stopping := true)
  }

  ghost function AskedOf(pending: map<nat, Pending>, conn: nat): set<nat> {
    set id | id in pending && pending[id].conn == conn
  }

  ghost function Late(pending: map<nat, Pending>, now: int): set<nat> {
    set id | id in pending && pending[id].deadline <= now
  }

  ghost function Run(events: seq<Event>): State {
    if events == [] then INIT else Do(Run(events[..|events| - 1]), events[|events| - 1])
  }

  // What every event keeps

  /** The requests still pending: each sent once to an attached app, and its responder not yet told anything. */
  ghost predicate PendingIsSent(s: State, id: nat)
    requires id in s.pending
  {
    var p := s.pending[id];
    && 1 <= id <= |s.sent|
    && s.sent[id - 1] == Sent(id, p.who, p.conn, s.sent[id - 1].here, p.deadline)
    && p.conn in s.apps
  }

  ghost predicate SentOnce(s: State, i: nat)
    requires i < |s.sent|
  {
    var sent := s.sent[i];
    && sent.id == i + 1
    && sent.who < |s.told|
    && (i > 0 ==> s.sent[i - 1].who < sent.who)
    && (i >= s.before ==> sent.here)
    && if sent.id in s.pending then s.told[sent.who] == []
       else |s.told[sent.who]| == 1 && Fits(sent, s.told[sent.who][0])
  }

  /** An answer is of a kind this request could get. */
  ghost predicate Fits(sent: Sent, outcome: Outcome) {
    match outcome
    case Reply(conn) => conn == sent.conn
    case AppGone(conn) => conn == sent.conn
    case Timeout(at) => sent.deadline <= at
    case NoApp => false
  }

  ghost predicate Told(s: State, who: nat)
    requires who < |s.told|
  {
    s.told[who] == [NoApp] || exists i :: 0 <= i < |s.sent| && s.sent[i].who == who
  }

  ghost predicate Inv(s: State) {
    && s.nextId == |s.sent|
    && (forall id <- s.pending :: PendingIsSent(s, id))
    && (forall i :: 0 <= i < |s.sent| ==> SentOnce(s, i))
    && (forall who :: 0 <= who < |s.told| ==> Told(s, who))
    && (forall a, b :: a in Local(s.apps) && b in Local(s.apps) ==> a == b)
    && (Local(s.apps) != {} ==> s.seenHere)
    && (!s.seenHere ==> s.before == |s.sent|)
    && s.before <= |s.sent|
  }

  lemma {:induction false} SentIncreases(s: State, i: nat, j: nat)
    requires Inv(s) && i < j < |s.sent|
    ensures s.sent[i].who < s.sent[j].who
  {
    assert SentOnce(s, j);
    if i < j - 1 {
      SentIncreases(s, i, j - 1);
    }
  }

  /** A responder waits for at most one pending request. */
  lemma WhoWaits(s: State, ids: set<nat>, i: nat)
    requires Inv(s) && i < |s.sent|
    ensures WaitsIn(s.pending, ids, s.sent[i].who) <==> i + 1 in ids && i + 1 in s.pending
  {
    assert SentOnce(s, i);
    if i + 1 in s.pending {
      assert PendingIsSent(s, i + 1);
    }
    if WaitsIn(s.pending, ids, s.sent[i].who) {
      var id :| id in ids && id in s.pending && s.pending[id].who == s.sent[i].who;
      assert PendingIsSent(s, id);
      if id - 1 < i {
        SentIncreases(s, id - 1, i);
      } else if i < id - 1 {
        SentIncreases(s, i, id - 1);
      }
    }
  }

  /** Answering pending requests with fitting outcomes, and dropping apps that none of the others wait for, keeps the invariant. */
  lemma AnswerAllKeepsInv(s: State, apps: map<nat, App>, ids: set<nat>, outcome: Outcome)
    requires Inv(s)
    requires apps.Keys <= s.apps.Keys && forall conn <- apps :: apps[conn] == s.apps[conn]
    requires forall id <- s.pending :: id !in ids ==> s.pending[id].conn in apps
    requires forall id <- s.pending :: id in ids ==> Fits(s.sent[id - 1], outcome)
    ensures Inv(AnswerAll(s.(apps := apps), ids, outcome))
  {
    var s' := AnswerAll(s.(apps := apps), ids, outcome);
    forall id <- s'.pending
      ensures PendingIsSent(s', id)
    {
      assert PendingIsSent(s, id);
    }
    forall i | 0 <= i < |s'.sent|
      ensures SentOnce(s', i)
    {
      assert SentOnce(s, i);
      WhoWaits(s, ids, i);
    }
    forall who | 0 <= who < |s'.told|
      ensures Told(s', who)
    {
      assert Told(s, who);
      if WaitsIn(s.pending, ids, who) {
        var id :| id in ids && id in s.pending && s.pending[id].who == who;
        assert PendingIsSent(s, id) && s'.sent[id - 1].who == who;
      }
    }
    assert Local(apps) <= Local(s.apps);
  }

  lemma AskKeepsInv(s: State, deadline: int)
    requires Inv(s)
    ensures Inv(Do(s, Ask(deadline)))
  {
    var s' := Do(s, Ask(deadline));
    forall id <- s'.pending
      ensures PendingIsSent(s', id)
    {
      if id <= |s.sent| {
        assert PendingIsSent(s, id);
      }
    }
    forall i | 0 <= i < |s'.sent|
      ensures SentOnce(s', i)
    {
      if i < |s.sent| {
        assert SentOnce(s, i);
      } else if i > 0 {
        assert SentOnce(s, i - 1);
      }
    }
    forall who | 0 <= who < |s'.told|
      ensures Told(s', who)
    {
      if who < |s.told| {
        assert Told(s, who);
        if s.told[who] != [NoApp] {
          var i :| 0 <= i < |s.sent| && s.sent[i].who == who;
          assert s'.sent[i].who == who;
        }
      } else if s'.told[who] != [NoApp] {
        assert s'.sent[|s.sent|].who == who;
      }
    }
  }

  lemma HelloKeepsInv(s: State, conn: nat, app: App, check: Check)
    requires Inv(s)
    ensures Inv(Do(s, Hello(conn, app, check)))
  {
    var s' := Do(s, Hello(conn, app, check));
    if s' != s {
      forall id <- s'.pending
        ensures PendingIsSent(s', id)
      {
        assert PendingIsSent(s, id);
      }
      forall i | 0 <= i < |s'.sent|
        ensures SentOnce(s', i)
      {
        assert SentOnce(s, i);
      }
      forall who | 0 <= who < |s'.told|
        ensures Told(s', who)
      {
        assert Told(s, who);
      }
      assert app.Here? ==> Local(s.apps) == {} && Local(s'.apps) == {conn};
      assert app.Remote? ==> Local(s'.apps) <= Local(s.apps);
    }
  }

  lemma EventKeepsInv(s: State, event: Event)
    requires Inv(s)
    ensures Inv(Do(s, event))
  {
    match event
    case Hello(conn, app, check) => HelloKeepsInv(s, conn, app, check);
    case Gone(conn) =>
      forall id <- s.pending
        ensures PendingIsSent(s, id)
      {
      }
      AnswerAllKeepsInv(s, s.apps - {conn}, AskedOf(s.pending, conn), AppGone(conn));
    case Answer(conn, id) =>
      forall id <- s.pending
        ensures PendingIsSent(s, id)
      {
      }
      if Do(s, event) != s {
        AnswerAllKeepsInv(s, s.apps, {id.value}, Reply(conn));
        assert s.(apps := s.apps) == s;
      }
    case Ask(deadline) => AskKeepsInv(s, deadline);
    case Expire(now) =>
      forall id <- s.pending
        ensures PendingIsSent(s, id)
      {
      }
      AnswerAllKeepsInv(s, s.apps, Late(s.pending, now), Timeout(now));
      assert s.(apps := s.apps) == s;
    case Used(_) => FrameKeepsInv(s, Do(s, event));
    case Quit => FrameKeepsInv(s, Do(s, event));
  }

  lemma FrameKeepsInv(s: State, s': State)
    requires Inv(s) && s' == s.(lastUsed := s'.lastUsed, stopping := s'.stopping)
    ensures Inv(s')
  {
    forall id <- s'.pending
      ensures PendingIsSent(s', id)
    {
      assert PendingIsSent(s, id);
    }
    forall i | 0 <= i < |s'.sent|
      ensures SentOnce(s', i)
    {
      assert SentOnce(s, i);
    }
    forall who | 0 <= who < |s'.told|
      ensures Told(s', who)
    {
      assert Told(s, who);
    }
  }

  lemma {:induction false} RunKeepsInv(events: seq<Event>)
    ensures Inv(Run(events))
  {
    if events != [] {
      RunKeepsInv(events[..|events| - 1]);
      EventKeepsInv(Run(events[..|events| - 1]), events[|events| - 1]);
    }
  }

  // Main results, over every run

  /** A responder is told at most one thing; it has been told nothing exactly while its request is pending. */
  lemma {:induction false} AnsweredAtMostOnce(events: seq<Event>, who: nat)
    requires who < |Run(events).told|
    ensures var s := Run(events);
            && |s.told[who]| <= 1
            && (s.told[who] == [] <==> exists id :: id in s.pending && s.pending[id].who == who)
  {
    RunKeepsInv(events);
    var s := Run(events);
    assert Told(s, who);
    if i :| 0 <= i < |s.sent| && s.sent[i].who == who {
      assert SentOnce(s, i);
      WhoWaits(s, s.pending.Keys, i);
    }
    if id :| id in s.pending && s.pending[id].who == who {
      assert PendingIsSent(s, id) && SentOnce(s, id - 1);
    }
  }

  /** Every request sent has its own ID and, once no longer pending, exactly one answer: its connection's reply, its going away, or its deadline. */
  lemma {:induction false} SentRequestsAreAnswered(events: seq<Event>, i: nat)
    requires i < |Run(events).sent|
    ensures var s := Run(events);
            var sent := s.sent[i];
            && sent.id == i + 1
            && sent.who < |s.told|
            && (sent.id in s.pending ==> s.told[sent.who] == [] && sent.conn in s.apps)
            && (sent.id !in s.pending ==> |s.told[sent.who]| == 1 && Fits(sent, s.told[sent.who][0]))
  {
    RunKeepsInv(events);
    var s := Run(events);
    assert SentOnce(s, i);
    if s.sent[i].id in s.pending {
      assert PendingIsSent(s, i + 1);
    }
  }

  /** The first expiry at or past a request's deadline leaves it answered. */
  lemma {:induction false} DeadlineAnswers(events: seq<Event>, now: int, i: nat)
    requires i < |Run(events + [Expire(now)]).sent|
    requires Run(events + [Expire(now)]).sent[i].deadline <= now
    ensures var s := Run(events + [Expire(now)]);
            var who := s.sent[i].who;
            who < |s.told| && |s.told[who]| == 1
  {
    var all := events + [Expire(now)];
    assert all[..|all| - 1] == events;
    SentRequestsAreAnswered(all, i);
    RunKeepsInv(events);
    var s := Run(events);
    if i + 1 in s.pending {
      assert PendingIsSent(s, i + 1);
    }
  }

  /** At most one of the attached apps runs on this machine. */
  lemma {:induction false} AtMostOneLocalApp(events: seq<Event>, a: nat, b: nat)
    requires a in Run(events).apps && b in Run(events).apps
    requires Run(events).apps[a].Here? && Run(events).apps[b].Here?
    ensures a == b
  {
    RunKeepsInv(events);
    assert a in Local(Run(events).apps) && b in Local(Run(events).apps);
  }

  lemma {:induction false} HistoryGrows(earlier: seq<Event>, later: seq<Event>)
    ensures var s, s' := Run(earlier), Run(earlier + later);
            && s.sent <= s'.sent
            && (s.seenHere ==> s'.seenHere && s'.before == s.before)
  {
    if later == [] {
      assert earlier + later == earlier;
    } else {
      var n := |later| - 1;
      assert (earlier + later)[..|earlier + later| - 1] == earlier + later[..n];
      HistoryGrows(earlier, later[..n]);
      StepGrows(Run(earlier + later[..n]), later[n]);
      hide Do;
    }
  }

  lemma {:induction false} StepGrows(s: State, e: Event)
    ensures var s' := Do(s, e);
            && s.sent <= s'.sent
            && (s.seenHere ==> s'.seenHere && s'.before == s.before)
  {
  }

  /** The event is a hello of this machine's own app, and it is accepted. */
  ghost predicate AttachesHere(s: State, e: Event) {
    e.Hello? && e.app.Here? && e.conn in Do(s, e).apps && e.conn !in s.apps
  }

  lemma {:induction false} SeenSince(events: seq<Event>, h: nat)
    requires h < |events| && AttachesHere(Run(events[..h]), events[h])
    ensures Run(events).seenHere
  {
    var upTo := events[..h + 1];
    assert upTo[..h] == events[..h];
    assert Run(upTo).seenHere;
    HistoryGrows(upTo, events[h + 1..]);
    assert upTo + events[h + 1..] == events;
  }

  /** From the moment this machine's own app first attaches, no request goes to a remote app. */
  lemma {:induction false} NoRemoteRequestAfterLocal(earlier: seq<Event>, later: seq<Event>, h: nat, i: nat)
    requires h < |earlier| && AttachesHere(Run(earlier[..h]), earlier[h])
    requires |Run(earlier).sent| <= i < |Run(earlier + later).sent|
    ensures Run(earlier + later).sent[i].here
  {
    SeenSince(earlier, h);
    RunKeepsInv(earlier);
    RunKeepsInv(earlier + later);
    HistoryGrows(earlier, later);
    assert SentOnce(Run(earlier + later), i);
  }

  // How each request is answered, and where it goes, from the events alone

  ghost predicate IsTrace(events: seq<Event>, states: seq<State>) {
    && |states| == |events| + 1 && states[0] == INIT
    && forall n :: 0 <= n < |events| ==> states[n + 1] == Do(states[n], events[n])
  }

  lemma {:induction false} TraceIsRun(events: seq<Event>, states: seq<State>, n: nat)
    requires IsTrace(events, states) && n <= |events|
    ensures states[n] == Run(events[..n]) && Inv(states[n])
  {
    if n > 0 {
      TraceIsRun(events, states, n - 1);
      assert events[..n][..n - 1] == events[..n - 1];
    }
    RunKeepsInv(events[..n]);
  }

  /** What the event would tell the one who waits for this request. */
  function Ending(event: Event, sent: Sent): Option<Outcome> {
    match event
    case Answer(conn, id) => if conn == sent.conn && id == Some(sent.id) then Some(Reply(conn)) else None
    case Gone(conn) => if conn == sent.conn then Some(AppGone(conn)) else None
    case Expire(now) => if sent.deadline <= now then Some(Timeout(now)) else None
    case _ => None
  }

  /** What the first such event from `k` up to `n` told. */
  function FirstEnding(events: seq<Event>, k: nat, n: nat, sent: Sent): seq<Outcome>
    requires k <= n <= |events|
  {
    if k == n then []
    else
      var earlier := FirstEnding(events, k, n - 1, sent);
      if earlier != [] then earlier
      else if Ending(events[n - 1], sent).Some? then [Ending(events[n - 1], sent).value] else []
  }

  /** The event sends a request. */
  ghost predicate Sends(s: State, event: Event) {
    event.Ask? && Target(s.apps, s.seenHere, s.lastUsed).Some?
  }

  /** How the request stands before and after an event. */
  ghost predicate EndsRight(s: State, next: State, sent: Sent, ending: Option<Outcome>) {
    && sent.who < |s.told| <= |next.told|
    && (sent.id in s.pending ==> if ending.Some? then next.told[sent.who] == [ending.value] && sent.id !in next.pending
                                 else next.told[sent.who] == s.told[sent.who] == [] && sent.id in next.pending)
    && (sent.id !in s.pending ==> next.told[sent.who] == s.told[sent.who] && |s.told[sent.who]| == 1 && sent.id !in next.pending)
  }

  lemma {:induction false} AnsweredRight(s: State, apps: map<nat, App>, ids: set<nat>, outcome: Outcome, i: nat)
    requires Inv(s) && i < |s.sent|
    ensures EndsRight(s, AnswerAll(s.(apps := apps), ids, outcome), s.sent[i], if s.sent[i].id in ids then Some(outcome) else None)
  {
    assert SentOnce(s, i);
    WhoWaits(s, ids, i);
    hide Inv;
  }

  lemma {:induction false} UntouchedRight(s: State, next: State, i: nat)
    requires Inv(s) && i < |s.sent| && |s.told| <= |next.told| && next.told[..|s.told|] == s.told
    requires s.sent[i].id in next.pending <==> s.sent[i].id in s.pending
    ensures EndsRight(s, next, s.sent[i], None)
  {
    assert SentOnce(s, i);
    assert next.told[s.sent[i].who] == next.told[..|s.told|][s.sent[i].who];
    hide Inv;
  }

  lemma {:induction false} EndingStep(s: State, event: Event, i: nat)
    requires Inv(s) && i < |s.sent|
    ensures var next, sent := Do(s, event), s.sent[i];
            i < |next.sent| && next.sent[i] == sent && EndsRight(s, next, sent, if sent.id in s.pending then Ending(event, sent) else None)
  {
    var sent, next := s.sent[i], Do(s, event);
    assert SentOnce(s, i) && s.nextId == |s.sent|;
    if sent.id in s.pending {
      assert PendingIsSent(s, sent.id);
    }
    hide Inv, AnswerAll;
    match event
    case Gone(conn) =>
      if conn in s.apps {
        AnsweredRight(s, s.apps - {conn}, AskedOf(s.pending, conn), AppGone(conn), i);
      } else {
        UntouchedRight(s, next, i);
      }
    case Answer(conn, id) =>
      if next != s {
        AnsweredRight(s, s.apps, {id.value}, Reply(conn), i);
        assert s.(apps := s.apps) == s;
      } else {
        UntouchedRight(s, next, i);
      }
    case Expire(now) =>
      AnsweredRight(s, s.apps, Late(s.pending, now), Timeout(now), i);
      assert s.(apps := s.apps) == s;
    case _ => UntouchedRight(s, next, i);
  }

  /** The request sent at event `k`, as it stands at `n`. */
  ghost predicate StandsAt(events: seq<Event>, states: seq<State>, k: nat, n: nat)
    requires k < n <= |events| && |states| == |events| + 1
  {
    var s, i := states[n], |states[k].sent|;
    && i < |states[k + 1].sent| && i < |s.sent| && s.sent[i] == states[k + 1].sent[i] && s.sent[i].who < |s.told|
    && s.told[s.sent[i].who] == FirstEnding(events, k + 1, n, s.sent[i])
    && (s.sent[i].id in s.pending <==> s.told[s.sent[i].who] == [])
  }

  lemma {:induction false} StandsFirst(events: seq<Event>, states: seq<State>, k: nat)
    requires IsTrace(events, states) && k < |events| && Sends(states[k], events[k])
    ensures StandsAt(events, states, k, k + 1)
  {
    TraceIsRun(events, states, k);
    assert states[k].nextId == |states[k].sent|;
    hide Inv;
  }

  lemma {:induction false} StandsNext(events: seq<Event>, states: seq<State>, k: nat, n: nat)
    requires k < n < |events| && |states| == |events| + 1 && StandsAt(events, states, k, n)
    requires Inv(states[n]) && states[n + 1] == Do(states[n], events[n])
    ensures StandsAt(events, states, k, n + 1)
  {
    EndingStep(states[n], events[n], |states[k].sent|);
    hide Do, Inv, Ending;
  }

  lemma {:induction false} TraceGoes(events: seq<Event>, states: seq<State>, n: nat)
    requires IsTrace(events, states) && n < |events|
    ensures Inv(states[n]) && states[n + 1] == Do(states[n], events[n])
  {
    TraceIsRun(events, states, n);
    hide Inv, Do;
  }

  lemma {:induction false} AnswerSoFar(events: seq<Event>, states: seq<State>, k: nat, n: nat)
    requires IsTrace(events, states) && k < n <= |events| && Sends(states[k], events[k])
    ensures StandsAt(events, states, k, n)
  {
    assert |states| == |events| + 1;
    hide *;
    if n == k + 1 {
      StandsFirst(events, states, k);
    } else {
      AnswerSoFar(events, states, k, n - 1);
      TraceGoes(events, states, n - 1);
      StandsNext(events, states, k, n - 1);
    }
  }

  /**
   In every run, whoever waits for a request is told exactly what the first event after its sending
   says that ends it: its connection's reply to its ID, its connection's going away, or an expiry at
   or past its deadline; and nothing while there was none.
   */
  lemma {:induction false} FirstEndingAnswers(events: seq<Event>, states: seq<State>, k: nat)
    requires IsTrace(events, states) && k < |events| && Sends(states[k], events[k])
    ensures var s, i := states[|events|], |states[k].sent|;
            && i < |s.sent| && s.sent[i] == states[k + 1].sent[i] && s.sent[i].who < |s.told|
            && s.told[s.sent[i].who] == FirstEnding(events, k + 1, |events|, s.sent[i])
  {
    AnswerSoFar(events, states, k, |events|);
  }

  /** What the hello's checks ask for, with what is attached already. */
  ghost predicate Accepts(s: State, app: App, check: Check) {
    && !s.stopping && !check.OtherProtocol? && !check.WriteFailed?
    && (app.Here? ==> !check.OtherBuild? && forall conn <- s.apps :: s.apps[conn].Remote?)
  }

  /** The app attached at event `h` and is still there at `n`. */
  ghost predicate StaysAttached(events: seq<Event>, states: seq<State>, h: nat, n: nat, conn: nat, app: App)
    requires n <= |events| && |states| == |events| + 1
  {
    && h < n && events[h].Hello? && events[h].conn == conn && events[h].app == app && Accepts(states[h], app, events[h].check)
    && forall j :: h < j < n ==> events[j] != Gone(conn) && !(events[j].Hello? && events[j].conn == conn && Accepts(states[j], events[j].app, events[j].check))
  }

  lemma {:induction false} AttachStep(s: State, event: Event, conn: nat, app: App)
    ensures var next := Do(s, event);
            conn in next.apps && next.apps[conn] == app <==>
            if event.Hello? && event.conn == conn && Accepts(s, event.app, event.check) then event.app == app
            else event != Gone(conn) && conn in s.apps && s.apps[conn] == app
  {
    if event.Hello? && event.app.Here? {
      assert Local(s.apps) == {} <==> forall c <- s.apps :: s.apps[c].Remote? by {
        if Local(s.apps) == {} {
          forall c <- s.apps ensures s.apps[c].Remote? {
            assert c !in Local(s.apps);
          }
        }
      }
    }
  }

  /** A hello is accepted unless the daemon is quitting, the app speaks another protocol or can't be written to, or is this machine's own and of another build or not the only one. */
  lemma {:induction false} AcceptedIff(events: seq<Event>, states: seq<State>, n: nat, app: App, check: Check)
    requires IsTrace(events, states) && n <= |events|
    ensures Accepts(states[n], app, check) <==>
            && Quit !in events[..n] && !check.OtherProtocol? && !check.WriteFailed?
            && (app.Here? ==> !check.OtherBuild? && forall conn <- states[n].apps :: states[n].apps[conn].Remote?)
  {
    RemembersUse(events, states, n);
  }

  /** In every run the apps attached are those whose hello was accepted and that haven't gone since, nor been replaced on their connection. */
  lemma {:induction false} AttachedIff(events: seq<Event>, states: seq<State>, n: nat, conn: nat, app: App)
    requires IsTrace(events, states) && n <= |events|
    ensures conn in states[n].apps && states[n].apps[conn] == app <==> exists h: nat :: StaysAttached(events, states, h, n, conn, app)
  {
    if n > 0 {
      var m := n - 1;
      AttachedIff(events, states, m, conn, app);
      AttachStep(states[m], events[m], conn, app);
      hide Accepts, Do;
      var again := events[m].Hello? && events[m].conn == conn && Accepts(states[m], events[m].app, events[m].check);
      if h: nat :| StaysAttached(events, states, h, m, conn, app) {
        assert events[m] != Gone(conn) && !again ==> StaysAttached(events, states, h, n, conn, app);
      }
      if h: nat :| StaysAttached(events, states, h, n, conn, app) {
        assert h < m ==> StaysAttached(events, states, h, m, conn, app);
      }
      if again && events[m].app == app {
        assert StaysAttached(events, states, m, n, conn, app);
      }
    }
  }

  /** The connection used last while it was attached. */
  ghost function UsedLast(events: seq<Event>, states: seq<State>, n: nat): Option<nat>
    requires n <= |events| && |states| == |events| + 1
  {
    if n == 0 then None
    else if events[n - 1].Used? && events[n - 1].conn in states[n - 1].apps then Some(events[n - 1].conn)
    else UsedLast(events, states, n - 1)
  }

  ghost predicate HereBefore(events: seq<Event>, states: seq<State>, h: nat, n: nat)
    requires n <= |events| && |states| == |events| + 1
  {
    h < n && events[h].Hello? && events[h].app.Here? && Accepts(states[h], events[h].app, events[h].check)
  }

  lemma {:induction false} RemembersUse(events: seq<Event>, states: seq<State>, n: nat)
    requires IsTrace(events, states) && n <= |events|
    ensures states[n].lastUsed == if UsedLast(events, states, n).Some? then UsedLast(events, states, n).value else 0
    ensures states[n].seenHere <==> exists h: nat :: HereBefore(events, states, h, n)
    ensures states[n].stopping <==> Quit in events[..n]
  {
    if n > 0 {
      var m := n - 1;
      assert events[..n] == events[..m] + [events[m]];
      RemembersUse(events, states, m);
      SeenStep(states[m], events[m]);
      hide Accepts, Do;
      if h: nat :| HereBefore(events, states, h, m) {
        assert HereBefore(events, states, h, n);
      }
      if h: nat :| HereBefore(events, states, h, n) {
        assert h < m ==> HereBefore(events, states, h, m);
      }
      if events[m].Hello? && events[m].app.Here? && Accepts(states[m], events[m].app, events[m].check) {
        assert HereBefore(events, states, m, n);
      }
    }
  }

  lemma {:induction false} SeenStep(s: State, event: Event)
    ensures Do(s, event).lastUsed == if event.Used? && event.conn in s.apps then event.conn else s.lastUsed
    ensures Do(s, event).seenHere == (s.seenHere || (event.Hello? && event.app.Here? && Accepts(s, event.app, event.check)))
    ensures Do(s, event).stopping == (s.stopping || event.Quit?)
  {
    if event.Hello? {
      AttachStep(s, event, event.conn, event.app);
      assert Local(s.apps) == {} <==> forall c <- s.apps :: s.apps[c].Remote? by {
        forall c <- s.apps ensures c in Local(s.apps) <==> s.apps[c].Here? {
        }
      }
    }
  }

  /** A request goes there: to this machine's own app; if none was ever here, to the one used last, or else to the newest. */
  ghost predicate GoesTo(events: seq<Event>, states: seq<State>, k: nat, conn: nat)
    requires k <= |events| && |states| == |events| + 1
  {
    var apps := states[k].apps;
    && conn in apps
    && (apps[conn].Here?
        || (&& (forall h: nat :: !HereBefore(events, states, h, k))
            && var used := UsedLast(events, states, k);
               if used.Some? && used.value in apps then conn == used.value
               else if used.None? && 0 in apps then conn == 0
               else forall other <- apps :: other <= conn))
  }

  /**
   In every run a request is sent exactly when there is an app for it to go to: this machine's own; if
   none was ever here, the one used last, while that is attached, and else the newest. And then it
   goes there, under the next ID and with its deadline; otherwise it is answered at once that there is none.
   */
  lemma {:induction false} RequestGoesToTarget(events: seq<Event>, states: seq<State>, k: nat)
    requires IsTrace(events, states) && k < |events| && events[k].Ask?
    ensures var s, next := states[k], states[k + 1];
            && (Sends(s, events[k]) <==> exists conn: nat :: GoesTo(events, states, k, conn))
            && (Sends(s, events[k]) ==>
                  && |next.sent| == |s.sent| + 1
                  && var sent := next.sent[|s.sent|];
                     sent.id == |s.sent| + 1 && sent.deadline == events[k].deadline && sent.who == |s.told| && GoesTo(events, states, k, sent.conn))
            && (!Sends(s, events[k]) ==> next == s.(told := s.told + [[NoApp]]))
  {
    TraceIsRun(events, states, k);
    RemembersUse(events, states, k);
    var s := states[k];
    assert Local(s.apps) != {} ==> s.seenHere;
    hide HereBefore, UsedLast, Inv, IsTrace;
    if Sends(s, events[k]) {
      TargetIsGoal(events, states, k, Target(s.apps, s.seenHere, s.lastUsed).value);
    }
    if conn: nat :| GoesTo(events, states, k, conn) {
      TargetIsGoal(events, states, k, conn);
    }
  }

  lemma {:induction false} TargetIsGoal(events: seq<Event>, states: seq<State>, k: nat, conn: nat)
    requires k <= |events| && |states| == |events| + 1
    requires var s := states[k];
             && s.lastUsed == (if UsedLast(events, states, k).Some? then UsedLast(events, states, k).value else 0)
             && (s.seenHere <==> exists h: nat :: HereBefore(events, states, h, k))
             && (Local(s.apps) != {} ==> s.seenHere)
    ensures var s := states[k];
            var target := Target(s.apps, s.seenHere, s.lastUsed);
            (target == Some(conn) ==> GoesTo(events, states, k, conn)) && (GoesTo(events, states, k, conn) ==> target.Some?)
  {
    hide HereBefore, UsedLast;
    var apps := states[k].apps;
    forall c <- apps ensures c in Local(apps) <==> apps[c].Here? {
    }
  }

  // The link as the daemon holds it

  class AppLink {
    var apps: map<nat, App>
    var seenHere: bool
    var lastUsed: nat
    var pending: map<nat, Pending>
    var nextId: nat
    var stopping: bool
    var sent: seq<Sent>
    var told: seq<seq<Outcome>>
    ghost var before: nat

    ghost function Now(): State
      reads this
    {
      State(apps, seenHere, lastUsed, pending, nextId, stopping, sent, told, before)
    }

    constructor ()
      ensures Now() == INIT
    {
      apps, seenHere, lastUsed, pending, nextId, stopping := map[], false, 0, map[], 0, false;
      sent, told, before := [], [], 0;
    }

    method Hello(conn: nat, app: App, check: Check) returns (stop: bool)
      modifies this`apps, this`seenHere
      ensures Now() == Do(old(Now()), Event.Hello(conn, app, check))
      ensures stop ==> Now() == old(Now()) && app.Here? && check.OtherBuild?
    {
      if stopping || (app.Here? && Local(apps) != {}) {
        return false;
      }
      if check.OtherBuild? && app.Here? {
        return true;
      }
      if !check.OtherProtocol? && !check.WriteFailed? {
        seenHere := seenHere || app.Here?;
        apps := apps[conn := app];
      }
      return false;
    }

    /** The connection requests go to: this machine's own app, else the one used last, else the newest. */
    method FindTarget() returns (target: Option<nat>)
      ensures target == Target(apps, seenHere, lastUsed)
    {
      var least: Option<nat>, greatest: Option<nat> := None, None;
      var left := apps.Keys;
      while left != {}
        invariant left <= apps.Keys
        invariant least.None? ==> forall c <- Local(apps) :: c in left
        invariant least.Some? ==> least.value in Local(apps) && forall c <- Local(apps) :: c in left || least.value <= c
        invariant greatest.None? ==> left == apps.Keys
        invariant greatest.Some? ==> greatest.value in apps && forall c <- apps :: c in left || c <= greatest.value
        decreases left
      {
        var conn :| conn in left;
        left := left - {conn};
        if apps[conn].Here? && (least.None? || conn < least.value) {
          least := Some(conn);
        }
        if greatest.None? || greatest.value < conn {
          greatest := Some(conn);
        }
      }
      if least.Some? {
        target := least;
      } else if seenHere {
        target := None;
      } else if lastUsed in apps {
        target := Some(lastUsed);
      } else {
        target := greatest;
      }
    }

    method AskWithin(deadline: int)
      modifies this`nextId, this`pending, this`sent, this`told, this`before
      ensures Now() == Do(old(Now()), Ask(deadline))
    {
      var target := FindTarget();
      var who := |told|;
      if target.None? {
        told := told + [[NoApp]];
        return;
      }
      var conn := target.value;
      nextId := nextId + 1;
      pending := pending[nextId := Pending(deadline, conn, who)];
      sent := sent + [Sent(nextId, who, conn, apps[conn].Here?, deadline)];
      told := told + [[]];
      before := if seenHere then before else before + 1;
    }

    /** Removes the pending requests in `ids` one at a time and answers each. */
    method Respond(ids: set<nat>, outcome: Outcome)
      requires Inv(Now()) && ids <= pending.Keys
      modifies this`pending, this`told
      ensures Now() == AnswerAll(old(Now()), ids, outcome)
    {
      var left := ids;
      while left != {}
        invariant left <= ids
        invariant pending == old(pending) - (ids - left)
        invariant |told| == old(|told|)
        invariant forall who :: 0 <= who < |told| ==>
          told[who] == old(told[who]) + if WaitsIn(old(pending), ids - left, who) then [outcome] else []
        decreases left
      {
        var id :| id in left;
        var who := pending[id].who;
        ghost var done := ids - left;
        OneResponder(old(Now()), ids, id);
        left := left - {id};
        pending := pending - {id};
        told := told[who := told[who] + [outcome]];
        assert ids - left == done + {id};
        forall w | 0 <= w < |told|
          ensures WaitsIn(old(pending), done + {id}, w) <==> w == who || WaitsIn(old(pending), done, w)
        {
          if w == who {
            assert id in done + {id};
          }
        }
      }
      assert ids - left == ids;
      assert told == AnswerAll(old(Now()), ids, outcome).told;
    }

    method Gone(conn: nat)
      requires Inv(Now())
      modifies this`apps, this`pending, this`told
      ensures Now() == Do(old(Now()), Event.Gone(conn))
    {
      if conn in apps {
        var asked := set id | id in pending && pending[id].conn == conn;
        Respond(asked, AppGone(conn));
        apps := apps - {conn};
      }
    }

    method Answer(conn: nat, id: Option<nat>)
      requires Inv(Now())
      modifies this`pending, this`told
      ensures Now() == Do(old(Now()), Event.Answer(conn, id))
    {
      if conn in apps && id.Some? && id.value in pending && pending[id.value].conn == conn {
        Respond({id.value}, Reply(conn));
      }
    }

    method Used(conn: nat)
      modifies this`lastUsed
      ensures Now() == Do(old(Now()), Event.Used(conn))
    {
      if conn in apps {
        lastUsed := conn;
      }
    }

    method Expire(now: int)
      requires Inv(Now())
      modifies this`pending, this`told
      ensures Now() == Do(old(Now()), Event.Expire(now))
    {
      var late := set id | id in pending && pending[id].deadline <= now;
      Respond(late, Timeout(now));
    }
  }

  lemma OneResponder(s: State, ids: set<nat>, id: nat)
    requires Inv(s) && id in ids && ids <= s.pending.Keys
    ensures s.pending[id].who < |s.told|
    ensures forall other <- s.pending :: s.pending[other].who == s.pending[id].who ==> other == id
  {
    assert PendingIsSent(s, id) && SentOnce(s, id - 1);
    forall other <- s.pending | s.pending[other].who == s.pending[id].who
      ensures other == id
    {
      assert PendingIsSent(s, other);
      WhoWaits(s, {other}, id - 1);
      assert WaitsIn(s.pending, {other}, s.sent[id - 1].who);
    }
  }
}
