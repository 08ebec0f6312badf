/**
 The agents' time: from the rows of what happened, the turns agents worked, the waits for
 the user, and the time finished work went unread; and how these spread over days. Times
 are reals, in seconds.
 */
module Ledger {
  import opened Prelude

  datatype Row = Row(task: string, name: string, at: real, what: string, status: Option<string>)

  datatype End = Met | Dropped | Open

  datatype Span = Span(task: string, name: string, from: real, to: real, end: End) {
    function Seconds(): real {
      Max(to - from, 0.0)
    }
  }

  datatype Book = Book(turns: seq<Span>, waits: seq<Span>, unread: seq<Span>)

  datatype Agent = Agent(working: Option<real>, waiting: Option<real>, stopped: bool, unread: Option<real>)

  function Max(a: real, b: real): real {
    if a >= b then a else b
  }

  function Min(a: real, b: real): real {
    if a <= b then a else b
  }

  // One task's story

  datatype Kind = Turn | Wait | Unread

  datatype Entry = Entry(kind: Kind, span: Span)

  const IDLE: Agent := Agent(None, None, false, None)

  function OpenAt(open: Option<real>, at: real): Option<real> {
    if open.Some? then open else Some(at)
  }

  function Status(row: Row, status: string): bool {
    row.what == "status" && row.status == Some(status)
  }

  function Stops(row: Row): bool {
    Status(row, "exited") || row.what == "stopped"
  }

  /** How a row leaves the agent. */
  function Next(a: Agent, row: Row): Agent {
    if Status(row, "working") then a.(working := OpenAt(a.working, row.at), waiting := None, unread := None)
    else if Status(row, "needs-you") then Agent(None, OpenAt(a.waiting, row.at), false, None)
    else if Status(row, "idle") then
      Agent(None, None, a.stopped, if a.working.Some? then OpenAt(a.unread, row.at) else a.unread)
    else if Stops(row) then a.(working := None, stopped := true)
    else if row.what == "started" || row.what == "picked" then
      a.(waiting := if a.stopped then None else a.waiting, unread := if row.what == "picked" then None else a.unread)
    else if row.what == "looked" || row.what == "activated" then a.(unread := None)
    else if row.what == "done" then a.(working := None, waiting := None, unread := None)
    else a
  }

  function Closing(kind: Kind, open: Option<real>, row: Row, name: string, to: real, end: End): seq<Entry> {
    if open.Some? then [Entry(kind, Span(row.task, name, open.value, to, end))] else []
  }

  /** What a row closes: what was open before it and isn't after. */
  function Closes(a: Agent, row: Row, name: string): seq<Entry> {
    var b := Next(a, row);
    var end := if row.what == "done" then Dropped else Met;
    Closing(Turn, if b.working.None? then a.working else None, row, name, row.at, Met)
    + Closing(Wait, if b.waiting.None? then a.waiting else None, row, name, row.at, end)
    + Closing(Unread, if b.unread.None? then a.unread else None, row, name, row.at, end)
  }

  function After(rows: seq<Row>): Agent {
    if rows == [] then IDLE else Next(After(rows[..|rows| - 1]), rows[|rows| - 1])
  }

  function Closed(rows: seq<Row>): seq<Entry> {
    if rows == [] then []
    else Closed(rows[..|rows| - 1]) + Closes(After(rows[..|rows| - 1]), rows[|rows| - 1], rows[0].name)
  }

  function StillOpen(rows: seq<Row>, now: real): seq<Entry> {
    if rows == [] then []
    else
      var a := After(rows);
      Closing(Turn, a.working, rows[0], rows[0].name, now, Open)
      + Closing(Wait, a.waiting, rows[0], rows[0].name, now, Open)
      + Closing(Unread, a.unread, rows[0], rows[0].name, now, Open)
  }

  /** All spans of one task's rows, in the order they ended. */
  function Story(rows: seq<Row>, now: real): seq<Entry> {
    Closed(rows) + StillOpen(rows, now)
  }

  function Spans(kind: Kind, story: seq<Entry>): seq<Span> {
    if story == [] then []
    else Spans(kind, story[..|story| - 1]) + if story[|story| - 1].kind == kind then [story[|story| - 1].span] else []
  }

  // What stays true

  predicate AtMostOneOpen(a: Agent) {
    !(a.working.Some? && a.waiting.Some?) && !(a.working.Some? && a.unread.Some?) && !(a.waiting.Some? && a.unread.Some?)
  }

  function OpenSince(a: Agent): Option<real> {
    if a.working.Some? then a.working else if a.waiting.Some? then a.waiting else a.unread
  }

  /** A turn, a wait and unread work are never open together, whatever the rows. */
  lemma {:induction false} NeverTwoOpen(rows: seq<Row>)
    ensures AtMostOneOpen(After(rows))
  {
    if rows != [] {
      NeverTwoOpen(rows[..|rows| - 1]);
    }
  }

  /** Spans between `from` and `to`, each ended before the next begins. */
  predicate InTurn(story: seq<Entry>, from: real, to: real) {
    if story == [] then from <= to
    else
      var last := story[|story| - 1].span;
      last.from <= last.to <= to && InTurn(story[..|story| - 1], from, last.from)
  }

  lemma {:induction false} InTurnLater(story: seq<Entry>, from: real, to: real, later: real)
    requires InTurn(story, from, to) && to <= later
    ensures InTurn(story, from, later)
  {
  }

  lemma {:induction false} InTurnMore(story: seq<Entry>, from: real, e: Entry, to: real)
    requires InTurn(story, from, e.span.from) && e.span.from <= e.span.to <= to
    ensures InTurn(story + [e], from, to)
  {
    assert (story + [e])[..|story|] == story;
  }

  predicate TimeOrdered(rows: seq<Row>) {
    forall i, j :: 0 <= i < j < |rows| ==> rows[i].at <= rows[j].at
  }

  /** Where the story stands: everything in turn, up to what is open. */
  predicate Standing(a: Agent, story: seq<Entry>, from: real, to: real) {
    && AtMostOneOpen(a)
    && from <= to
    && if OpenSince(a).Some? then OpenSince(a).value <= to && InTurn(story, from, OpenSince(a).value) else InTurn(story, from, to)
  }

  /** A row closes what was open, or leaves it open; what it opens, it opens at its own time. */
  lemma {:induction false} ClosesWhatWasOpen(a: Agent, row: Row, name: string)
    requires AtMostOneOpen(a)
    ensures var closes, b := Closes(a, row, name), Next(a, row);
            && AtMostOneOpen(b)
            && (closes == [] ==> OpenSince(b) == OpenSince(a) || (OpenSince(a).None? && OpenSince(b) == Some(row.at)))
            && (closes != [] ==> OpenSince(a).Some? && |closes| == 1 && closes[0].span.from == OpenSince(a).value && closes[0].span.to == row.at)
            && (closes != [] ==> OpenSince(b).None? || OpenSince(b) == Some(row.at))
  {
  }

  lemma {:induction false} StandingNext(a: Agent, story: seq<Entry>, from: real, to: real, row: Row, name: string)
    requires Standing(a, story, from, to) && to <= row.at
    ensures Standing(Next(a, row), story + Closes(a, row, name), from, row.at)
  {
    ClosesWhatWasOpen(a, row, name);
    hide Next, Closes, AtMostOneOpen;
    var closes := Closes(a, row, name);
    if closes == [] {
      assert story + closes == story;
      if OpenSince(a).None? {
        InTurnLater(story, from, to, row.at);
      }
    } else {
      assert closes == [closes[0]];
      InTurnMore(story, from, closes[0], row.at);
    }
  }

  lemma {:induction false} StandingAfter(rows: seq<Row>)
    requires rows != [] && TimeOrdered(rows)
    ensures Standing(After(rows), Closed(rows), rows[0].at, rows[|rows| - 1].at)
  {
    var most, last := rows[..|rows| - 1], rows[|rows| - 1];
    if most == [] {
      assert After(most) == IDLE && Closed(most) == [];
      StandingNext(IDLE, [], last.at, last.at, last, rows[0].name);
    } else {
      StandingAfter(most);
      StandingNext(After(most), Closed(most), rows[0].at, most[|most| - 1].at, last, rows[0].name);
    }
  }

  function Sum(spans: seq<Span>): real {
    if spans == [] then 0.0 else Sum(spans[..|spans| - 1]) + spans[|spans| - 1].Seconds()
  }

  function Time(story: seq<Entry>): real {
    if story == [] then 0.0 else Time(story[..|story| - 1]) + story[|story| - 1].span.Seconds()
  }

  lemma {:induction false} TimeIsByKind(story: seq<Entry>)
    ensures Time(story) == Sum(Spans(Turn, story)) + Sum(Spans(Wait, story)) + Sum(Spans(Unread, story))
  {
    if story != [] {
      var most, last := story[..|story| - 1], story[|story| - 1];
      TimeIsByKind(most);
      SumMore(Turn, most, last);
      SumMore(Wait, most, last);
      SumMore(Unread, most, last);
      assert story == most + [last];
    }
  }

  lemma {:induction false} SumMore(kind: Kind, story: seq<Entry>, e: Entry)
    ensures Sum(Spans(kind, story + [e])) == Sum(Spans(kind, story)) + if e.kind == kind then e.span.Seconds() else 0.0
  {
    var spans := Spans(kind, story);
    assert (story + [e])[..|story|] == story;
    assert (spans + [e.span])[..|spans|] == spans;
    assert spans + [] == spans;
  }

  lemma {:induction false} SpansConcat(kind: Kind, a: seq<Entry>, b: seq<Entry>)
    ensures Spans(kind, a + b) == Spans(kind, a) + Spans(kind, b)
  {
    if b == [] {
      assert a + b == a;
    } else {
      assert (a + b)[..|a + b| - 1] == a + b[..|b| - 1];
      SpansConcat(kind, a, b[..|b| - 1]);
    }
  }

  lemma {:induction false} InTurnFits(story: seq<Entry>, from: real, to: real)
    requires InTurn(story, from, to)
    ensures Time(story) <= to - from
  {
    if story != [] {
      InTurnFits(story[..|story| - 1], from, story[|story| - 1].span.from);
    }
  }

  lemma {:induction false} InTurnApart(story: seq<Entry>, from: real, to: real, i: nat, j: nat)
    requires InTurn(story, from, to) && i < j < |story|
    ensures story[i].span.to <= story[j].span.from
  {
    var most, last := story[..|story| - 1], story[|story| - 1];
    if j < |story| - 1 {
      InTurnApart(most, from, last.span.from, i, j);
    } else {
      InTurnEnds(most, from, last.span.from, i);
    }
  }

  lemma {:induction false} InTurnEnds(story: seq<Entry>, from: real, to: real, i: nat)
    requires InTurn(story, from, to) && i < |story|
    ensures from <= story[i].span.from <= story[i].span.to <= to
  {
    var most, last := story[..|story| - 1], story[|story| - 1];
    if i < |story| - 1 {
      InTurnEnds(most, from, last.span.from, i);
    } else {
      InTurnStart(most, from, last.span.from);
    }
  }

  lemma {:induction false} InTurnStart(story: seq<Entry>, from: real, to: real)
    requires InTurn(story, from, to)
    ensures from <= to
  {
    if story != [] {
      InTurnStart(story[..|story| - 1], from, story[|story| - 1].span.from);
    }
  }

  // Main results

  /** On rows in the order of time, a task's spans of all kinds follow one another, from its first row to now. */
  lemma {:induction false} StoryIsInTurn(rows: seq<Row>, now: real)
    requires rows != [] && TimeOrdered(rows) && rows[|rows| - 1].at <= now
    ensures InTurn(Story(rows, now), rows[0].at, now)
  {
    StandingAfter(rows);
    var a, closed, open := After(rows), Closed(rows), StillOpen(rows, now);
    if OpenSince(a).Some? {
      assert open == [open[0]] && open[0].span.from == OpenSince(a).value && open[0].span.to == now;
      InTurnMore(closed, rows[0].at, open[0], now);
    } else {
      assert closed + open == closed;
      InTurnLater(closed, rows[0].at, rows[|rows| - 1].at, now);
    }
  }

  /** So no two of them share time, and together they are no longer than the time passed. */
  lemma {:induction false} SpansFitTheTime(rows: seq<Row>, now: real)
    requires rows != [] && TimeOrdered(rows) && rows[|rows| - 1].at <= now
    ensures var story := Story(rows, now);
            && (forall i, j :: 0 <= i < j < |story| ==> story[i].span.to <= story[j].span.from)
            && (forall i :: 0 <= i < |story| ==> rows[0].at <= story[i].span.from <= story[i].span.to <= now)
            && Sum(Spans(Turn, story)) + Sum(Spans(Wait, story)) + Sum(Spans(Unread, story)) <= now - rows[0].at
  {
    var story := Story(rows, now);
    StoryIsInTurn(rows, now);
    forall i, j | 0 <= i < j < |story| ensures story[i].span.to <= story[j].span.from {
      InTurnApart(story, rows[0].at, now, i, j);
    }
    forall i | 0 <= i < |story| ensures rows[0].at <= story[i].span.from <= story[i].span.to <= now {
      InTurnEnds(story, rows[0].at, now, i);
    }
    InTurnFits(story, rows[0].at, now);
    TimeIsByKind(story);
  }

  // Which rows make which spans

  /** Whether the row begins a span of the kind unless one is open: a turn by working, a wait by needing the user, unread work by going idle in a turn. */
  ghost predicate Opens(rows: seq<Row>, i: nat, kind: Kind)
    requires i < |rows|
    decreases i, 2
  {
    match kind
    case Turn => Status(rows[i], "working")
    case Wait => Status(rows[i], "needs-you")
    case Unread => Status(rows[i], "idle") && IsOpen(rows, i, Turn)
  }

  /** Whether the row ends a span of the kind that is open. */
  ghost predicate Ends(rows: seq<Row>, k: nat, kind: Kind)
    requires k < |rows|
  {
    var row := rows[k];
    match kind
    case Turn => Status(row, "needs-you") || Status(row, "idle") || Status(row, "exited") || row.what in {"stopped", "done"}
    case Wait => Status(row, "working") || Status(row, "idle") || row.what == "done" || (row.what in {"started", "picked"} && Halted(rows, k))
    case Unread => Status(row, "working") || Status(row, "needs-you") || row.what in {"picked", "looked", "activated", "done"}
  }

  /** The agent exited or was stopped, and hasn't needed the user since. */
  ghost predicate Halted(rows: seq<Row>, n: nat)
    requires n <= |rows|
  {
    exists s: nat :: s < n && (Status(rows[s], "exited") || rows[s].what == "stopped") && forall j :: s < j < n ==> !Status(rows[j], "needs-you")
  }

  ghost predicate GoesOn(rows: seq<Row>, i: nat, n: nat, kind: Kind)
    requires n <= |rows|
  {
    forall k :: i < k < n ==> !Ends(rows, k, kind)
  }

  ghost predicate IsOpen(rows: seq<Row>, n: nat, kind: Kind)
    requires n <= |rows|
    decreases n, 1
  {
    exists i: nat :: Began(rows, n, kind, i)
  }

  ghost predicate Began(rows: seq<Row>, n: nat, kind: Kind, i: nat)
    requires n <= |rows|
    decreases n, 0
  {
    i < n && Opens(rows, i, kind) && GoesOn(rows, i, n, kind)
  }

  /** Row `i` began the span that is open at `n`: none was open before it. */
  ghost predicate OpenFrom(rows: seq<Row>, n: nat, kind: Kind, i: nat)
    requires n <= |rows|
  {
    Began(rows, n, kind, i) && !IsOpen(rows, i, kind)
  }

  function OpenIn(a: Agent, kind: Kind): Option<real> {
    match kind
    case Turn => a.working
    case Wait => a.waiting
    case Unread => a.unread
  }

  ghost predicate Tracks(rows: seq<Row>, n: nat, kind: Kind, open: Option<real>)
    requires n <= |rows|
  {
    && (open.Some? <==> IsOpen(rows, n, kind))
    && (open.Some? ==> exists i: nat :: OpenFrom(rows, n, kind, i) && rows[i].at == open.value)
  }

  ghost predicate TracksAll(rows: seq<Row>, n: nat, a: Agent)
    requires n <= |rows|
  {
    && (forall kind :: Tracks(rows, n, kind, OpenIn(a, kind)))
    && (a.stopped <==> Halted(rows, n))
  }

  lemma {:induction false} NotBoth(rows: seq<Row>, n: nat, kind: Kind)
    requires n < |rows|
    ensures !(Opens(rows, n, kind) && Ends(rows, n, kind))
  {
  }

  lemma {:induction false} HaltedNext(rows: seq<Row>, n: nat)
    requires n < |rows|
    ensures Halted(rows, n + 1) <==> Stops(rows[n]) || (Halted(rows, n) && !Status(rows[n], "needs-you"))
  {
    if Halted(rows, n + 1) {
      var s: nat :| s < n + 1 && (Status(rows[s], "exited") || rows[s].what == "stopped") && forall j :: s < j < n + 1 ==> !Status(rows[j], "needs-you");
      if s < n {
        assert Halted(rows, n) && !Status(rows[n], "needs-you");
      }
    }
    if Stops(rows[n]) {
      assert n < n + 1 && (Status(rows[n], "exited") || rows[n].what == "stopped");
    }
  }

  /** What a row makes of a kind's open span, from the two lists of rows alone. */
  lemma {:induction false} NextOpen(rows: seq<Row>, n: nat, a: Agent, kind: Kind)
    requires n < |rows| && TracksAll(rows, n, a)
    ensures OpenIn(Next(a, rows[n]), kind) ==
            if Ends(rows, n, kind) then None else if OpenIn(a, kind).Some? then OpenIn(a, kind) else if Opens(rows, n, kind) then Some(rows[n].at) else None
  {
    assert Tracks(rows, n, Turn, OpenIn(a, Turn));
    hide Tracks, Halted, IsOpen;
  }

  lemma {:induction false} BeganNext(rows: seq<Row>, n: nat, kind: Kind, i: nat)
    requires n < |rows|
    ensures Began(rows, n + 1, kind, i) <==> if i == n then Opens(rows, n, kind) else Began(rows, n, kind, i) && !Ends(rows, n, kind)
    ensures Began(rows, n, kind, i) ==> i < n
  {
    hide Opens, Ends;
  }

  lemma {:induction false} WhoBegan(rows: seq<Row>, n: nat, kind: Kind) returns (i: nat)
    requires n <= |rows| && IsOpen(rows, n, kind)
    ensures Began(rows, n, kind, i)
  {
    i :| Began(rows, n, kind, i);
  }

  lemma {:induction false} OpenNext(rows: seq<Row>, n: nat, kind: Kind)
    requires n < |rows|
    ensures IsOpen(rows, n + 1, kind) <==> !Ends(rows, n, kind) && (IsOpen(rows, n, kind) || Opens(rows, n, kind))
  {
    NotBoth(rows, n, kind);
    hide Opens, Ends;
    if IsOpen(rows, n + 1, kind) {
      var i := WhoBegan(rows, n + 1, kind);
      BeganNext(rows, n, kind, i);
    }
    if IsOpen(rows, n, kind) {
      var i := WhoBegan(rows, n, kind);
      BeganNext(rows, n, kind, i);
    }
    BeganNext(rows, n, kind, n);
  }

  lemma {:induction false} TracksNext(rows: seq<Row>, n: nat, kind: Kind, open: Option<real>)
    requires n < |rows| && Tracks(rows, n, kind, open)
    ensures Tracks(rows, n + 1, kind, if Ends(rows, n, kind) then None else if open.Some? then open else if Opens(rows, n, kind) then Some(rows[n].at) else None)
  {
    OpenNext(rows, n, kind);
    hide Opens, Ends, IsOpen, Began;
    if !Ends(rows, n, kind) {
      if open.Some? {
        var i: nat :| OpenFrom(rows, n, kind, i) && rows[i].at == open.value;
        BeganNext(rows, n, kind, i);
        assert OpenFrom(rows, n + 1, kind, i);
      } else if Opens(rows, n, kind) {
        BeganNext(rows, n, kind, n);
        assert OpenFrom(rows, n + 1, kind, n);
      }
    }
  }

  function AgentAt(rows: seq<Row>, n: nat): Agent
    requires n <= |rows|
  {
    if n == 0 then IDLE else Next(AgentAt(rows, n - 1), rows[n - 1])
  }

  lemma {:induction false} AgentIsAfter(rows: seq<Row>, n: nat)
    requires n <= |rows|
    ensures AgentAt(rows, n) == After(rows[..n])
  {
    if n > 0 {
      AgentIsAfter(rows, n - 1);
      assert rows[..n][..n - 1] == rows[..n - 1];
    }
  }

  lemma {:induction false} AgentTracks(rows: seq<Row>, n: nat)
    requires n <= |rows|
    ensures TracksAll(rows, n, AgentAt(rows, n))
  {
    if n > 0 {
      AgentTracks(rows, n - 1);
      var a := AgentAt(rows, n - 1);
      forall kind ensures Tracks(rows, n, kind, OpenIn(AgentAt(rows, n), kind)) {
        assert Tracks(rows, n - 1, kind, OpenIn(a, kind));
        NextOpen(rows, n - 1, a, kind);
        hide Next, Opens, Ends, Tracks;
        TracksNext(rows, n - 1, kind, OpenIn(a, kind));
      }
      HaltedNext(rows, n - 1);
      hide Tracks, Halted;
    }
  }

  /** The span that row `i` began and row `k` ended. */
  ghost predicate IsSpan(rows: seq<Row>, kind: Kind, i: nat, k: nat, e: Entry)
    requires k < |rows|
  {
    && OpenFrom(rows, k, kind, i) && Ends(rows, k, kind)
    && e == Entry(kind, Span(rows[k].task, rows[0].name, rows[i].at, rows[k].at, if rows[k].what == "done" && kind != Turn then Dropped else Met))
  }

  ghost predicate EndedBy(rows: seq<Row>, n: nat, e: Entry)
    requires n <= |rows|
  {
    exists i: nat, k: nat :: k < n && IsSpan(rows, e.kind, i, k, e)
  }

  lemma {:induction false} OneOpener(rows: seq<Row>, n: nat, kind: Kind, i: nat, j: nat)
    requires n <= |rows| && OpenFrom(rows, n, kind, i) && OpenFrom(rows, n, kind, j)
    ensures i == j
  {
    BeganBefore(rows, n, kind, i, j);
    BeganBefore(rows, n, kind, j, i);
  }

  lemma {:induction false} BeganBefore(rows: seq<Row>, n: nat, kind: Kind, i: nat, j: nat)
    requires n <= |rows| && Began(rows, n, kind, i) && j <= n
    ensures i < j ==> IsOpen(rows, j, kind)
  {
    hide Opens, Ends;
    assert i < j ==> Began(rows, j, kind, i);
  }

  lemma {:induction false} ClosesIff(rows: seq<Row>, k: nat, e: Entry)
    requires k < |rows|
    ensures e in Closes(AgentAt(rows, k), rows[k], rows[0].name) <==> exists i: nat :: IsSpan(rows, e.kind, i, k, e)
  {
    var a := AgentAt(rows, k);
    AgentTracks(rows, k);
    NextOpen(rows, k, a, e.kind);
    var open := OpenIn(a, e.kind);
    assert Tracks(rows, k, e.kind, open);
    ClosesOfKind(a, rows[k], rows[0].name, e);
    hide Next, Closes, Opens, Ends, IsOpen, AgentAt;
    if open.Some? {
      var i: nat :| OpenFrom(rows, k, e.kind, i) && rows[i].at == open.value;
      if j: nat :| IsSpan(rows, e.kind, j, k, e) {
        OneOpener(rows, k, e.kind, i, j);
      }
      assert e in Closes(a, rows[k], rows[0].name) ==> IsSpan(rows, e.kind, i, k, e);
    } else {
      forall j: nat ensures !IsSpan(rows, e.kind, j, k, e) {
        NotOpenNoFrom(rows, k, e.kind, j);
      }
    }
  }

  lemma {:induction false} NotOpenNoFrom(rows: seq<Row>, n: nat, kind: Kind, j: nat)
    requires n <= |rows| && !IsOpen(rows, n, kind)
    ensures !OpenFrom(rows, n, kind, j)
  {
  }

  lemma {:induction false} ClosesOfKind(a: Agent, row: Row, name: string, e: Entry)
    ensures e in Closes(a, row, name) <==>
            && OpenIn(a, e.kind).Some? && OpenIn(Next(a, row), e.kind).None?
            && e.span == Span(row.task, name, OpenIn(a, e.kind).value, row.at, if row.what == "done" && e.kind != Turn then Dropped else Met)
  {
    hide Next;
  }

  lemma {:induction false} ClosedIff(rows: seq<Row>, n: nat, e: Entry)
    requires n <= |rows|
    ensures e in Closed(rows[..n]) <==> EndedBy(rows, n, e)
  {
    if n > 0 {
      var m := n - 1;
      ClosedNext(rows, m);
      EndedNext(rows, m, e);
      ClosesIff(rows, m, e);
      hide *;
      ClosedIff(rows, m, e);
    }
  }

  lemma {:induction false} ClosedNext(rows: seq<Row>, m: nat)
    requires m < |rows|
    ensures Closed(rows[..m + 1]) == Closed(rows[..m]) + Closes(AgentAt(rows, m), rows[m], rows[0].name)
  {
    hide Closes;
    AgentIsAfter(rows, m);
    var more := rows[..m + 1];
    assert more[..m] == rows[..m] && more[0] == rows[0] && more[m] == rows[m];
  }

  lemma {:induction false} EndedNext(rows: seq<Row>, m: nat, e: Entry)
    requires m < |rows|
    ensures EndedBy(rows, m + 1, e) <==> EndedBy(rows, m, e) || exists i: nat :: IsSpan(rows, e.kind, i, m, e)
  {
    hide IsSpan;
    if EndedBy(rows, m + 1, e) {
      var i: nat, k: nat :| k < m + 1 && IsSpan(rows, e.kind, i, k, e);
      assert k < m ==> EndedBy(rows, m, e);
    }
    if EndedBy(rows, m, e) {
      var i: nat, k: nat :| k < m && IsSpan(rows, e.kind, i, k, e);
      assert k < m + 1 && IsSpan(rows, e.kind, i, k, e);
    }
  }

  /** The span that row `i` began and no row has ended. */
  ghost predicate IsOpenSpan(rows: seq<Row>, kind: Kind, i: nat, now: real, e: Entry)
    requires rows != []
  {
    OpenFrom(rows, |rows|, kind, i) && e == Entry(kind, Span(rows[0].task, rows[0].name, rows[i].at, now, Open))
  }

  lemma {:induction false} StillOpenIff(rows: seq<Row>, now: real, e: Entry)
    requires rows != []
    ensures e in StillOpen(rows, now) <==> exists i: nat :: IsOpenSpan(rows, e.kind, i, now, e)
  {
    var n := |rows|;
    AgentIsAfter(rows, n);
    AgentTracks(rows, n);
    assert rows[..n] == rows;
    var open := OpenIn(After(rows), e.kind);
    assert Tracks(rows, n, e.kind, open);
    hide After, AgentAt, Opens, Ends, IsOpen;
    if open.Some? {
      var i: nat :| OpenFrom(rows, n, e.kind, i) && rows[i].at == open.value;
      if j: nat :| IsOpenSpan(rows, e.kind, j, now, e) {
        OneOpener(rows, n, e.kind, i, j);
      }
      assert e in StillOpen(rows, now) ==> IsOpenSpan(rows, e.kind, i, now, e);
    } else {
      forall j: nat ensures !IsOpenSpan(rows, e.kind, j, now, e) {
        NotOpenNoFrom(rows, n, e.kind, j);
      }
    }
  }

  /**
   Whatever the rows, a task's story holds exactly the spans from a row that begins one to the first that
   ends it, and those that none has ended: turns, waits and unread work as the rows' kinds say.
   */
  lemma {:induction false} StoryIsWhatRowsSay(rows: seq<Row>, now: real, e: Entry)
    requires rows != []
    ensures e in Story(rows, now) <==>
            || (exists i: nat, k: nat :: k < |rows| && IsSpan(rows, e.kind, i, k, e))
            || (exists i: nat :: IsOpenSpan(rows, e.kind, i, now, e))
  {
    ClosedIff(rows, |rows|, e);
    assert rows[..|rows|] == rows;
    StillOpenIff(rows, now, e);
    hide IsSpan, IsOpenSpan, Closed, StillOpen;
    assert EndedBy(rows, |rows|, e) <==> exists i: nat, k: nat :: k < |rows| && IsSpan(rows, e.kind, i, k, e);
  }

  // The days

  function Clip(s: Span, from: real, to: real): real {
    Max(Min(s.to, to) - Max(s.from, from), 0.0)
  }

  /** The seconds of `spans` between two times. */
  function Between(spans: seq<Span>, from: real, to: real): real {
    if spans == [] then 0.0 else Between(spans[..|spans| - 1], from, to) + Clip(spans[|spans| - 1], from, to)
  }

  ghost predicate DaysFollow(dayStart: int -> real) {
    forall a, b :: a <= b ==> dayStart(a) <= dayStart(b)
  }

  /** The seconds of each of `count` days, before they are rounded to hundredths of an hour, added up. */
  function DaysSum(spans: seq<Span>, dayStart: int -> real, first: int, count: nat): real {
    if count == 0 then 0.0
    else DaysSum(spans, dayStart, first, count - 1) + Between(spans, dayStart(first + count - 1), dayStart(first + count))
  }

  lemma {:induction false} ClipsAdd(spans: seq<Span>, a: real, b: real, c: real)
    requires a <= b <= c
    ensures Between(spans, a, b) + Between(spans, b, c) == Between(spans, a, c)
  {
    if spans != [] {
      ClipsAdd(spans[..|spans| - 1], a, b, c);
    }
  }

  lemma {:induction false} ClipsOfNoTime(spans: seq<Span>, a: real)
    ensures Between(spans, a, a) == 0.0
  {
    if spans != [] {
      ClipsOfNoTime(spans[..|spans| - 1], a);
    }
  }

  /** The split into days neither loses nor doubles time: it adds up to the spans clipped to the whole period. */
  lemma {:induction false} DaysAddUp(spans: seq<Span>, dayStart: int -> real, first: int, count: nat)
    requires DaysFollow(dayStart)
    ensures DaysSum(spans, dayStart, first, count) == Between(spans, dayStart(first), dayStart(first + count))
  {
    if count == 0 {
      ClipsOfNoTime(spans, dayStart(first));
    } else {
      DaysAddUp(spans, dayStart, first, count - 1);
      assert dayStart(first) <= dayStart(first + count - 1) <= dayStart(first + count);
      ClipsAdd(spans, dayStart(first), dayStart(first + count - 1), dayStart(first + count));
    }
  }

  /** To the nearest whole number, a half away from zero. */
  function Round(x: real): int
    requires x >= 0.0
  {
    (x + 0.5).Floor
  }

  lemma {:induction false} BetweenIsTime(spans: seq<Span>, from: real, to: real)
    ensures Between(spans, from, to) >= 0.0
  {
    if spans != [] {
      BetweenIsTime(spans[..|spans| - 1], from, to);
    }
  }

  /** A day's hours, to the hundredth. */
  function Hours(spans: seq<Span>, from: real, to: real): real {
    BetweenIsTime(spans, from, to);
    Round(Between(spans, from, to) / 36.0) as real / 100.0
  }

  function HoursPerDay(spans: seq<Span>, dayStart: int -> real, first: int, count: nat): seq<real> {
    seq(count, i => Hours(spans, dayStart(first + i), dayStart(first + i + 1)))
  }

  function Added(hours: seq<real>): real {
    if hours == [] then 0.0 else Added(hours[..|hours| - 1]) + hours[|hours| - 1]
  }

  /** The days' hours add up to the time of the spans in the period, but for half a hundredth of an hour a day. */
  lemma {:induction false} HoursAddUp(spans: seq<Span>, dayStart: int -> real, first: int, count: nat)
    requires DaysFollow(dayStart)
    ensures var off := 3600.0 * Added(HoursPerDay(spans, dayStart, first, count)) - Between(spans, dayStart(first), dayStart(first + count));
            -18.0 * count as real <= off <= 18.0 * count as real
  {
    DaysAddUp(spans, dayStart, first, count);
    HoursOff(spans, dayStart, first, count);
  }

  lemma {:induction false} HoursOff(spans: seq<Span>, dayStart: int -> real, first: int, count: nat)
    ensures var off := 3600.0 * Added(HoursPerDay(spans, dayStart, first, count)) - DaysSum(spans, dayStart, first, count);
            -18.0 * count as real <= off <= 18.0 * count as real
  {
    if count > 0 {
      var hours := HoursPerDay(spans, dayStart, first, count);
      assert hours[..count - 1] == HoursPerDay(spans, dayStart, first, count - 1);
      HoursOff(spans, dayStart, first, count - 1);
      OneDayOff(spans, dayStart(first + count - 1), dayStart(first + count));
    }
  }

  lemma {:induction false} OneDayOff(spans: seq<Span>, from: real, to: real)
    ensures -18.0 <= 3600.0 * Hours(spans, from, to) - Between(spans, from, to) <= 18.0
  {
    BetweenIsTime(spans, from, to);
    var x := Between(spans, from, to) / 36.0;
    assert x - 0.5 <= Round(x) as real <= x + 0.5;
  }

  // The loops

  /** Closes what is open, if it is: its span goes into the list, and it is open no more. */
  method Close(open: Option<real>, into: seq<Span>, row: Row, name: string, end: End) returns (left: Option<real>, spans: seq<Span>)
    ensures left == None && spans == into + One(open, row, name, row.at, end)
  {
    left, spans := None, into;
    if open.Some? {
      spans := spans + [Span(row.task, name, open.value, row.at, end)];
    }
  }

  /** Goes by what the row says, closing and opening. */
  method Take(a: Agent, book: Book, row: Row, name: string) returns (b: Agent, more: Book)
    ensures b == Next(a, row) && more == Join(book, BookOf(Closes(a, row, name)))
  {
    ClosesByKind(a, row, name);
    hide Closes, BookOf;
    var working, waiting, stopped, unread := a.working, a.waiting, a.stopped, a.unread;
    var turns, waits, unseen := book.turns, book.waits, book.unread;
    if Status(row, "working") {
      waiting, waits := Close(waiting, waits, row, name, Met);
      unread, unseen := Close(unread, unseen, row, name, Met);
      working := OpenAt(working, row.at);
    } else if Status(row, "needs-you") {
      working, turns := Close(working, turns, row, name, Met);
      unread, unseen := Close(unread, unseen, row, name, Met);
      waiting, stopped := OpenAt(waiting, row.at), false;
    } else if Status(row, "idle") {
      if working.Some? {
        unread := OpenAt(unread, row.at);
      }
      working, turns := Close(working, turns, row, name, Met);
      waiting, waits := Close(waiting, waits, row, name, Met);
    } else if Stops(row) {
      working, turns := Close(working, turns, row, name, Met);
      stopped := true;
    } else if row.what == "started" || row.what == "picked" {
      if stopped {
        waiting, waits := Close(waiting, waits, row, name, Met);
      }
      if row.what == "picked" {
        unread, unseen := Close(unread, unseen, row, name, Met);
      }
    } else if row.what == "looked" || row.what == "activated" {
      unread, unseen := Close(unread, unseen, row, name, Met);
    } else if row.what == "done" {
      working, turns := Close(working, turns, row, name, Met);
      waiting, waits := Close(waiting, waits, row, name, Dropped);
      unread, unseen := Close(unread, unseen, row, name, Dropped);
    }
    b, more := Agent(working, waiting, stopped, unread), Book(turns, waits, unseen);
  }

  /** The spans of one task's rows. */
  method Tell(rows: seq<Row>, now: real) returns (book: Book)
    ensures book == BookOf(Story(rows, now))
  {
    book := Book([], [], []);
    var a := IDLE;
    hide Next, Closes;
    for i := 0 to |rows|
      invariant a == After(rows[..i])
      invariant book == BookOf(Closed(rows[..i]))
    {
      assert rows[..i + 1][..i] == rows[..i];
      BookMore(Closed(rows[..i]), Closes(a, rows[i], rows[0].name));
      a, book := Take(a, book, rows[i], rows[0].name);
    }
    assert rows[..|rows|] == rows;
    BookMore(Closed(rows), StillOpen(rows, now));
    OpenByKind(rows, now);
    if rows == [] {
      return;
    }
    var row := rows[0];
    book := Join(book, Book(One(a.working, row, row.name, now, Open), One(a.waiting, row, row.name, now, Open), One(a.unread, row, row.name, now, Open)));
  }

  function BookOf(story: seq<Entry>): Book {
    Book(Spans(Turn, story), Spans(Wait, story), Spans(Unread, story))
  }

  function Join(a: Book, b: Book): Book {
    Book(a.turns + b.turns, a.waits + b.waits, a.unread + b.unread)
  }

  lemma {:induction false} BookMore(a: seq<Entry>, b: seq<Entry>)
    ensures BookOf(a + b) == Join(BookOf(a), BookOf(b))
  {
    SpansConcat(Turn, a, b);
    SpansConcat(Wait, a, b);
    SpansConcat(Unread, a, b);
  }

  function One(open: Option<real>, row: Row, name: string, to: real, end: End): seq<Span> {
    if open.Some? then [Span(row.task, name, open.value, to, end)] else []
  }

  lemma {:induction false} OfEach(w: seq<Entry>, i: seq<Entry>, u: seq<Entry>)
    requires |w| <= 1 && |i| <= 1 && |u| <= 1
    requires (w == [] || w[0].kind == Turn) && (i == [] || i[0].kind == Wait) && (u == [] || u[0].kind == Unread)
    ensures BookOf(w + i + u) == Book(if w == [] then [] else [w[0].span], if i == [] then [] else [i[0].span], if u == [] then [] else [u[0].span])
  {
    BookMore(w + i, u);
    BookMore(w, i);
    JustOne(w);
    JustOne(i);
    JustOne(u);
    hide Spans;
  }

  lemma {:induction false} JustOne(e: seq<Entry>)
    requires |e| <= 1
    ensures BookOf(e) ==
            if e == [] then Book([], [], [])
            else match e[0].kind
              case Turn => Book([e[0].span], [], [])
              case Wait => Book([], [e[0].span], [])
              case Unread => Book([], [], [e[0].span])
  {
    if e != [] {
      SpansOfOne(Turn, e[0]);
      SpansOfOne(Wait, e[0]);
      SpansOfOne(Unread, e[0]);
      assert e == [e[0]];
    }
  }

  lemma {:induction false} SpansOfOne(kind: Kind, e: Entry)
    ensures Spans(kind, [e]) == if e.kind == kind then [e.span] else []
  {
    assert Spans(kind, [e][..0]) == [];
  }

  lemma {:induction false} ClosesByKind(a: Agent, row: Row, name: string)
    ensures var b := Next(a, row);
            var end := if row.what == "done" then Dropped else Met;
            BookOf(Closes(a, row, name)) ==
            Book(One(if b.working.None? then a.working else None, row, name, row.at, Met),
                 One(if b.waiting.None? then a.waiting else None, row, name, row.at, end),
                 One(if b.unread.None? then a.unread else None, row, name, row.at, end))
  {
    var b := Next(a, row);
    var end := if row.what == "done" then Dropped else Met;
    OfEach(Closing(Turn, if b.working.None? then a.working else None, row, name, row.at, Met),
           Closing(Wait, if b.waiting.None? then a.waiting else None, row, name, row.at, end),
           Closing(Unread, if b.unread.None? then a.unread else None, row, name, row.at, end));
  }

  lemma {:induction false} OpenByKind(rows: seq<Row>, now: real)
    ensures BookOf(StillOpen(rows, now)) ==
            if rows == [] then Book([], [], [])
            else
              var a := After(rows);
              Book(One(a.working, rows[0], rows[0].name, now, Open), One(a.waiting, rows[0], rows[0].name, now, Open), One(a.unread, rows[0], rows[0].name, now, Open))
  {
    if rows != [] {
      var a := After(rows);
      OfEach(Closing(Turn, a.working, rows[0], rows[0].name, now, Open),
             Closing(Wait, a.waiting, rows[0], rows[0].name, now, Open),
             Closing(Unread, a.unread, rows[0], rows[0].name, now, Open));
    }
  }

  function OfTask(task: string): Row -> bool {
    (row: Row) => row.task == task
  }

  function Tasks(rows: seq<Row>): set<string> {
    set row | row in rows :: row.task
  }

  ghost predicate Grouped(rows: seq<Row>, tasks: map<string, seq<Row>>) {
    tasks.Keys == Tasks(rows) && forall task <- tasks :: tasks[task] == Filter(OfTask(task), rows)
  }

  lemma {:induction false} GroupMore(rows: seq<Row>, row: Row, tasks: map<string, seq<Row>>)
    requires Grouped(rows, tasks)
    ensures Grouped(rows + [row], tasks[row.task := (if row.task in tasks then tasks[row.task] else []) + [row]])
  {
    var all := rows + [row];
    assert all[..|rows|] == rows;
    assert forall r :: r in all <==> r in rows || r == row;
    if row.task !in tasks {
      forall r <- rows ensures !OfTask(row.task)(r) {
        assert r.task in Tasks(rows);
      }
      FilterNone(OfTask(row.task), rows);
    }
  }

  /** The rows of each task, in their order. */
  method Group(rows: seq<Row>) returns (tasks: map<string, seq<Row>>)
    ensures Grouped(rows, tasks)
  {
    tasks := map[];
    for i := 0 to |rows|
      invariant Grouped(rows[..i], tasks)
    {
      var row := rows[i];
      assert rows[..i + 1] == rows[..i] + [row];
      GroupMore(rows[..i], row, tasks);
      hide Grouped;
      tasks := tasks[row.task := (if row.task in tasks then tasks[row.task] else []) + [row]];
    }
    assert rows[..|rows|] == rows;
  }

  function Stories(rows: seq<Row>, now: real, names: seq<string>): Book {
    if names == [] then Book([], [], [])
    else
      var task := names[|names| - 1];
      Join(Stories(rows, now, names[..|names| - 1]), BookOf(Story(Filter(OfTask(task), rows), now)))
  }

  /** `names` are the tasks in the order of the sorted map that groups them. */
  method MakeLedger(rows: seq<Row>, now: real, names: seq<string>) returns (book: Book)
    requires forall task :: task in names <==> task in Tasks(rows)
    ensures book == Stories(rows, now, names)
  {
    var tasks := Group(rows);
    book := Book([], [], []);
    for i := 0 to |names|
      invariant book == Stories(rows, now, names[..i])
    {
      assert names[..i + 1][..i] == names[..i];
      assert names[i] in names;
      var one := Tell(tasks[names[i]], now);
      book := Join(book, one);
    }
    assert names[..|names|] == names;
  }

  // The tasks of a ledger

  function AboutTask(task: string): Span -> bool {
    (s: Span) => s.task == task
  }

  predicate AllAbout(task: string, story: seq<Entry>) {
    forall e <- story :: e.span.task == task
  }

  lemma {:induction false} ClosedIsAbout(rows: seq<Row>, task: string)
    requires forall row <- rows :: row.task == task
    ensures AllAbout(task, Closed(rows))
  {
    if rows != [] {
      assert rows[|rows| - 1] in rows;
      ClosedIsAbout(rows[..|rows| - 1], task);
    }
  }

  lemma {:induction false} SpansAreAbout(kind: Kind, story: seq<Entry>, task: string)
    requires AllAbout(task, story)
    ensures forall s <- Spans(kind, story) :: s.task == task
  {
    if story != [] {
      assert story[|story| - 1] in story;
      SpansAreAbout(kind, story[..|story| - 1], task);
    }
  }

  function ListOf(kind: Kind, book: Book): seq<Span> {
    match kind case Turn => book.turns case Wait => book.waits case Unread => book.unread
  }

  /** One task's spans of a kind, from its own rows. */
  function OwnSpans(kind: Kind, rows: seq<Row>, now: real, task: string): seq<Span> {
    Spans(kind, Story(Filter(OfTask(task), rows), now))
  }

  lemma {:induction false} StoryIsAbout(kind: Kind, rows: seq<Row>, now: real, task: string)
    ensures forall s <- OwnSpans(kind, rows, now, task) :: s.task == task
  {
    var own := Filter(OfTask(task), rows);
    FilterOnly(OfTask(task), rows);
    hide Filter, Spans, After, Closed;
    ClosedIsAbout(own, task);
    if own != [] {
      assert own[0] in own;
    }
    SpansAreAbout(kind, Story(own, now), task);
  }

  lemma {:induction false} ListMore(kind: Kind, rows: seq<Row>, now: real, names: seq<string>)
    requires names != []
    ensures ListOf(kind, Stories(rows, now, names))
            == ListOf(kind, Stories(rows, now, names[..|names| - 1])) + OwnSpans(kind, rows, now, names[|names| - 1])
  {
    hide Spans, Story, Filter;
    match kind
    case Turn =>
    case Wait =>
    case Unread =>
  }

  predicate Once(names: seq<string>) {
    forall i, j :: 0 <= i < j < |names| ==> names[i] != names[j]
  }

  lemma {:induction false} LastIsOnce(names: seq<string>, task: string)
    requires Once(names) && names != []
    ensures var most, last := names[..|names| - 1], names[|names| - 1];
            Once(most) && last !in most && (task in names <==> task in most || task == last)
  {
    assert names == names[..|names| - 1] + [names[|names| - 1]];
  }

  lemma {:induction false} NoTasksNoSpans(kind: Kind, rows: seq<Row>, now: real, task: string)
    ensures Filter(AboutTask(task), ListOf(kind, Stories(rows, now, []))) == []
  {
    assert ListOf(kind, Stories(rows, now, [])) == [];
    FilterAll(AboutTask(task), []);
  }

  /** One more task's spans after the others: a task that has some already isn't that one. */
  lemma {:induction false} OneMoreTask(task: string, last: string, before: seq<Span>, own: seq<Span>, among: bool, mine: seq<Span>)
    requires forall s <- own :: s.task == last
    requires Filter(AboutTask(task), before) == if among then mine else []
    requires task == last ==> own == mine && !among
    ensures Filter(AboutTask(task), before + own) == if among || task == last then mine else []
  {
    AboutMore(task, last, before, own);
    assert [] + mine == mine && mine + [] == mine;
    hide Filter, AboutTask;
  }

  /** In the ledger of all tasks, the spans of one are its own story's, each once; no other task has any. */
  lemma {:induction false} LedgerHasEachStory(kind: Kind, rows: seq<Row>, now: real, names: seq<string>, task: string)
    requires Once(names)
    ensures Filter(AboutTask(task), ListOf(kind, Stories(rows, now, names))) == if task in names then OwnSpans(kind, rows, now, task) else []
  {
    hide Stories, ListOf, Once, AboutTask, OwnSpans, Filter;
    if names == [] {
      NoTasksNoSpans(kind, rows, now, task);
    } else {
      var most, last := names[..|names| - 1], names[|names| - 1];
      LastIsOnce(names, task);
      LedgerHasEachStory(kind, rows, now, most, task);
      StoryIsAbout(kind, rows, now, last);
      ListMore(kind, rows, now, names);
      OneMoreTask(task, last, ListOf(kind, Stories(rows, now, most)), OwnSpans(kind, rows, now, last), task in most, OwnSpans(kind, rows, now, task));
    }
  }

  lemma {:induction false} AboutMore(task: string, last: string, before: seq<Span>, own: seq<Span>)
    requires forall s <- own :: s.task == last
    ensures Filter(AboutTask(task), before + own) == Filter(AboutTask(task), before) + if task == last then own else []
  {
    FilterConcat(AboutTask(task), before, own);
    if task == last {
      FilterAll(AboutTask(task), own);
    } else {
      FilterNone(AboutTask(task), own);
    }
  }
}
