/**
 The app link's outbox: many threads push lines, one writer sends them. A typed
 echo may overtake other terminals' output through the urgent lane. Every atomic
 action of the code is a step here, so a run is any interleaving of them.
 */
module Outbox {
  import opened Prelude

  const QUEUE_BEHIND: nat := 0x100_0000

  const QUEUE_CAUGHT_UP: nat := 0x10_0000

  datatype Line = Line(bytes: string, typed: bool, terminal: Option<string>)

  /** What the lock guards: two queues, and how many unwritten lines each terminal has. */
  datatype Lanes = Lanes(urgent: seq<Line>, bulk: seq<Line>, queued: map<string, int>) {

    predicate Alone(terminal: Option<string>) {
      terminal.None? || terminal.value !in queued
    }

    function Queued(terminal: string): int {
      if terminal in queued then queued[terminal] else 0
    }

    function Put(line: Line): Lanes {
      var counted := if line.terminal.Some?
                     then queued[line.terminal.value := Queued(line.terminal.value) + 1]
                     else queued;
      if line.typed && Alone(line.terminal)
      then Lanes(urgent + [line], bulk, counted)
      else Lanes(urgent, bulk + [line], counted)
    }

    predicate Empty() {
      urgent == [] && bulk == []
    }

    function Front(): Line
      requires !Empty()
    {
      if urgent != [] then urgent[0] else bulk[0]
    }

    function Rest(): Lanes
      requires !Empty()
    {
      if urgent != [] then this.(urgent := urgent[1..]) else this.(bulk := bulk[1..])
    }

    function Uncount(line: Line): Lanes {
      if line.terminal.None? || line.terminal.value !in queued then this
      else
        var left := queued[line.terminal.value] - 1;
        if left == 0 then this.(queued := queued - {line.terminal.value})
        else this.(queued := queued[line.terminal.value := left])
    }
  }

  // The threads around it, one atomic action at a time

  /** A pushing thread: its bytes are charged; then its line is enqueued and it looks at the total it was told. */
  datatype Pusher = Charged(line: Line, total: int) | Enqueued(total: int)

  /** Where the writer thread is between two of its atomic actions. */
  datatype Writer =
    | Idle
    | Popped(line: Line)
    | Sent(line: Line)
    | Uncounted(line: Line)
    | Discharged(left: int)
    | Broken(line: Line)

  /** An edge of the behind flag: it was set, or the writer cleared it and told the loop. */
  datatype Mark = FellBehind | CaughtUp

  /** The shared state, the threads, and three histories: lines enqueued, lines written, and edges of the flag. */
  datatype State = State(
    lanes: Lanes,
    bytes: int,
    behind: bool,
    pushers: seq<Pusher>,
    writer: Writer,
    pushed: seq<Line>,
    wire: seq<Line>,
    marks: seq<Mark>)

  const INIT := State(Lanes([], [], map[]), 0, false, [], Idle, [], [], [])

  datatype Step =
    | Charge(line: Line)
    | Enqueue(i: nat)
    | Look(i: nat, heed: bool)
    | Pop
    | Write(whole: bool)
    | Uncount
    | Discharge
    | CatchUp

  predicate Enabled(s: State, step: Step) {
    match step
    case Charge(_) => true
    case Enqueue(i) => i < |s.pushers| && s.pushers[i].Charged?
    case Look(i, _) => i < |s.pushers| && s.pushers[i].Enqueued?
    case Pop => s.writer.Idle? && !s.lanes.Empty()
    case Write(_) => s.writer.Popped?
    case Uncount => s.writer.Sent?
    case Discharge => s.writer.Uncounted?
    case CatchUp => s.writer.Discharged?
  }

  function Do(s: State, step: Step): State
    requires Enabled(s, step)
  {
    match step
    case Charge(line) =>
      var total := s.bytes + |line.bytes|;
      s.(bytes := total, pushers := s.pushers + [Charged(line, total)])
    case Enqueue(i) =>
      var line := s.pushers[i].line;
      s.(lanes := s.lanes.Put(line), pushers := s.pushers[i := Enqueued(s.pushers[i].total)], pushed := s.pushed + [line])
    case Look(i, heed) =>
      var rest := s.(pushers := Without(s.pushers, i));
      if heed && s.pushers[i].total > QUEUE_BEHIND
      then rest.(behind := true, marks := if s.behind then s.marks else s.marks + [FellBehind])
      else rest
    case Pop => s.(writer := Popped(s.lanes.Front()), lanes := s.lanes.Rest())
    case Write(whole) =>
      if whole then s.(writer := Sent(s.writer.line), wire := s.wire + [s.writer.line])
      else s.(writer := Broken(s.writer.line))
    case Uncount => s.(writer := Uncounted(s.writer.line), lanes := s.lanes.Uncount(s.writer.line))
    case Discharge =>
      var left := s.bytes - |s.writer.line.bytes|;
      s.(writer := Discharged(left), bytes := left)
    case CatchUp =>
      if s.writer.left <= QUEUE_CAUGHT_UP && s.behind
      then s.(writer := Idle, behind := false, marks := s.marks + [CaughtUp])
      else s.(writer := Idle)
  }

  /** The state after `steps`, or None when some step isn't enabled where it stands. */
  function Run(steps: seq<Step>): Option<State> {
    if steps == [] then Some(INIT)
    else
      var before := Run(steps[..|steps| - 1]);
      var step := steps[|steps| - 1];
      if before.Some? && Enabled(before.value, step) then Some(Do(before.value, step)) else None
  }

  // The queue as the daemon holds it

  /** `now` is where the run stands that the calls make up, one step for each atomic action. */
  class Queue {
    var urgent: seq<Line>
    var bulk: seq<Line>
    var queued: map<string, int>
    var bytes: int
    var behind: bool
    ghost var now: State

    ghost function Held(): Lanes
      reads this
    {
      Lanes(urgent, bulk, queued)
    }

    ghost predicate Valid()
      reads this
    {
      Held() == now.lanes && bytes == now.bytes && behind == now.behind
    }

    constructor ()
      ensures Valid() && now == INIT
    {
      urgent, bulk, queued, bytes, behind, now := [], [], map[], 0, false, INIT;
    }

    /** The first atomic half of a push: the bytes are charged before the lock is taken. */
    method Charge(line: Line) returns (total: int)
      requires Valid()
      modifies this`bytes, this`now
      ensures Valid() && now == Do(old(now), Step.Charge(line))
      ensures now.pushers == old(now).pushers + [Charged(line, total)]
    {
      bytes := bytes + |line.bytes|;
      total := bytes;
      now := Do(now, Step.Charge(line));
    }

    /** The second half of a push, under the lock, by the pusher at `i`. */
    method Enqueue(line: Line, ghost i: nat)
      requires Valid() && i < |now.pushers| && now.pushers[i].Charged? && now.pushers[i].line == line
      modifies this`urgent, this`bulk, this`queued, this`now
      ensures Valid() && now == Do(old(now), Step.Enqueue(i))
      ensures Held() == old(Held()).Put(line)
    {
      var alone := line.terminal.None? || line.terminal.value !in queued;
      if line.terminal.Some? {
        var t := line.terminal.value;
        queued := queued[t := (if t in queued then queued[t] else 0) + 1];
      }
      if line.typed && alone {
        urgent := urgent + [line];
      } else {
        bulk := bulk + [line];
      }
      now := Do(now, Step.Enqueue(i));
    }

    /** A pusher that saw too large a total sets the flag; the first to do so is told, and an edge is marked. */
    method FellBehind(ghost i: nat) returns (first: bool)
      requires Valid() && Enabled(now, Look(i, true)) && now.pushers[i].total > QUEUE_BEHIND
      modifies this`behind, this`now
      ensures Valid() && now == Do(old(now), Look(i, true))
      ensures now.marks == old(now).marks + if first then [Mark.FellBehind] else []
    {
      first := !behind;
      behind := true;
      now := Do(now, Look(i, true));
    }

    method Next() returns (line: Option<Line>)
      requires Valid() && now.writer.Idle?
      modifies this`urgent, this`bulk, this`now
      ensures line.None? <==> old(Held()).Empty()
      ensures Valid() && now == if line.Some? then Do(old(now), Pop) else old(now)
      ensures line.None? ==> Held() == old(Held())
      ensures line.Some? ==> line.value == old(Held()).Front() && Held() == old(Held()).Rest()
    {
      if urgent != [] {
        line, urgent := Some(urgent[0]), urgent[1..];
        now := Do(now, Pop);
      } else if bulk != [] {
        line, bulk := Some(bulk[0]), bulk[1..];
        now := Do(now, Pop);
      } else {
        line := None;
      }
    }

    /** What the writer's own write did, which the queue takes no part in. */
    ghost method Wrote(whole: bool)
      requires Valid() && now.writer.Popped?
      modifies this`now
      ensures Valid() && now == Do(old(now), Write(whole))
    {
      now := Do(now, Write(whole));
    }

    method Written(line: Line) returns (left: int)
      requires Valid() && now.writer == Sent(line)
      modifies this`queued, this`bytes, this`now
      ensures Valid() && now == Do(Do(old(now), Uncount), Discharge)
      ensures Held() == old(Held()).Uncount(line)
      ensures bytes == old(bytes) - |line.bytes| && left == bytes
    {
      if line.terminal.Some? && line.terminal.value in queued {
        var t := line.terminal.value;
        queued := queued[t := queued[t] - 1];
        if queued[t] == 0 {
          queued := queued - {t};
          assert queued == old(queued) - {t};
        }
      }
      now := Do(now, Uncount);
      bytes := bytes - |line.bytes|;
      left := bytes;
      now := Do(now, Discharge);
    }

    /** The end of the writer's round: `told` is whether the loop is sent a caught-up event. */
    method CaughtUp(left: int) returns (told: bool)
      requires Valid() && now.writer == Discharged(left)
      modifies this`behind, this`now
      ensures Valid() && now == Do(old(now), CatchUp)
      ensures now.marks == old(now).marks + if told then [Mark.CaughtUp] else []
    {
      told := left <= QUEUE_CAUGHT_UP && behind;
      if told {
        behind := false;
      }
      now := Do(now, CatchUp);
    }
  }

  // What is counted

  function Of(terminal: string): Line -> bool {
    (line: Line) => line.terminal == Some(terminal)
  }

  function Untyped(): Line -> bool {
    (line: Line) => !line.typed
  }

  ghost function Bytes(lines: seq<Line>): nat {
    if lines == [] then 0 else Bytes(lines[..|lines| - 1]) + |lines[|lines| - 1].bytes|
  }

  /** The bytes of pushers that have charged but not enqueued. */
  ghost function ChargedBytes(pushers: seq<Pusher>): nat {
    if pushers == [] then 0
    else
      var last := pushers[|pushers| - 1];
      ChargedBytes(pushers[..|pushers| - 1]) + if last.Charged? then |last.line.bytes| else 0
  }

  /** The line the writer took and hasn't put on the wire. */
  ghost function Unsent(w: Writer): seq<Line> {
    if w.Popped? || w.Broken? then [w.line] else []
  }

  /** The line the writer took and hasn't struck off its terminal's count. */
  ghost function Counted(w: Writer): seq<Line> {
    if w.Popped? || w.Sent? || w.Broken? then [w.line] else []
  }

  /** The line the writer took and hasn't discharged. */
  ghost function InFlight(w: Writer): seq<Line> {
    if w.Popped? || w.Sent? || w.Uncounted? || w.Broken? then [w.line] else []
  }

  ghost predicate BytesMatch(s: State) {
    s.bytes == Bytes(s.lanes.urgent) + Bytes(s.lanes.bulk) + Bytes(InFlight(s.writer)) + ChargedBytes(s.pushers)
  }

  /** A terminal's lines in the lanes plus the one the writer still counts. */
  ghost function Outstanding(terminal: string, counted: seq<Line>, lanes: Lanes): nat {
    var of := Of(terminal);
    |Filter(of, counted)| + |Filter(of, lanes.urgent)| + |Filter(of, lanes.bulk)|
  }

  ghost predicate CountMatches(terminal: string, counted: seq<Line>, lanes: Lanes) {
    && lanes.Queued(terminal) == Outstanding(terminal, counted, lanes)
    && (terminal in lanes.queued ==> lanes.queued[terminal] > 0)
  }

  ghost predicate CountsMatch(s: State) {
    forall t :: CountMatches(t, Counted(s.writer), s.lanes)
  }

  /** The kept lines were pushed in the order: those taken off the lanes, those urgent, those in bulk. */
  ghost predicate Ordered(keep: Line -> bool, pushed: seq<Line>, taken: seq<Line>, lanes: Lanes) {
    Filter(keep, pushed) == Filter(keep, taken) + (Filter(keep, lanes.urgent) + Filter(keep, lanes.bulk))
  }

  ghost function Taken(s: State): seq<Line> {
    s.wire + Unsent(s.writer)
  }

  ghost predicate TerminalsInOrder(s: State) {
    forall t :: Ordered(Of(t), s.pushed, Taken(s), s.lanes)
  }

  ghost predicate UntypedInOrder(s: State) {
    && (forall line <- s.lanes.urgent :: line.typed)
    && Ordered(Untyped(), s.pushed, Taken(s), s.lanes)
  }

  ghost function All(taken: seq<Line>, lanes: Lanes): multiset<Line> {
    multiset(taken) + multiset(lanes.urgent) + multiset(lanes.bulk)
  }

  ghost predicate Conserved(s: State) {
    multiset(s.pushed) == All(Taken(s), s.lanes)
  }

  ghost predicate MarksAlternate(s: State) {
    && (forall i :: 0 <= i < |s.marks| ==> s.marks[i] == if i % 2 == 0 then FellBehind else CaughtUp)
    && s.behind == (|s.marks| % 2 == 1)
  }

  ghost predicate Inv(s: State) {
    BytesMatch(s) && CountsMatch(s) && TerminalsInOrder(s) && UntypedInOrder(s) && Conserved(s) && MarksAlternate(s)
  }

  // Each step keeps each part

  lemma {:induction false} BytesFirst(lines: seq<Line>)
    requires lines != []
    ensures Bytes(lines) == |lines[0].bytes| + Bytes(lines[1..])
  {
    if |lines| > 1 {
      BytesFirst(lines[..|lines| - 1]);
      assert lines[..|lines| - 1][1..] == lines[1..][..|lines| - 2];
    }
  }

  lemma {:induction false} ChargedBytesUpdate(pushers: seq<Pusher>, i: nat, total: int)
    requires i < |pushers|
    ensures ChargedBytes(pushers[i := Enqueued(total)])
         == ChargedBytes(pushers) - if pushers[i].Charged? then |pushers[i].line.bytes| else 0
  {
    var changed, n := pushers[i := Enqueued(total)], |pushers| - 1;
    if i == n {
      assert changed[..n] == pushers[..n];
    } else {
      assert changed[..n] == pushers[..n][i := Enqueued(total)];
      ChargedBytesUpdate(pushers[..n], i, total);
    }
  }

  lemma {:induction false} ChargedBytesWithout(pushers: seq<Pusher>, i: nat)
    requires i < |pushers| && pushers[i].Enqueued?
    ensures ChargedBytes(Without(pushers, i)) == ChargedBytes(pushers)
  {
    var n := |pushers| - 1;
    if i == n {
      assert Without(pushers, i) == pushers[..n];
    } else {
      assert Without(pushers, i)[..n - 1] == Without(pushers[..n], i);
      ChargedBytesWithout(pushers[..n], i);
    }
  }

  lemma BytesPut(lanes: Lanes, line: Line)
    ensures Bytes(lanes.Put(line).urgent) + Bytes(lanes.Put(line).bulk) == Bytes(lanes.urgent) + Bytes(lanes.bulk) + |line.bytes|
  {
    assert (lanes.urgent + [line])[..|lanes.urgent|] == lanes.urgent;
    assert (lanes.bulk + [line])[..|lanes.bulk|] == lanes.bulk;
  }

  lemma BytesPop(lanes: Lanes)
    requires !lanes.Empty()
    ensures Bytes(lanes.Rest().urgent) + Bytes(lanes.Rest().bulk) + Bytes([lanes.Front()]) == Bytes(lanes.urgent) + Bytes(lanes.bulk)
  {
    BytesFirst(if lanes.urgent != [] then lanes.urgent else lanes.bulk);
    BytesFirst([lanes.Front()]);
  }

  lemma BytesStep(s: State, step: Step)
    requires BytesMatch(s) && Enabled(s, step)
    ensures BytesMatch(Do(s, step))
  {
    match step
    case Charge(line) => assert Do(s, step).pushers[..|s.pushers|] == s.pushers;
    case Enqueue(i) =>
      ChargedBytesUpdate(s.pushers, i, s.pushers[i].total);
      BytesPut(s.lanes, s.pushers[i].line);
    case Look(i, _) => ChargedBytesWithout(s.pushers, i);
    case Pop => BytesPop(s.lanes);
    case Discharge => BytesFirst([s.writer.line]);
    case _ =>
  }

  lemma FilterSnoc(keep: Line -> bool, lines: seq<Line>, line: Line)
    ensures Filter(keep, lines + [line]) == Filter(keep, lines) + if keep(line) then [line] else []
  {
    assert (lines + [line])[..|lines|] == lines;
  }

  lemma FilterOne(keep: Line -> bool, line: Line)
    ensures Filter(keep, [line]) == if keep(line) then [line] else []
  {
    assert Filter(keep, [line][..0]) == [];
  }

  lemma PutCounts(t: string, counted: seq<Line>, lanes: Lanes, line: Line)
    requires CountMatches(t, counted, lanes)
    ensures CountMatches(t, counted, lanes.Put(line))
  {
    FilterSnoc(Of(t), lanes.urgent, line);
    FilterSnoc(Of(t), lanes.bulk, line);
  }

  lemma PopCounts(t: string, lanes: Lanes)
    requires CountMatches(t, [], lanes) && !lanes.Empty()
    ensures CountMatches(t, [lanes.Front()], lanes.Rest())
  {
    FilterFirst(Of(t), if lanes.urgent != [] then lanes.urgent else lanes.bulk);
    FilterOne(Of(t), lanes.Front());
  }

  lemma UncountCounts(t: string, lanes: Lanes, line: Line)
    requires CountMatches(t, [line], lanes)
    ensures CountMatches(t, [], lanes.Uncount(line))
  {
    FilterOne(Of(t), line);
  }

  lemma CountsStep(s: State, step: Step)
    requires CountsMatch(s) && Enabled(s, step)
    ensures CountsMatch(Do(s, step))
  {
    var s' := Do(s, step);
    forall t
      ensures CountMatches(t, Counted(s'.writer), s'.lanes)
    {
      assert CountMatches(t, Counted(s.writer), s.lanes);
      match step {
        case Enqueue(i) => PutCounts(t, Counted(s.writer), s.lanes, s.pushers[i].line);
        case Pop => PopCounts(t, s.lanes);
        case Uncount => UncountCounts(t, s.lanes, s.writer.line);
        case _ =>
      }
    }
  }

  lemma PutAtTheEnd(a: seq<Line>, u: seq<Line>, b: seq<Line>, x: seq<Line>)
    ensures a + (u + b) + x == a + (u + (b + x))
    ensures b == [] || x == [] ==> a + (u + b) + x == a + ((u + x) + b)
  {
  }

  lemma PutOrdered(keep: Line -> bool, pushed: seq<Line>, taken: seq<Line>, lanes: Lanes, line: Line)
    requires Ordered(keep, pushed, taken, lanes)
    requires keep(line) && line.typed && lanes.Alone(line.terminal) ==> Filter(keep, lanes.bulk) == []
    ensures Ordered(keep, pushed + [line], taken, lanes.Put(line))
  {
    var a, u, b, x := Filter(keep, taken), Filter(keep, lanes.urgent), Filter(keep, lanes.bulk), if keep(line) then [line] else [];
    FilterSnoc(keep, pushed, line);
    if line.typed && lanes.Alone(line.terminal) {
      FilterSnoc(keep, lanes.urgent, line);
    } else {
      FilterSnoc(keep, lanes.bulk, line);
    }
    hide Filter;
    PutAtTheEnd(a, u, b, x);
  }

  lemma PopOrdered(keep: Line -> bool, pushed: seq<Line>, taken: seq<Line>, lanes: Lanes)
    requires Ordered(keep, pushed, taken, lanes) && !lanes.Empty()
    ensures Ordered(keep, pushed, taken + [lanes.Front()], lanes.Rest())
  {
    var a, u, b := Filter(keep, taken), Filter(keep, lanes.urgent), Filter(keep, lanes.bulk);
    var x := if keep(lanes.Front()) then [lanes.Front()] else [];
    var rest := lanes.Rest();
    FilterSnoc(keep, taken, lanes.Front());
    if lanes.urgent != [] {
      FilterFirst(keep, lanes.urgent);
      TakenFromTheFront(a, x, Filter(keep, rest.urgent), b);
    } else {
      FilterFirst(keep, lanes.bulk);
      assert u == [] && Filter(keep, rest.urgent) == [];
      TakenFromTheFront(a, x, Filter(keep, rest.bulk), []);
      NothingBefore(b);
      NothingBefore(Filter(keep, rest.bulk));
    }
    hide Filter;
  }

  lemma TakenFromTheFront(a: seq<Line>, x: seq<Line>, u: seq<Line>, b: seq<Line>)
    ensures a + ((x + u) + b) == (a + x) + (u + b)
    ensures a + (x + u) == (a + x) + u
  {
  }

  lemma NothingBefore(b: seq<Line>)
    ensures [] + b == b
  {
  }

  lemma TakenStep(s: State, step: Step)
    requires Enabled(s, step)
    ensures Taken(Do(s, step)) == if step.Pop? then Taken(s) + [s.lanes.Front()] else Taken(s)
  {
  }

  lemma OrderedStep(keep: Line -> bool, s: State, step: Step)
    requires Enabled(s, step) && Ordered(keep, s.pushed, Taken(s), s.lanes)
    requires step.Enqueue? ==>
               var line := s.pushers[step.i].line;
               keep(line) && line.typed && s.lanes.Alone(line.terminal) ==> Filter(keep, s.lanes.bulk) == []
    ensures var s' := Do(s, step); Ordered(keep, s'.pushed, Taken(s'), s'.lanes)
  {
    TakenStep(s, step);
    match step
    case Enqueue(i) => PutOrdered(keep, s.pushed, Taken(s), s.lanes, s.pushers[i].line);
    case Pop => PopOrdered(keep, s.pushed, Taken(s), s.lanes);
    case _ =>
  }

  /** A line alone for its terminal finds none of that terminal's lines in bulk, so the urgent lane can't reorder them. */
  lemma TerminalOrderStep(t: string, s: State, step: Step)
    requires CountMatches(t, Counted(s.writer), s.lanes) && Enabled(s, step)
    requires Ordered(Of(t), s.pushed, Taken(s), s.lanes)
    ensures var s' := Do(s, step); Ordered(Of(t), s'.pushed, Taken(s'), s'.lanes)
  {
    OrderedStep(Of(t), s, step);
  }

  lemma TerminalsStep(s: State, step: Step)
    requires CountsMatch(s) && TerminalsInOrder(s) && Enabled(s, step)
    ensures TerminalsInOrder(Do(s, step))
  {
    var s' := Do(s, step);
    forall t
      ensures Ordered(Of(t), s'.pushed, Taken(s'), s'.lanes)
    {
      assert CountMatches(t, Counted(s.writer), s.lanes);
      assert Ordered(Of(t), s.pushed, Taken(s), s.lanes);
      TerminalOrderStep(t, s, step);
    }
  }

  lemma UrgentStaysTyped(s: State, step: Step)
    requires Enabled(s, step) && forall line <- s.lanes.urgent :: line.typed
    ensures forall line <- Do(s, step).lanes.urgent :: line.typed
  {
  }

  lemma UntypedStep(s: State, step: Step)
    requires UntypedInOrder(s) && Enabled(s, step)
    ensures UntypedInOrder(Do(s, step))
  {
    OrderedStep(Untyped(), s, step);
    UrgentStaysTyped(s, step);
  }

  lemma PopConserves(taken: seq<Line>, lanes: Lanes)
    requires !lanes.Empty()
    ensures All(taken + [lanes.Front()], lanes.Rest()) == All(taken, lanes)
  {
    var lane := if lanes.urgent != [] then lanes.urgent else lanes.bulk;
    assert lane == [lane[0]] + lane[1..];
  }

  lemma PutConserves(taken: seq<Line>, lanes: Lanes, line: Line)
    ensures All(taken, lanes.Put(line)) == All(taken, lanes) + multiset{line}
  {
  }

  lemma ConservedStep(s: State, step: Step)
    requires Conserved(s) && Enabled(s, step)
    ensures Conserved(Do(s, step))
  {
    TakenStep(s, step);
    match step {
      case Enqueue(i) => PutConserves(Taken(s), s.lanes, s.pushers[i].line);
      case Pop => PopConserves(Taken(s), s.lanes);
      case _ =>
    }
    hide Taken, All;
  }

  lemma MarksStep(s: State, step: Step)
    requires MarksAlternate(s) && Enabled(s, step)
    ensures MarksAlternate(Do(s, step))
  {
  }

  lemma StepKeepsInv(s: State, step: Step)
    requires Inv(s) && Enabled(s, step)
    ensures Inv(Do(s, step))
  {
    BytesStep(s, step);
    CountsStep(s, step);
    TerminalsStep(s, step);
    UntypedStep(s, step);
    ConservedStep(s, step);
    MarksStep(s, step);
  }

  lemma {:induction false} RunKeepsInv(steps: seq<Step>)
    ensures Run(steps).Some? ==> Inv(Run(steps).value)
  {
    if steps != [] {
      RunKeepsInv(steps[..|steps| - 1]);
      var before := Run(steps[..|steps| - 1]);
      if before.Some? && Enabled(before.value, steps[|steps| - 1]) {
        StepKeepsInv(before.value, steps[|steps| - 1]);
      }
    }
  }

  // Main results, over every interleaving

  /** What is on the wire for a terminal is a prefix of what was pushed for it; so are the untyped lines overall. */
  lemma {:induction false} WireFollowsPushOrder(steps: seq<Step>, terminal: string)
    requires Run(steps).Some?
    ensures var s := Run(steps).value;
            && Filter(Of(terminal), s.wire) <= Filter(Of(terminal), s.pushed)
            && Filter(Untyped(), s.wire) <= Filter(Untyped(), s.pushed)
  {
    RunKeepsInv(steps);
    var s := Run(steps).value;
    assert Ordered(Of(terminal), s.pushed, Taken(s), s.lanes);
    FilterConcat(Of(terminal), s.wire, Unsent(s.writer));
    FilterConcat(Untyped(), s.wire, Unsent(s.writer));
  }

  /** The byte counter is what is charged, queued and in flight, and a discharge never takes it below zero. */
  lemma {:induction false} ByteCounterIsExact(steps: seq<Step>)
    requires Run(steps).Some?
    ensures var s := Run(steps).value;
            && s.bytes == Bytes(s.lanes.urgent) + Bytes(s.lanes.bulk) + Bytes(InFlight(s.writer)) + ChargedBytes(s.pushers)
            && (s.writer.Uncounted? ==> s.bytes >= |s.writer.line.bytes|)
  {
    RunKeepsInv(steps);
    var s := Run(steps).value;
    if s.writer.Uncounted? {
      assert Bytes([s.writer.line]) == |s.writer.line.bytes|;
    }
  }

  /** A terminal's count is its lines in the lanes plus the one in flight, and no entry is zero. */
  lemma {:induction false} TerminalCountsAreExact(steps: seq<Step>, terminal: string)
    requires Run(steps).Some?
    ensures var s := Run(steps).value;
            && s.lanes.Queued(terminal) == Outstanding(terminal, Counted(s.writer), s.lanes)
            && (terminal in s.lanes.queued <==> Outstanding(terminal, Counted(s.writer), s.lanes) > 0)
  {
    RunKeepsInv(steps);
    var s := Run(steps).value;
    assert CountMatches(terminal, Counted(s.writer), s.lanes);
  }

  /** Once the pushers are done and the writer has drained the lanes, every line was written once and nothing is left over. */
  lemma {:induction false} DrainedOutboxIsClean(steps: seq<Step>)
    requires Run(steps).Some?
    ensures var s := Run(steps).value;
            s.lanes.Empty() && s.writer.Idle? && s.pushers == [] ==>
              multiset(s.wire) == multiset(s.pushed) && s.bytes == 0 && s.lanes.queued == map[]
  {
    RunKeepsInv(steps);
    var s := Run(steps).value;
    if s.lanes.Empty() && s.writer.Idle? && s.pushers == [] {
      forall t
        ensures t !in s.lanes.queued
      {
        assert CountMatches(t, Counted(s.writer), s.lanes);
      }
    }
  }

  // The behind flag

  predicate Goes(s: State, step: Step, next: State) {
    Enabled(s, step) && next == Do(s, step)
  }

  /** The states a run goes through, before each step and after the last. */
  predicate IsTrace(steps: seq<Step>, states: seq<State>) {
    && |states| == |steps| + 1
    && states[0] == INIT
    && forall n :: 0 <= n < |steps| ==> Goes(states[n], steps[n], states[n + 1])
  }

  lemma {:induction false} TraceOf(steps: seq<Step>) returns (states: seq<State>)
    requires Run(steps).Some?
    ensures IsTrace(steps, states) && states[|steps|] == Run(steps).value
  {
    if steps == [] {
      states := [INIT];
    } else {
      var n := |steps| - 1;
      var before := TraceOf(steps[..n]);
      states := before + [Run(steps).value];
      forall k | 0 <= k < |steps| ensures Goes(states[k], steps[k], states[k + 1]) {
        if k < n {
          assert Goes(before[k], steps[..n][k], before[k + 1]);
        }
      }
    }
  }

  lemma {:induction false} TraceIsRun(steps: seq<Step>, states: seq<State>, n: nat)
    requires IsTrace(steps, states) && n <= |steps|
    ensures Run(steps[..n]) == Some(states[n])
  {
    if n > 0 {
      TraceIsRun(steps, states, n - 1);
      assert steps[..n][..n - 1] == steps[..n - 1];
      assert Goes(states[n - 1], steps[n - 1], states[n]);
      hide Do, Enabled;
    }
  }

  // Which lines overtake

  /** The step pushes a typed line of a terminal with nothing outstanding, or of none. */
  ghost predicate Hurried(s: State, step: Step) {
    && step.Enqueue? && Enabled(s, step)
    && var line := s.pushers[step.i].line;
       line.typed && (line.terminal.None? || Outstanding(line.terminal.value, Counted(s.writer), s.lanes) == 0)
  }

  /** What the writer took between two points of a run. */
  ghost function TakenBetween(states: seq<State>, e: nat, n: nat): seq<Line>
    requires e < |states| && n < |states| && |Taken(states[e])| <= |Taken(states[n])|
  {
    Taken(states[n])[|Taken(states[e])|..]
  }

  /** What it took of that from the bulk lane. */
  ghost function FromBulk(steps: seq<Step>, states: seq<State>, e: nat, n: nat): seq<Line>
    requires e <= n <= |steps| && |states| == |steps| + 1
  {
    if n == e then []
    else FromBulk(steps, states, e, n - 1)
         + if steps[n - 1].Pop? && states[n - 1].lanes.urgent == [] && states[n - 1].lanes.bulk != [] then [states[n - 1].lanes.bulk[0]] else []
  }

  lemma {:induction false} LaneStep(s: State, step: Step, next: State)
    requires Goes(s, step, next) && CountsMatch(s)
    ensures step.Pop? ==> s.lanes.urgent + s.lanes.bulk != [] && Taken(next) == Taken(s) + [if s.lanes.urgent != [] then s.lanes.urgent[0] else s.lanes.bulk[0]]
    ensures step.Pop? ==> if s.lanes.urgent != [] then next.lanes.urgent == s.lanes.urgent[1..] && next.lanes.bulk == s.lanes.bulk
                          else next.lanes.urgent == [] && next.lanes.bulk == s.lanes.bulk[1..]
    ensures !step.Pop? ==> Taken(next) == Taken(s) && s.lanes.urgent <= next.lanes.urgent && s.lanes.bulk <= next.lanes.bulk
    ensures step.Enqueue? ==> var line := s.pushers[step.i].line;
              if Hurried(s, step) then next.lanes.urgent == s.lanes.urgent + [line] else next.lanes.bulk == s.lanes.bulk + [line]
  {
    TakenStep(s, step);
    if step.Enqueue? && s.pushers[step.i].line.terminal.Some? {
      assert CountMatches(s.pushers[step.i].line.terminal.value, Counted(s.writer), s.lanes);
    }
  }

  lemma {:induction false} CountsMatchAt(steps: seq<Step>, states: seq<State>, n: nat)
    requires IsTrace(steps, states) && n <= |steps|
    ensures CountsMatch(states[n])
  {
    TraceIsRun(steps, states, n);
    RunKeepsInv(steps[..n]);
  }

  lemma {:induction false} TakenGrows(steps: seq<Step>, states: seq<State>, e: nat, n: nat)
    requires IsTrace(steps, states) && e <= n <= |steps|
    ensures Taken(states[e]) <= Taken(states[n])
  {
    if e < n {
      TakenGrows(steps, states, e, n - 1);
      assert Goes(states[n - 1], steps[n - 1], states[n]);
      CountsMatchAt(steps, states, n - 1);
      LaneStep(states[n - 1], steps[n - 1], states[n]);
    }
  }

  /** One step further: what was in a lane stays ahead of what comes later. */
  lemma {:induction false} FrontStaysAhead(ahead: seq<Line>, taken: seq<Line>, lane: seq<Line>, front: Line)
    requires ahead <= taken + lane && (lane == [] || lane[0] == front)
    ensures lane == [] ==> ahead <= taken + [front]
    ensures lane != [] ==> ahead <= taken + [front] + lane[1..]
  {
    if lane != [] {
      assert taken + [front] + lane[1..] == taken + lane;
    } else {
      assert taken + lane == taken;
    }
  }

  lemma {:induction false} LongerStaysAhead(ahead: seq<Line>, taken: seq<Line>, lane: seq<Line>, longer: seq<Line>)
    requires ahead <= taken + lane && lane <= longer
    ensures ahead <= taken + longer
  {
    assert longer == lane + longer[|lane|..];
    assert taken + longer == taken + lane + longer[|lane|..];
  }

  lemma {:induction false} UrgentStaysAhead(steps: seq<Step>, states: seq<State>, e: nat, n: nat, ahead: seq<Line>)
    requires IsTrace(steps, states) && e <= n <= |steps| && ahead == states[e].lanes.urgent
    ensures Taken(states[e]) <= Taken(states[n]) && ahead <= TakenBetween(states, e, n) + states[n].lanes.urgent
  {
    TakenGrows(steps, states, e, n);
    if e == n {
      assert TakenBetween(states, e, n) == [];
    } else {
      UrgentStaysAhead(steps, states, e, n - 1, ahead);
      var s, step, next := states[n - 1], steps[n - 1], states[n];
      assert Goes(s, step, next);
      CountsMatchAt(steps, states, n - 1);
      LaneStep(s, step, next);
      hide Goes, Taken, CountsMatch, IsTrace;
      var before := TakenBetween(states, e, n - 1);
      if step.Pop? {
        var front := if s.lanes.urgent != [] then s.lanes.urgent[0] else s.lanes.bulk[0];
        assert TakenBetween(states, e, n) == before + [front];
        FrontStaysAhead(ahead, before, s.lanes.urgent, front);
        assert before + [front] + [] == before + [front];
      } else {
        LongerStaysAhead(ahead, before, s.lanes.urgent, next.lanes.urgent);
      }
    }
  }

  lemma {:induction false} BulkStaysAhead(steps: seq<Step>, states: seq<State>, e: nat, n: nat, ahead: seq<Line>)
    requires IsTrace(steps, states) && e <= n <= |steps| && ahead == states[e].lanes.bulk
    ensures ahead <= FromBulk(steps, states, e, n) + states[n].lanes.bulk
  {
    if e == n {
      assert [] + ahead == ahead;
    } else {
      BulkStaysAhead(steps, states, e, n - 1, ahead);
      var s, step, next := states[n - 1], steps[n - 1], states[n];
      assert Goes(s, step, next);
      CountsMatchAt(steps, states, n - 1);
      LaneStep(s, step, next);
      hide Goes, Taken, CountsMatch, IsTrace;
      var before := FromBulk(steps, states, e, n - 1);
      if step.Pop? && s.lanes.urgent == [] {
        FrontStaysAhead(ahead, before, s.lanes.bulk, s.lanes.bulk[0]);
      } else {
        LongerStaysAhead(ahead, before, s.lanes.bulk, next.lanes.bulk);
        assert before + [] == before;
      }
    }
  }

  /**
   A typed line of a terminal with nothing outstanding, pushed at step `e`, waits only for the
   lines that were urgent then: whatever the writer took by a later point `n` is those lines,
   in their order, and right after them this one. So none that was in bulk goes before it.
   */
  lemma {:induction false} TypedLineOvertakes(steps: seq<Step>, states: seq<State>, e: nat, n: nat)
    requires IsTrace(steps, states) && e < n <= |steps| && Hurried(states[e], steps[e])
    ensures Taken(states[e]) <= Taken(states[n])
    ensures var line, ahead, took := states[e].pushers[steps[e].i].line, states[e].lanes.urgent, TakenBetween(states, e, n);
            if |took| <= |ahead| then took <= ahead && line in states[n].lanes.urgent else ahead + [line] <= took
  {
    var s := states[e];
    var line, ahead := s.pushers[steps[e].i].line, s.lanes.urgent;
    assert Goes(s, steps[e], states[e + 1]);
    CountsMatchAt(steps, states, e);
    LaneStep(s, steps[e], states[e + 1]);
    UrgentStaysAhead(steps, states, e + 1, n, ahead + [line]);
    hide Goes, Taken, CountsMatch, IsTrace, Hurried;
    AheadMeans(ahead, line, TakenBetween(states, e, n), states[n].lanes.urgent);
  }

  lemma {:induction false} AheadMeans(ahead: seq<Line>, line: Line, took: seq<Line>, lane: seq<Line>)
    requires ahead + [line] <= took + lane
    ensures if |took| <= |ahead| then took <= ahead && line in lane else ahead + [line] <= took
  {
    var all := took + lane;
    if |took| <= |ahead| {
      assert took == all[..|took|] == (ahead + [line])[..|took|];
      assert lane[|ahead| - |took|] == all[|ahead|] == line;
    } else {
      assert ahead + [line] == all[..|ahead| + 1] == took[..|ahead| + 1];
    }
  }

  /** Any other line waits for all that was in bulk when it was pushed: of the bulk lane the writer takes those first, in their order, and then this one. */
  lemma {:induction false} OtherLinesWait(steps: seq<Step>, states: seq<State>, e: nat, n: nat)
    requires IsTrace(steps, states) && e < n <= |steps| && steps[e].Enqueue? && !Hurried(states[e], steps[e])
    ensures e < |states| && steps[e].i < |states[e].pushers| && states[e].pushers[steps[e].i].Charged?
    ensures var line, ahead, took := states[e].pushers[steps[e].i].line, states[e].lanes.bulk, FromBulk(steps, states, e, n);
            if |took| <= |ahead| then took <= ahead && line in states[n].lanes.bulk else ahead + [line] <= took
  {
    var s := states[e];
    assert Goes(s, steps[e], states[e + 1]);
    var line, ahead := s.pushers[steps[e].i].line, s.lanes.bulk;
    CountsMatchAt(steps, states, e);
    LaneStep(s, steps[e], states[e + 1]);
    BulkStaysAhead(steps, states, e + 1, n, ahead + [line]);
    FromBulkSkips(steps, states, e, n);
    hide Goes, Taken, CountsMatch, IsTrace, Hurried;
    AheadMeans(ahead, line, FromBulk(steps, states, e, n), states[n].lanes.bulk);
  }

  lemma {:induction false} FromBulkSkips(steps: seq<Step>, states: seq<State>, e: nat, n: nat)
    requires e < n <= |steps| && |states| == |steps| + 1 && !steps[e].Pop?
    ensures FromBulk(steps, states, e, n) == FromBulk(steps, states, e + 1, n)
  {
    if e + 1 < n {
      FromBulkSkips(steps, states, e, n - 1);
    }
  }

  // When the flag is set and cleared

  /** A pusher that saw a total above the limit, and heeds it, sets the flag. */
  predicate Alarms(s: State, step: Step) {
    step.Look? && step.heed && Enabled(s, step) && s.pushers[step.i].total > QUEUE_BEHIND
  }

  /** The writer, left with little enough when it discharged its line, clears the flag. */
  predicate Clears(s: State, step: Step) {
    step.CatchUp? && Enabled(s, step) && s.writer.left <= QUEUE_CAUGHT_UP
  }

  function NewMarks(s: State, step: Step): seq<Mark> {
    if !s.behind && Alarms(s, step) then [FellBehind]
    else if s.behind && Clears(s, step) then [CaughtUp]
    else []
  }

  lemma {:induction false} FlagStep(s: State, step: Step, next: State)
    requires Goes(s, step, next)
    ensures next.behind == if Alarms(s, step) then true else if Clears(s, step) then false else s.behind
    ensures next.marks == s.marks + NewMarks(s, step)
  {
  }

  /** Nothing cleared the flag from step `k` up to step `n`. */
  predicate NotCleared(steps: seq<Step>, states: seq<State>, k: nat, n: nat)
    requires n <= |steps| && n <= |states|
  {
    forall m :: k < m < n ==> !Clears(states[m], steps[m])
  }

  predicate SetBy(steps: seq<Step>, states: seq<State>, k: nat, n: nat)
    requires n <= |steps| && n <= |states|
  {
    k < n && Alarms(states[k], steps[k]) && NotCleared(steps, states, k, n)
  }

  /** At any point the flag is set exactly when an alarm was heeded that no writer has cleared since. */
  lemma {:induction false} BehindIff(steps: seq<Step>, states: seq<State>, n: nat)
    requires IsTrace(steps, states) && n <= |steps|
    ensures states[n].behind <==> exists k: nat :: SetBy(steps, states, k, n)
  {
    if n > 0 {
      var s, step := states[n - 1], steps[n - 1];
      assert Goes(s, step, states[n]);
      FlagStep(s, step, states[n]);
      BehindIff(steps, states, n - 1);
      hide Alarms, Clears, Goes, Do;
      if states[n].behind {
        if Alarms(s, step) {
          assert SetBy(steps, states, n - 1, n);
        } else {
          var k: nat :| SetBy(steps, states, k, n - 1);
          assert SetBy(steps, states, k, n);
        }
      }
      if k: nat :| SetBy(steps, states, k, n) {
        if k < n - 1 {
          assert SetBy(steps, states, k, n - 1);
        }
      }
    }
  }

  /** How a step moves the counter, and where the writer is when it has discharged. */
  lemma {:induction false} CounterStep(s: State, step: Step, next: State)
    requires Goes(s, step, next)
    ensures !step.Discharge? ==> next.bytes >= s.bytes
    ensures step.Discharge? ==> s.writer.Uncounted? && next.bytes == s.bytes - |s.writer.line.bytes| && next.writer == Discharged(next.bytes)
    ensures !step.Discharge? && next.writer.Discharged? ==> next.writer == s.writer
    ensures step.CatchUp? ==> s.writer.Discharged?
    ensures s.writer.Discharged? && !next.writer.Discharged? ==> step.CatchUp?
  {
  }

  /** What the writer's last round left, if it has made one. */
  function LastLeft(steps: seq<Step>, states: seq<State>, n: nat): Option<int>
    requires n <= |steps| && n <= |states|
  {
    if n == 0 then None
    else if steps[n - 1].CatchUp? && states[n - 1].writer.Discharged? then Some(states[n - 1].writer.left)
    else LastLeft(steps, states, n - 1)
  }

  /** Only a discharge lowers the counter, so it is never below what the last round left. */
  lemma {:induction false} LeftIsStillThere(steps: seq<Step>, states: seq<State>, n: nat)
    requires IsTrace(steps, states) && n <= |steps|
    ensures var s, last := states[n], LastLeft(steps, states, n);
            if s.writer.Discharged? then s.writer.left <= s.bytes else last.Some? ==> last.value <= s.bytes
  {
    if n > 0 {
      LeftIsStillThere(steps, states, n - 1);
      assert Goes(states[n - 1], steps[n - 1], states[n]);
      CounterStep(states[n - 1], steps[n - 1], states[n]);
      hide Goes, Do;
    }
  }

  predicate Drained(s: State) {
    s.lanes.Empty() && s.writer.Idle? && s.pushers == []
  }

  lemma {:induction false} LastRound(steps: seq<Step>, states: seq<State>, m: nat, n: nat)
    requires IsTrace(steps, states) && m < n <= |steps| && steps[m].CatchUp?
    requires forall j :: m < j < n ==> !steps[j].CatchUp?
    ensures states[m].writer.Discharged? && LastLeft(steps, states, n) == Some(states[m].writer.left)
  {
    assert Goes(states[m], steps[m], states[m + 1]);
    if m < n - 1 {
      LastRound(steps, states, m, n - 1);
    }
  }

  lemma {:induction false} LastCatchUp(steps: seq<Step>, m: nat) returns (last: nat)
    requires m < |steps| && steps[m].CatchUp?
    ensures m <= last < |steps| && steps[last].CatchUp? && forall j :: last < j < |steps| ==> !steps[j].CatchUp?
    decreases |steps| - m
  {
    if j :| m < j < |steps| && steps[j].CatchUp? {
      last := LastCatchUp(steps, j);
    } else {
      last := m;
    }
  }

  lemma {:induction false} LastRoundClears(steps: seq<Step>, states: seq<State>, m: nat)
    requires IsTrace(steps, states) && Drained(states[|steps|]) && m < |steps| && steps[m].CatchUp?
    requires forall j :: m < j < |steps| ==> !steps[j].CatchUp?
    ensures Clears(states[m], steps[m])
  {
    assert Goes(states[m], steps[m], states[m + 1]);
    LastRound(steps, states, m, |steps|);
    LeftIsStillThere(steps, states, |steps|);
    TraceIsRun(steps, states, |steps|);
    assert steps[..|steps|] == steps;
    DrainedOutboxIsClean(steps);
  }

  /**
   A drained outbox is marked as behind exactly when an alarm was heeded after the writer's
   last round: whatever was heeded before it, that round cleared, since it left nothing.
   */
  lemma {:induction false} DrainedButBehindIff(steps: seq<Step>, states: seq<State>)
    requires IsTrace(steps, states) && Drained(states[|steps|])
    ensures states[|steps|].behind <==>
            exists k :: 0 <= k < |steps| && Alarms(states[k], steps[k]) && forall m :: k < m < |steps| ==> !steps[m].CatchUp?
  {
    BehindIff(steps, states, |steps|);
    if states[|steps|].behind {
      var k: nat :| SetBy(steps, states, k, |steps|);
      if m :| k < m < |steps| && steps[m].CatchUp? {
        var last := LastCatchUp(steps, m);
        LastRoundClears(steps, states, last);
      }
    }
    if k :| 0 <= k < |steps| && Alarms(states[k], steps[k]) && forall m :: k < m < |steps| ==> !steps[m].CatchUp? {
      assert SetBy(steps, states, k, |steps|);
    }
  }

  /**
   The behind flag doesn't mean that bytes are waiting: a pusher that looks at its total
   only after the writer has drained its line sets the flag on an empty outbox, and no
   caught-up event follows until something else is written.
   */
  lemma {:induction false} LateLookLeavesAnEmptyOutboxBehind() returns (steps: seq<Step>)
    ensures Run(steps).Some?
    ensures var s := Run(steps).value;
            s.behind && s.bytes == 0 && s.lanes.Empty() && s.writer.Idle? && s.pushers == []
  {
    var line := Line(seq(QUEUE_BEHIND + 1, _ => 'x'), false, None);
    var s1 := Do(INIT, Charge(line));
    var s2 := Do(s1, Enqueue(0));
    var s3 := Do(s2, Pop);
    var s4 := Do(s3, Write(true));
    var s5 := Do(s4, Uncount);
    var s6 := Do(s5, Discharge);
    var s7 := Do(s6, CatchUp);
    var s8 := Do(s7, Look(0, true));
    steps := [];
    steps := Extend(steps, INIT, Charge(line));
    steps := Extend(steps, s1, Enqueue(0));
    steps := Extend(steps, s2, Pop);
    steps := Extend(steps, s3, Write(true));
    steps := Extend(steps, s4, Uncount);
    steps := Extend(steps, s5, Discharge);
    steps := Extend(steps, s6, CatchUp);
    steps := Extend(steps, s7, Look(0, true));
  }

  // What a caught-up event means

  /** The bytes that the discharges among the steps from `a` to `b` took off the counter. */
  function DischargedIn(steps: seq<Step>, states: seq<State>, a: nat, b: nat): nat
    requires a <= b <= |steps| && b <= |states|
  {
    if a == b then 0
    else
      DischargedIn(steps, states, a, b - 1)
      + if steps[b - 1].Discharge? && states[b - 1].writer.Uncounted? then |states[b - 1].writer.line.bytes| else 0
  }

  lemma {:induction false} CounterFalls(steps: seq<Step>, states: seq<State>, a: nat, b: nat)
    requires IsTrace(steps, states) && a <= b <= |steps|
    ensures states[b].bytes >= states[a].bytes - DischargedIn(steps, states, a, b)
  {
    if a < b {
      CounterFalls(steps, states, a, b - 1);
      assert Goes(states[b - 1], steps[b - 1], states[b]);
      CounterStep(states[b - 1], steps[b - 1], states[b]);
      hide Goes, Do;
    }
  }

  /** Where a pusher was before a step, if it was there. */
  function PusherBefore(step: Step, i: nat): nat {
    if step.Look? && i >= step.i then i + 1 else i
  }

  lemma {:induction false} PusherStep(s: State, step: Step, next: State, i: nat)
    requires Goes(s, step, next) && i < |next.pushers|
    ensures if step.Charge? && i == |s.pushers| then next.pushers[i].total == next.bytes
            else PusherBefore(step, i) < |s.pushers| && s.pushers[PusherBefore(step, i)].total == next.pushers[i].total
  {
  }

  /** Where a pusher's total comes from: its charge brought the counter there. */
  lemma {:induction false} ChargedWhen(steps: seq<Step>, states: seq<State>, n: nat, i: nat) returns (c: nat)
    requires IsTrace(steps, states) && n <= |steps| && i < |states[n].pushers|
    ensures c < n && steps[c].Charge? && states[c + 1].bytes == states[n].pushers[i].total
  {
    assert n > 0;
    var s, step := states[n - 1], steps[n - 1];
    assert Goes(s, step, states[n]);
    PusherStep(s, step, states[n], i);
    hide Goes, Do;
    if step.Charge? && i == |s.pushers| {
      c := n - 1;
    } else {
      c := ChargedWhen(steps, states, n - 1, PusherBefore(step, i));
    }
  }

  /** Where what the writer is left with comes from: its discharge brought the counter there, and it made none since. */
  lemma {:induction false} DischargedWhen(steps: seq<Step>, states: seq<State>, n: nat) returns (d: nat)
    requires IsTrace(steps, states) && n <= |steps| && states[n].writer.Discharged?
    ensures d < n && steps[d].Discharge? && states[d + 1].bytes == states[n].writer.left
    ensures forall j :: d < j < n ==> !steps[j].Discharge?
  {
    assert n > 0;
    assert Goes(states[n - 1], steps[n - 1], states[n]);
    CounterStep(states[n - 1], steps[n - 1], states[n]);
    hide Goes, Do;
    if steps[n - 1].Discharge? {
      d := n - 1;
    } else {
      d := DischargedWhen(steps, states, n - 1);
    }
  }

  /** Why an edge of the flag is where it is. */
  predicate EdgeAt(steps: seq<Step>, states: seq<State>, k: nat, mark: Mark) {
    && k < |steps| && k < |states|
    && match mark
       case FellBehind => !states[k].behind && Alarms(states[k], steps[k])
       case CaughtUp => states[k].behind && Clears(states[k], steps[k])
  }

  /** Where a set flag comes from: an alarm that set it, and it has stayed set since. */
  lemma {:induction false} BehindSince(steps: seq<Step>, states: seq<State>, n: nat) returns (l: nat)
    requires IsTrace(steps, states) && n <= |steps| && states[n].behind
    ensures l < n && EdgeAt(steps, states, l, FellBehind) && forall j :: l < j <= n ==> states[j].behind
  {
    assert n > 0;
    assert Goes(states[n - 1], steps[n - 1], states[n]);
    FlagStep(states[n - 1], steps[n - 1], states[n]);
    hide Goes, Do, Alarms, Clears;
    if !states[n - 1].behind {
      l := n - 1;
    } else {
      l := BehindSince(steps, states, n - 1);
    }
  }

  lemma {:induction false} NoneDischarged(steps: seq<Step>, states: seq<State>, a: nat, b: nat)
    requires a <= b <= |steps| && b <= |states| && forall j :: a <= j < b ==> !steps[j].Discharge?
    ensures DischargedIn(steps, states, a, b) == 0
  {
    if a < b {
      NoneDischarged(steps, states, a, b - 1);
    }
  }

  lemma {:induction false} DischargedAdds(steps: seq<Step>, states: seq<State>, a: nat, b: nat, c: nat)
    requires a <= b <= c <= |steps| && c <= |states|
    ensures DischargedIn(steps, states, a, c) == DischargedIn(steps, states, a, b) + DischargedIn(steps, states, b, c)
  {
    if b < c {
      DischargedAdds(steps, states, a, b, c - 1);
    }
  }

  lemma {:induction false} MarkWhen(steps: seq<Step>, states: seq<State>, n: nat, i: nat) returns (k: nat)
    requires IsTrace(steps, states) && n <= |steps| && i < |states[n].marks|
    ensures k < n && EdgeAt(steps, states, k, states[n].marks[i]) && |states[k].marks| == i
  {
    assert n > 0;
    assert Goes(states[n - 1], steps[n - 1], states[n]);
    FlagStep(states[n - 1], steps[n - 1], states[n]);
    hide Goes, Do, Alarms, Clears;
    if i == |states[n - 1].marks| {
      k := n - 1;
    } else {
      k := MarkWhen(steps, states, n - 1, i);
    }
  }

  lemma {:induction false} AlternateAfter(steps: seq<Step>, states: seq<State>)
    requires IsTrace(steps, states)
    ensures MarksAlternate(states[|steps|])
  {
    TraceIsRun(steps, states, |steps|);
    assert steps[..|steps|] == steps;
    RunKeepsInv(steps);
  }

  /** Some step made the mark at `i`, for the reason there is for one. */
  ghost predicate HasEdge(steps: seq<Step>, states: seq<State>, i: nat, mark: Mark) {
    exists k: nat :: EdgeAt(steps, states, k, mark) && |states[k].marks| == i
  }

  /**
   The flag's edges alternate, starting with a set: one caught-up event for each time the
   app fell behind. Each set is by a heeded total above the upper limit, each caught-up
   event by a writer that was left with no more than the lower one.
   */
  lemma {:induction false} CaughtUpAlternates(steps: seq<Step>, states: seq<State>)
    requires IsTrace(steps, states)
    ensures var s := states[|steps|];
            && (forall i :: 0 <= i < |s.marks| ==> s.marks[i] == if i % 2 == 0 then FellBehind else CaughtUp)
            && s.behind == (|s.marks| % 2 == 1)
            && (forall i :: 0 <= i < |s.marks| ==> HasEdge(steps, states, i, s.marks[i]))
  {
    AlternateAfter(steps, states);
    var s := states[|steps|];
    forall i | 0 <= i < |s.marks| ensures HasEdge(steps, states, i, s.marks[i]) {
      var k := MarkWhen(steps, states, |steps|, i);
    }
  }

  /**
   Behind every caught-up event, sent at step `m`: the alarm at `l` that set the flag, the
   charge at `c` that made its total, and the discharge at `d` that left little enough. The
   writer discharged more than the distance between the two limits since that charge exactly
   when its own discharge came after it; else it discharged nothing since.
   */
  lemma {:induction false} CaughtUpMeans(steps: seq<Step>, states: seq<State>, m: nat) returns (c: nat, l: nat, d: nat)
    requires IsTrace(steps, states) && EdgeAt(steps, states, m, CaughtUp)
    ensures c < l < m && EdgeAt(steps, states, l, FellBehind) && forall j :: l < j <= m ==> states[j].behind
    ensures steps[c].Charge? && states[c + 1].bytes == states[l].pushers[steps[l].i].total > QUEUE_BEHIND
    ensures d < m && steps[d].Discharge? && states[d + 1].bytes == states[m].writer.left <= QUEUE_CAUGHT_UP
    ensures DischargedIn(steps, states, c, m) > QUEUE_BEHIND - QUEUE_CAUGHT_UP <==> c < d
    ensures d < c ==> DischargedIn(steps, states, c, m) == 0
  {
    l := BehindSince(steps, states, m);
    d := DischargedWhen(steps, states, m);
    c := ChargedWhen(steps, states, l, steps[l].i);
    Between(steps, states, c, d, m);
  }

  lemma {:induction false} Between(steps: seq<Step>, states: seq<State>, c: nat, d: nat, m: nat)
    requires IsTrace(steps, states) && c < m <= |steps| && d < m && steps[c].Charge? && steps[d].Discharge?
    requires states[c + 1].bytes > QUEUE_BEHIND && states[d + 1].bytes <= QUEUE_CAUGHT_UP
    requires forall j :: d < j < m ==> !steps[j].Discharge?
    ensures DischargedIn(steps, states, c, m) > QUEUE_BEHIND - QUEUE_CAUGHT_UP <==> c < d
    ensures d < c ==> DischargedIn(steps, states, c, m) == 0
  {
    if c < d {
      CounterFalls(steps, states, c + 1, d + 1);
      DischargedAdds(steps, states, c, c + 1, d + 1);
      DischargedAdds(steps, states, c, d + 1, m);
    } else {
      NoneDischarged(steps, states, c, m);
    }
  }

  /** The bytes that the charges among the steps from `a` to `b` put on the counter. */
  function ChargedIn(steps: seq<Step>, a: nat, b: nat): nat
    requires a <= b <= |steps|
  {
    if a == b then 0
    else ChargedIn(steps, a, b - 1) + if steps[b - 1].Charge? then |steps[b - 1].line.bytes| else 0
  }

  lemma {:induction false} CounterGrows(steps: seq<Step>, states: seq<State>, a: nat, b: nat)
    requires IsTrace(steps, states) && a <= b <= |steps| && forall j :: a <= j < b ==> !steps[j].Discharge?
    ensures states[b].bytes == states[a].bytes + ChargedIn(steps, a, b)
  {
    if a < b {
      CounterGrows(steps, states, a, b - 1);
      assert Goes(states[b - 1], steps[b - 1], states[b]);
    }
  }

  /**
   How much is waiting when a caught-up event is sent: what the writer's discharge, at `d`,
   left, and all that was charged since. So more than the upper limit is exactly when that
   much was charged between the discharge and the event.
   */
  lemma {:induction false} CaughtUpWhileFullIff(steps: seq<Step>, states: seq<State>, m: nat) returns (d: nat)
    requires IsTrace(steps, states) && EdgeAt(steps, states, m, CaughtUp)
    ensures d < m && steps[d].Discharge? && forall j :: d < j < m ==> !steps[j].Discharge?
    ensures states[d + 1].bytes == states[m].writer.left <= QUEUE_CAUGHT_UP
    ensures states[m].bytes == states[m].writer.left + ChargedIn(steps, d + 1, m)
    ensures states[m].bytes > QUEUE_BEHIND <==> ChargedIn(steps, d + 1, m) > QUEUE_BEHIND - states[m].writer.left
  {
    d := DischargedWhen(steps, states, m);
    CounterGrows(steps, states, d + 1, m);
  }

  /** A stale one: the line is charged, queued and heeded between the discharge and the end of the writer's round. */
  lemma {:induction false} StaleCaughtUp() returns (steps: seq<Step>)
    ensures Run(steps).Some?
    ensures var s := Run(steps).value;
            s.marks == [FellBehind, CaughtUp] && !s.behind && s.pushers == [] && s.bytes > QUEUE_BEHIND && s.writer.Idle?
  {
    var small, line := Line("", false, None), Line(seq(QUEUE_BEHIND + 1, _ => 'x'), false, None);
    var s: State;
    steps, s := OneSmallLine(small);
    var s1 := Do(s, Charge(line));
    var s2 := Do(s1, Enqueue(0));
    var s3 := Do(s2, Look(0, true));
    var s4 := Do(s3, CatchUp);
    steps := Extend(steps, s, Charge(line));
    steps := Extend(steps, s1, Enqueue(0));
    steps := Extend(steps, s2, Look(0, true));
    steps := Extend(steps, s3, CatchUp);
  }

  /** Another: the total that set the flag was discharged, and as much was charged before the event was sent. */
  lemma {:induction false} CaughtUpWhileFull() returns (steps: seq<Step>)
    ensures Run(steps).Some?
    ensures var s := Run(steps).value;
            s.marks == [FellBehind, CaughtUp] && !s.behind && s.bytes > QUEUE_BEHIND && s.writer.Idle?
  {
    var line := Line(seq(QUEUE_BEHIND + 1, _ => 'x'), false, None);
    var s: State;
    steps, s := OneLargeLine(line);
    var s1 := Do(s, Charge(line));
    var s2 := Do(s1, Enqueue(0));
    var s3 := Do(s2, CatchUp);
    steps := Extend(steps, s, Charge(line));
    steps := Extend(steps, s1, Enqueue(0));
    steps := Extend(steps, s2, CatchUp);
  }

  lemma {:induction false} OneLargeLine(line: Line) returns (steps: seq<Step>, s: State)
    requires |line.bytes| > QUEUE_BEHIND && line.terminal.None? && !line.typed
    ensures Run(steps) == Some(s)
    ensures s.bytes == 0 && s.behind && s.pushers == [] && s.writer == Discharged(0) && s.marks == [FellBehind]
  {
    var s1 := Do(INIT, Charge(line));
    var s2 := Do(s1, Enqueue(0));
    var s3 := Do(s2, Look(0, true));
    var s4 := Do(s3, Pop);
    var s5 := Do(s4, Write(true));
    var s6 := Do(s5, Uncount);
    s := Do(s6, Discharge);
    steps := [];
    steps := Extend(steps, INIT, Charge(line));
    steps := Extend(steps, s1, Enqueue(0));
    steps := Extend(steps, s2, Look(0, true));
    steps := Extend(steps, s3, Pop);
    steps := Extend(steps, s4, Write(true));
    steps := Extend(steps, s5, Uncount);
    steps := Extend(steps, s6, Discharge);
  }

  lemma {:induction false} OneSmallLine(line: Line) returns (steps: seq<Step>, s: State)
    requires line.bytes == "" && line.terminal.None? && !line.typed
    ensures Run(steps) == Some(s)
    ensures s.bytes == 0 && !s.behind && s.pushers == [] && s.writer == Discharged(0) && s.marks == []
  {
    var s1 := Do(INIT, Charge(line));
    var s2 := Do(s1, Enqueue(0));
    var s3 := Do(s2, Look(0, true));
    var s4 := Do(s3, Pop);
    var s5 := Do(s4, Write(true));
    var s6 := Do(s5, Uncount);
    s := Do(s6, Discharge);
    steps := [];
    steps := Extend(steps, INIT, Charge(line));
    steps := Extend(steps, s1, Enqueue(0));
    steps := Extend(steps, s2, Look(0, true));
    steps := Extend(steps, s3, Pop);
    steps := Extend(steps, s4, Write(true));
    steps := Extend(steps, s5, Uncount);
    steps := Extend(steps, s6, Discharge);
  }

  lemma Extend(steps: seq<Step>, s: State, step: Step) returns (longer: seq<Step>)
    requires Run(steps) == Some(s) && Enabled(s, step)
    ensures longer == steps + [step] && Run(longer) == Some(Do(s, step))
  {
    longer := steps + [step];
    assert longer[..|longer| - 1] == steps;
  }
}
