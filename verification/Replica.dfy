/**
 Task records shared between machines. Every change is an operation stamped by its machine's
 hybrid clock; a machine keeps the latest value of each field, and tells others what it has
 by the last stamp it saw of each. Devices are numbered in the order of their names.
 */
module Replica {
  import opened Prelude

  const MAX_OPS: nat := 2000

  datatype Stamp = Stamp(ms: int, n: int)

  predicate Less(a: Stamp, b: Stamp) {
    a.ms < b.ms || (a.ms == b.ms && a.n < b.n)
  }

  predicate AtMost(a: Stamp, b: Stamp) {
    !Less(b, a)
  }

  datatype Hlc = Hlc(time: Stamp, device: nat)

  predicate Earlier(a: Hlc, b: Hlc) {
    Less(a.time, b.time) || (a.time == b.time && a.device < b.device)
  }

  datatype Key = Key(task: string, birth: string, field: string)

  datatype Op = Op(at: Hlc, key: Key, value: string)

  datatype Entry = Entry(at: Hlc, value: string)

  type Vector = map<nat, Stamp>

  /** What a machine holds in memory: its clock, the last stamp seen of each device, and the fields of all records. */
  datatype Memory = Memory(clock: Stamp, seen: Vector, fields: map<Key, Entry>)

  const EMPTY: Memory := Memory(Stamp(0, 0), map[], map[])

  function Later(a: Stamp, b: Stamp): Stamp {
    if Less(a, b) then b else a
  }

  function See(fields: map<Key, Entry>, op: Op): map<Key, Entry> {
    if op.key in fields && !Earlier(fields[op.key].at, op.at) then fields else fields[op.key := Entry(op.at, op.value)]
  }

  function Note(seen: Vector, op: Op): Vector {
    seen[op.at.device := if op.at.device in seen then Later(seen[op.at.device], op.at.time) else op.at.time]
  }

  function Project(m: Memory, op: Op): Memory {
    Memory(Later(m.clock, op.at.time), Note(m.seen, op), See(m.fields, op))
  }

  function ProjectAll(m: Memory, ops: seq<Op>): Memory {
    if ops == [] then m else Project(ProjectAll(m, ops[..|ops| - 1]), ops[|ops| - 1])
  }

  function Tick(clock: Stamp, wall: int): Stamp {
    var ms := if wall > clock.ms then wall else clock.ms;
    Stamp(ms, if ms == clock.ms then clock.n + 1 else 0)
  }

  lemma {:induction false} TickIsLater(clock: Stamp, wall: int)
    ensures Less(clock, Tick(clock, wall))
  {
  }

  /** The new stamp is the least that is later than the clock and not before the wall clock. */
  lemma {:induction false} TickIsLeast(clock: Stamp, wall: int, t: Stamp)
    requires Less(clock, t) && t.ms >= wall && t.n >= 0
    ensures AtMost(Tick(clock, wall), t) && Tick(clock, wall).ms >= wall && (clock.n >= 0 ==> Tick(clock, wall).n >= 0)
  {
  }

  // What a set of operations comes to

  /** No two operations bear one stamp. */
  ghost predicate Unique(ops: set<Op>) {
    forall a, b :: a in ops && b in ops && a.at == b.at ==> a == b
  }

  ghost predicate IsLatest(ops: set<Op>, key: Key, e: Entry) {
    exists op :: op in ops && op.key == key && e == Entry(op.at, op.value)
  }

  /** Every field holds its latest operation's value. */
  ghost predicate Latest(ops: set<Op>, fields: map<Key, Entry>) {
    && (forall key <- fields :: IsLatest(ops, key, fields[key]))
    && (forall op <- ops :: op.key in fields && !Earlier(fields[op.key].at, op.at))
  }

  ghost predicate HasStamp(ops: set<Op>, device: nat, time: Stamp) {
    exists op :: op in ops && op.at == Hlc(time, device)
  }

  /** The vector names the last stamp of each device. */
  ghost predicate Vectored(ops: set<Op>, seen: Vector) {
    && (forall d <- seen :: HasStamp(ops, d, seen[d]))
    && (forall op <- ops :: op.at.device in seen && AtMost(op.at.time, seen[op.at.device]))
  }

  ghost predicate Clocked(ops: set<Op>, clock: Stamp) {
    forall op <- ops :: AtMost(op.at.time, clock)
  }

  ghost predicate Holds(ops: set<Op>, m: Memory) {
    Latest(ops, m.fields) && Vectored(ops, m.seen) && Clocked(ops, m.clock)
  }

  lemma {:induction false} SeeKeepsLatest(ops: set<Op>, fields: map<Key, Entry>, op: Op)
    requires Latest(ops, fields)
    ensures Latest(ops + {op}, See(fields, op))
  {
    var after := See(fields, op);
    forall key <- after ensures IsLatest(ops + {op}, key, after[key]) {
      if after[key] == Entry(op.at, op.value) && key == op.key {
        assert op in ops + {op};
      } else {
        assert IsLatest(ops, key, fields[key]);
        var o :| o in ops && o.key == key && fields[key] == Entry(o.at, o.value);
        assert o in ops + {op};
      }
    }
  }

  lemma {:induction false} NoteKeepsVectored(ops: set<Op>, seen: Vector, op: Op)
    requires Vectored(ops, seen)
    ensures Vectored(ops + {op}, Note(seen, op))
  {
    var after := Note(seen, op);
    forall d <- after ensures HasStamp(ops + {op}, d, after[d]) {
      if after[d] == op.at.time && d == op.at.device {
        assert op in ops + {op} && op.at == Hlc(after[d], d);
      } else {
        assert HasStamp(ops, d, seen[d]);
        var o :| o in ops && o.at == Hlc(seen[d], d);
        assert o in ops + {op};
      }
    }
  }

  lemma {:induction false} ProjectHolds(ops: set<Op>, m: Memory, op: Op)
    requires Holds(ops, m)
    ensures Holds(ops + {op}, Project(m, op))
  {
    SeeKeepsLatest(ops, m.fields, op);
    NoteKeepsVectored(ops, m.seen, op);
    LaterIsClocked(ops, m.clock, op);
    hide Latest, Vectored, Clocked, See, Note, Later;
  }

  lemma {:induction false} LaterIsClocked(ops: set<Op>, clock: Stamp, op: Op)
    requires Clocked(ops, clock)
    ensures Clocked(ops + {op}, Later(clock, op.at.time))
  {
  }

  function Elements(ops: seq<Op>): set<Op> {
    set op | op in ops
  }

  lemma {:induction false} ElementsMore(ops: seq<Op>, op: Op)
    ensures Elements(ops + [op]) == Elements(ops) + {op}
  {
  }

  lemma {:induction false} ProjectAllHolds(ops: set<Op>, m: Memory, more: seq<Op>)
    requires Holds(ops, m)
    ensures Holds(ops + Elements(more), ProjectAll(m, more))
  {
    hide Holds, Project;
    if more == [] {
      assert ops + Elements(more) == ops;
    } else {
      var most, last := more[..|more| - 1], more[|more| - 1];
      ProjectAllHolds(ops, m, most);
      ProjectHolds(ops + Elements(most), ProjectAll(m, most), last);
      ElementsMore(most, last);
      assert more == most + [last];
      assert ops + Elements(most) + {last} == ops + (Elements(most) + {last});
    }
  }

  lemma {:induction false} LatestAgree(ops: set<Op>, f: map<Key, Entry>, g: map<Key, Entry>, key: Key)
    requires Unique(ops) && Latest(ops, f) && Latest(ops, g) && key in f
    ensures key in g && f[key] == g[key]
  {
    assert IsLatest(ops, key, f[key]);
    var a :| a in ops && a.key == key && f[key] == Entry(a.at, a.value);
    assert IsLatest(ops, key, g[key]);
    var b :| b in ops && b.key == key && g[key] == Entry(b.at, b.value);
    assert a.at == b.at;
  }

  /** One set of operations has one outcome for the records. */
  lemma {:induction false} OneOutcome(ops: set<Op>, f: map<Key, Entry>, g: map<Key, Entry>)
    requires Unique(ops) && Latest(ops, f) && Latest(ops, g)
    ensures f == g
  {
    forall key | key in f || key in g ensures key in f && key in g && f[key] == g[key] {
      if key in f {
        LatestAgree(ops, f, g, key);
      } else {
        LatestAgree(ops, g, f, key);
      }
    }
  }

  lemma {:induction false} EmptyHolds()
    ensures Holds({}, EMPTY)
  {
  }

  /**
   Two machines that applied the same operations hold equal records, in whatever order, in
   whatever batches and however often they applied them.
   */
  lemma {:induction false} ReplicasConverge(a: seq<Op>, b: seq<Op>)
    requires Elements(a) == Elements(b) && Unique(Elements(a))
    ensures ProjectAll(EMPTY, a).fields == ProjectAll(EMPTY, b).fields
  {
    EmptyHolds();
    ProjectAllHolds({}, EMPTY, a);
    ProjectAllHolds({}, EMPTY, b);
    assert {} + Elements(a) == Elements(a);
    OneOutcome(Elements(a), ProjectAll(EMPTY, a).fields, ProjectAll(EMPTY, b).fields);
  }

  /** A field holds the value of the latest operation on it, whoever made that. */
  lemma {:induction false} LaterWriteWins(ops: seq<Op>, op: Op)
    requires op in ops && Unique(Elements(ops)) && forall o <- ops :: o.key == op.key ==> o == op || Earlier(o.at, op.at)
    ensures op.key in ProjectAll(EMPTY, ops).fields && ProjectAll(EMPTY, ops).fields[op.key] == Entry(op.at, op.value)
  {
    EmptyHolds();
    ProjectAllHolds({}, EMPTY, ops);
    assert {} + Elements(ops) == Elements(ops) && op in Elements(ops);
    var fields := ProjectAll(EMPTY, ops).fields;
    assert IsLatest(Elements(ops), op.key, fields[op.key]);
  }

  // What a machine sends

  /** The operation is past what the vector names of its device. */
  predicate Past(vector: Vector, op: Op) {
    op.at.device in vector ==> Less(vector[op.at.device], op.at.time)
  }

  /**
   What may be sent to one with this vector: operations past it, of each device without a
   gap, and all of them unless the limit is reached.
   */
  ghost predicate IsBatch(ops: set<Op>, vector: Vector, batch: seq<Op>) {
    && (forall op <- batch :: op in ops && Past(vector, op))
    && (forall op, o :: op in batch && o in ops && o.at.device == op.at.device && Past(vector, o) && Less(o.at.time, op.at.time) ==> o in batch)
    && |batch| <= MAX_OPS
    && (|batch| < MAX_OPS ==> forall o <- ops :: Past(vector, o) ==> o in batch)
  }

  function ByTime(op: Op, sorted: seq<Op>): seq<Op> {
    if sorted == [] || !Earlier(op.at, sorted[|sorted| - 1].at) then sorted + [op]
    else ByTime(op, sorted[..|sorted| - 1]) + [sorted[|sorted| - 1]]
  }

  function Sorted(ops: seq<Op>): seq<Op> {
    if ops == [] then [] else ByTime(ops[|ops| - 1], Sorted(ops[..|ops| - 1]))
  }

  predicate InOrder(ops: seq<Op>) {
    forall i, j :: 0 <= i < j < |ops| ==> !Earlier(ops[j].at, ops[i].at)
  }

  lemma {:induction false} ByTimeSorts(op: Op, sorted: seq<Op>)
    requires InOrder(sorted)
    ensures InOrder(ByTime(op, sorted)) && |ByTime(op, sorted)| == |sorted| + 1
    ensures forall o :: o in ByTime(op, sorted) <==> o in sorted || o == op
  {
    if sorted != [] && Earlier(op.at, sorted[|sorted| - 1].at) {
      var most, last := sorted[..|sorted| - 1], sorted[|sorted| - 1];
      ByTimeSorts(op, most);
      var inner := ByTime(op, most);
      assert sorted == most + [last];
      forall i | 0 <= i < |inner| ensures !Earlier(last.at, inner[i].at) {
        assert inner[i] in inner;
      }
    } else {
      LastIsLatest(sorted, op);
    }
  }

  lemma {:induction false} LastIsLatest(sorted: seq<Op>, op: Op)
    requires InOrder(sorted) && (sorted == [] || !Earlier(op.at, sorted[|sorted| - 1].at))
    ensures InOrder(sorted + [op])
  {
    forall i | 0 <= i < |sorted| ensures !Earlier(op.at, sorted[i].at) {
      assert i < |sorted| - 1 ==> !Earlier(sorted[|sorted| - 1].at, sorted[i].at);
    }
  }

  lemma {:induction false} SortedSorts(ops: seq<Op>)
    ensures InOrder(Sorted(ops)) && |Sorted(ops)| == |ops| && forall o :: o in Sorted(ops) <==> o in ops
  {
    if ops != [] {
      var most, last := ops[..|ops| - 1], ops[|ops| - 1];
      SortedSorts(most);
      ByTimeSorts(last, Sorted(most));
      assert ops == most + [last];
    }
  }

  function Wanted(vector: Vector, device: nat): Op -> bool {
    (op: Op) => op.at.device == device && Past(vector, op)
  }

  /** The rows of a device past the vector, in the order of their stamps. */
  function Selected(rows: seq<Op>, vector: Vector, device: nat): seq<Op> {
    Sorted(Filter(Wanted(vector, device), rows))
  }

  lemma {:induction false} SelectedAre(rows: seq<Op>, vector: Vector, device: nat)
    ensures InOrder(Selected(rows, vector, device))
    ensures forall o :: o in Selected(rows, vector, device) <==> o in rows && o.at.device == device && Past(vector, o)
  {
    var kept := Filter(Wanted(vector, device), rows);
    SortedSorts(kept);
    FilterOnly(Wanted(vector, device), rows);
    forall o | o in rows && o.at.device == device && Past(vector, o) ensures o in kept {
      FilterKeeps(Wanted(vector, device), rows, o);
    }
  }

  /** Nothing of the batch has an operation of the same device missing before it. */
  ghost predicate NoGap(rows: seq<Op>, vector: Vector, batch: seq<Op>) {
    forall op, o :: op in batch && o in rows && o.at.device == op.at.device && Past(vector, o) && Less(o.at.time, op.at.time) ==> o in batch
  }

  ghost predicate AllOf(rows: seq<Op>, vector: Vector, device: nat, batch: seq<Op>) {
    forall o :: o in rows && o.at.device == device && Past(vector, o) ==> o in batch
  }

  predicate OnlyFrom(rows: seq<Op>, vector: Vector, devices: seq<nat>, batch: seq<Op>) {
    forall op <- batch :: op in rows && Past(vector, op) && op.at.device in devices
  }

  lemma {:induction false} PartIsWithoutGap(rows: seq<Op>, vector: Vector, devices: seq<nat>, batch: seq<Op>, device: nat, n: nat)
    requires n <= |Selected(rows, vector, device)| && device !in devices
    requires OnlyFrom(rows, vector, devices, batch) && NoGap(rows, vector, batch)
    ensures var more := batch + Selected(rows, vector, device)[..n];
            OnlyFrom(rows, vector, devices + [device], more) && NoGap(rows, vector, more)
  {
    var sel := Selected(rows, vector, device);
    var part := sel[..n];
    var more := batch + part;
    SelectedAre(rows, vector, device);
    forall op <- more ensures op in rows && Past(vector, op) && op.at.device in devices + [device] {
      assert op in batch || op in sel;
    }
    forall op, o | op in more && o in rows && o.at.device == op.at.device && Past(vector, o) && Less(o.at.time, op.at.time) ensures o in more {
      if op in batch {
        assert o in batch;
      } else {
        var i :| 0 <= i < n && part[i] == op;
        assert o in sel;
        var j :| 0 <= j < |sel| && sel[j] == o;
        BeforeInOrder(sel, j, i);
        assert part[j] == o;
      }
    }
  }

  lemma {:induction false} BeforeInOrder(sel: seq<Op>, j: nat, i: nat)
    requires InOrder(sel) && i < |sel| && j < |sel| && Less(sel[j].at.time, sel[i].at.time)
    ensures j < i
  {
  }

  /** The devices are those the machine has seen, in any order; the limit holds over all of them together. */
  method OpsAfter(rows: seq<Op>, devices: seq<nat>, vector: Vector) returns (out: seq<Op>)
    requires forall i, j :: 0 <= i < j < |devices| ==> devices[i] != devices[j]
    requires forall op <- rows :: op.at.device in devices
    ensures IsBatch(Elements(rows), vector, out)
  {
    out := [];
    for i := 0 to |devices|
      invariant |out| < MAX_OPS
      invariant OnlyFrom(rows, vector, devices[..i], out) && NoGap(rows, vector, out)
      invariant forall k :: 0 <= k < i ==> AllOf(rows, vector, devices[k], out)
    {
      var device := devices[i];
      var found := Selected(rows, vector, device);
      var n := if |found| <= MAX_OPS - |out| then |found| else MAX_OPS - |out|;
      assert device !in devices[..i];
      PartIsWithoutGap(rows, vector, devices[..i], out, device, n);
      SelectedAre(rows, vector, device);
      assert devices[..i + 1] == devices[..i] + [device];
      ghost var before := out;
      out := out + found[..n];
      if |out| >= MAX_OPS {
        FullBatch(rows, vector, devices[..i + 1], out);
        return;
      }
      assert found[..n] == found;
      forall k | 0 <= k <= i ensures AllOf(rows, vector, devices[k], out) {
        if k < i {
          assert AllOf(rows, vector, devices[k], before);
        }
      }
      hide OnlyFrom, NoGap, Selected;
    }
    assert devices[..|devices|] == devices;
    WholeBatch(rows, vector, devices, out);
  }

  lemma {:induction false} FullBatch(rows: seq<Op>, vector: Vector, devices: seq<nat>, batch: seq<Op>)
    requires |batch| == MAX_OPS && OnlyFrom(rows, vector, devices, batch) && NoGap(rows, vector, batch)
    ensures IsBatch(Elements(rows), vector, batch)
  {
  }

  lemma {:induction false} WholeBatch(rows: seq<Op>, vector: Vector, devices: seq<nat>, batch: seq<Op>)
    requires |batch| < MAX_OPS && OnlyFrom(rows, vector, devices, batch) && NoGap(rows, vector, batch)
    requires forall op <- rows :: op.at.device in devices
    requires forall k :: 0 <= k < |devices| ==> AllOf(rows, vector, devices[k], batch)
    ensures IsBatch(Elements(rows), vector, batch)
  {
    forall o | o in rows && Past(vector, o) ensures o in batch {
      var k :| 0 <= k < |devices| && devices[k] == o.at.device;
      assert AllOf(rows, vector, devices[k], batch);
    }
  }

  // The exchange

  predicate StampIn(ops: set<Op>, at: Hlc) {
    exists o :: o in ops && o.at == at
  }

  /** A row with a stamp the table has is ignored. */
  function Insert(ops: set<Op>, op: Op): set<Op> {
    if StampIn(ops, op.at) then ops else ops + {op}
  }

  function InsertAll(ops: set<Op>, more: seq<Op>): set<Op> {
    if more == [] then ops else Insert(InsertAll(ops, more[..|more| - 1]), more[|more| - 1])
  }

  /** A machine has its memory, and its table of operations. */
  datatype Machine = Machine(mem: Memory, ops: set<Op>)

  function Written(m: Machine, op: Op): Machine {
    Machine(Project(m.mem, op), Insert(m.ops, op))
  }

  function Applied(m: Machine, order: seq<Op>): Machine {
    Machine(ProjectAll(m.mem, order), InsertAll(m.ops, order))
  }

  function Reopened(m: Machine, saved: Stamp, rows: seq<Op>): Machine {
    Machine(ProjectAll(EMPTY.(clock := saved), rows), m.ops)
  }

  datatype Asking = Asking(asker: nat, vector: Vector)

  datatype Batch = Batch(to: nat, ops: seq<Op>)

  /** Machines, with all operations ever made and all messages ever sent; a message may arrive never, late or repeatedly. */
  datatype World = World(machines: seq<Machine>, made: set<Op>, asked: set<Asking>, sent: set<Batch>)

  /**
   Forward is a tick without a write, or a write or a batch that couldn't be saved; Restart
   reads the rows in any order, beside whatever clock was saved.
   */
  datatype Step =
    | Write(m: nat, wall: int, key: Key, value: string)
    | Forward(m: nat, clock: Stamp)
    | Ask(m: nat)
    | Answer(m: nat, asking: Asking, ops: seq<Op>)
    | Deliver(batch: Batch, order: seq<Op>)
    | Restart(m: nat, saved: Stamp, rows: seq<Op>)

  ghost predicate Can(w: World, step: Step) {
    match step
    case Write(m, _, _, _) => m < |w.machines|
    case Forward(m, clock) => m < |w.machines| && AtMost(w.machines[m].mem.clock, clock)
    case Ask(m) => m < |w.machines|
    case Answer(m, asking, ops) => m < |w.machines| && asking in w.asked && IsBatch(w.machines[m].ops, asking.vector, ops)
    case Deliver(batch, order) => batch in w.sent && batch.to < |w.machines| && Elements(order) == Elements(batch.ops)
    case Restart(m, _, rows) => m < |w.machines| && Elements(rows) == w.machines[m].ops
  }

  function NewOp(w: World, m: nat, wall: int, key: Key, value: string): Op
    requires m < |w.machines|
  {
    Op(Hlc(Tick(w.machines[m].mem.clock, wall), m), key, value)
  }

  ghost function Do(w: World, step: Step): World
    requires Can(w, step)
  {
    match step
    case Write(m, wall, key, value) =>
      WithNew(w, m, NewOp(w, m, wall, key, value))
    case Forward(m, clock) =>
      w.(machines := w.machines[m := w.machines[m].(mem := w.machines[m].mem.(clock := clock))])
    case Ask(m) =>
      w.(asked := w.asked + {Asking(m, w.machines[m].mem.seen)})
    case Answer(m, asking, ops) =>
      w.(sent := w.sent + {Batch(asking.asker, ops)})
    case Deliver(batch, order) =>
      w.(machines := w.machines[batch.to := Applied(w.machines[batch.to], order)])
    case Restart(m, saved, rows) =>
      w.(machines := w.machines[m := Reopened(w.machines[m], saved, rows)])
  }

  ghost predicate Goes(w: World, step: Step, after: World) {
    Can(w, step) && after == Do(w, step)
  }

  ghost predicate Starts(w: World) {
    w.made == {} && w.asked == {} && w.sent == {} && forall m <- w.machines :: m == Machine(EMPTY, {})
  }

  ghost predicate IsTrace(steps: seq<Step>, states: seq<World>) {
    && |states| == |steps| + 1 && Starts(states[0])
    && (forall k :: 0 <= k < |steps| ==> Goes(states[k], steps[k], states[k + 1]))
  }

  /** What a device made before an operation held here is held here too. */
  ghost predicate Closed(made: set<Op>, ops: set<Op>) {
    forall op, o :: op in ops && o in made && o.at.device == op.at.device && Less(o.at.time, op.at.time) ==> o in ops
  }

  ghost predicate Sound(made: set<Op>, m: Machine) {
    m.ops <= made && Holds(m.ops, m.mem) && Closed(made, m.ops)
  }

  ghost predicate Owned(w: World) {
    forall o <- w.made :: o.at.device < |w.machines| && o in w.machines[o.at.device].ops
  }

  /** Every entry of the vector is the stamp of an operation. */
  ghost predicate Stamped(ops: set<Op>, vector: Vector) {
    forall d <- vector :: HasStamp(ops, d, vector[d])
  }

  /** With the batch the table still has no gap. */
  ghost predicate ClosedWith(made: set<Op>, batch: seq<Op>, ops: set<Op>) {
    forall op, o :: op in batch && o in made && o.at.device == op.at.device && Less(o.at.time, op.at.time) ==> o in batch || o in ops
  }

  ghost predicate AskFits(machines: seq<Machine>, a: Asking) {
    a.asker < |machines| && Stamped(machines[a.asker].ops, a.vector)
  }

  ghost predicate BatchFits(machines: seq<Machine>, made: set<Op>, b: Batch) {
    b.to < |machines| && Elements(b.ops) <= made && ClosedWith(made, b.ops, machines[b.to].ops)
  }

  ghost predicate AllSound(w: World) {
    forall m :: 0 <= m < |w.machines| ==> Sound(w.made, w.machines[m])
  }

  ghost predicate AsksFit(w: World) {
    forall a <- w.asked :: AskFits(w.machines, a)
  }

  ghost predicate BatchesFit(w: World) {
    forall b <- w.sent :: BatchFits(w.machines, w.made, b)
  }

  ghost predicate Inv(w: World) {
    Unique(w.made) && Owned(w) && AllSound(w) && AsksFit(w) && BatchesFit(w)
  }

  lemma {:induction false} InsertAllAdds(made: set<Op>, ops: set<Op>, more: seq<Op>)
    requires Unique(made) && ops <= made && Elements(more) <= made
    ensures InsertAll(ops, more) == ops + Elements(more)
  {
    if more == [] {
      assert ops + Elements(more) == ops;
    } else {
      var most, last := more[..|more| - 1], more[|more| - 1];
      assert more == most + [last];
      ElementsMore(most, last);
      assert last in Elements(more);
      InsertAllAdds(made, ops, most);
      var before := InsertAll(ops, most);
      if StampIn(before, last.at) {
        var o :| o in before && o.at == last.at;
        assert o == last;
      }
    }
  }

  /** The new operation's stamp is later than all the machine holds. */
  lemma {:induction false} NewOpIsLater(w: World, m: nat, wall: int, key: Key, value: string, o: Op)
    requires m < |w.machines| && Inv(w) && o in w.made
    requires o.at.device == m || o in w.machines[m].ops
    ensures Less(o.at.time, NewOp(w, m, wall, key, value).at.time)
  {
    TickIsLater(w.machines[m].mem.clock, wall);
    assert Sound(w.made, w.machines[m]);
  }

  ghost predicate LastOfDevice(made: set<Op>, op: Op) {
    forall o <- made :: o.at.device == op.at.device ==> Less(o.at.time, op.at.time)
  }

  lemma {:induction false} OthersStaySound(made: set<Op>, m: Machine, op: Op)
    requires Sound(made, m) && LastOfDevice(made, op)
    ensures Sound(made + {op}, m)
  {
    hide Holds;
  }

  lemma {:induction false} WriterStaysSound(made: set<Op>, m: Machine, op: Op)
    requires Sound(made, m) && LastOfDevice(made, op)
    requires forall o <- made :: o.at.device == op.at.device ==> o in m.ops
    ensures Written(m, op).ops == m.ops + {op}
    ensures Sound(made + {op}, Written(m, op))
  {
    ProjectHolds(m.ops, m.mem, op);
    ClosedWithNew(made, m.ops, op);
    hide Holds, Project, Closed;
    assert !StampIn(m.ops, op.at);
  }

  lemma {:induction false} ClosedWithNew(made: set<Op>, ops: set<Op>, op: Op)
    requires Closed(made, ops) && ops <= made && LastOfDevice(made, op)
    requires forall o <- made :: o.at.device == op.at.device ==> o in ops
    ensures Closed(made + {op}, ops + {op})
  {
    forall p, o | p in ops + {op} && o in made + {op} && o.at.device == p.at.device && Less(o.at.time, p.at.time) ensures o in ops + {op} {
      if o != op && p != op {
        assert p in ops && o in made;
      }
    }
  }

  lemma {:induction false} StampedGrows(ops: set<Op>, more: set<Op>, vector: Vector)
    requires Stamped(ops, vector) && ops <= more
    ensures Stamped(more, vector)
  {
    forall d <- vector ensures HasStamp(more, d, vector[d]) {
      assert HasStamp(ops, d, vector[d]);
      var op :| op in ops && op.at == Hlc(vector[d], d);
      assert op in more;
    }
  }

  ghost predicate Grown(before: seq<Machine>, after: seq<Machine>) {
    |before| == |after| && forall i :: 0 <= i < |before| ==> before[i].ops <= after[i].ops
  }

  /** More rows at the machines leave messages fitting. */
  lemma {:induction false} MessagesStayFit(w: World, after: World)
    requires AsksFit(w) && BatchesFit(w) && Owned(w) && Grown(w.machines, after.machines)
    requires after.made == w.made && after.asked == w.asked && after.sent == w.sent
    ensures AsksFit(after) && BatchesFit(after) && Owned(after)
  {
    forall a <- after.asked ensures AskFits(after.machines, a) {
      assert AskFits(w.machines, a);
      StampedGrows(w.machines[a.asker].ops, after.machines[a.asker].ops, a.vector);
    }
    hide Stamped;
    forall b <- after.sent ensures BatchFits(after.machines, after.made, b) {
      assert BatchFits(w.machines, w.made, b);
    }
  }

  lemma {:induction false} WriteKeepsInv(w: World, m: nat, wall: int, key: Key, value: string)
    requires m < |w.machines| && Inv(w)
    ensures Inv(Do(w, Write(m, wall, key, value)))
  {
    var op := NewOp(w, m, wall, key, value);
    forall o | o in w.made && o.at.device == m ensures Less(o.at.time, op.at.time) {
      NewOpIsLater(w, m, wall, key, value, o);
    }
    assert LastOfDevice(w.made, op) && op.at.device == m;
    hide NewOp, Inv, Written, LastOfDevice;
    NewOpKeepsInv(w, m, op);
  }

  function WithNew(w: World, m: nat, op: Op): World
    requires m < |w.machines|
  {
    w.(machines := w.machines[m := Written(w.machines[m], op)], made := w.made + {op})
  }

  lemma {:induction false} NewOpGrows(w: World, m: nat, op: Op)
    requires m < |w.machines| && Written(w.machines[m], op).ops == w.machines[m].ops + {op}
    ensures WithNew(w, m, op).machines[m].ops == w.machines[m].ops + {op} && Grown(w.machines, WithNew(w, m, op).machines)
  {
    hide Written;
  }

  lemma {:induction false} NewOpIsSound(w: World, m: nat, op: Op)
    requires m < |w.machines| && AllSound(w) && Owned(w) && op.at.device == m && LastOfDevice(w.made, op)
    ensures Written(w.machines[m], op).ops == w.machines[m].ops + {op} && Sound(w.made + {op}, Written(w.machines[m], op))
  {
    hide Written, Sound, LastOfDevice;
    WriterStaysSound(w.made, w.machines[m], op);
  }

  lemma {:induction false} NewOpKeepsSound(w: World, m: nat, op: Op)
    requires m < |w.machines| && AllSound(w) && LastOfDevice(w.made, op) && Sound(w.made + {op}, Written(w.machines[m], op))
    ensures AllSound(WithNew(w, m, op))
  {
    hide Written, Sound, LastOfDevice;
    var after := WithNew(w, m, op);
    forall i | 0 <= i < |after.machines| ensures Sound(after.made, after.machines[i]) {
      if i != m {
        assert Sound(w.made, w.machines[i]);
        OthersStaySound(w.made, w.machines[i], op);
      }
    }
  }

  lemma {:induction false} NewOpIsOwned(w: World, m: nat, op: Op)
    requires m < |w.machines| && op.at.device == m && Owned(w.(machines := WithNew(w, m, op).machines))
    requires WithNew(w, m, op).machines[m].ops == w.machines[m].ops + {op}
    ensures Owned(WithNew(w, m, op))
  {
    hide Written;
  }

  lemma {:induction false} NewOpKeepsInv(w: World, m: nat, op: Op)
    requires m < |w.machines| && Inv(w) && op.at.device == m && LastOfDevice(w.made, op)
    ensures Inv(WithNew(w, m, op))
  {
    var after := WithNew(w, m, op);
    NewOpIsSound(w, m, op);
    NewOpGrows(w, m, op);
    NewOpKeepsSound(w, m, op);
    hide Written, Grown, AllSound, Owned, AsksFit, BatchesFit, LastOfDevice, Unique;
    MessagesStayFit(w, w.(machines := after.machines));
    NewOpIsOwned(w, m, op);
    NewOpFitsBatches(w.made, op, after);
    NewOpIsNew(w.made, op);
    AsksIgnoreMade(after, w.made);
  }

  lemma {:induction false} AsksIgnoreMade(w: World, made: set<Op>)
    requires AsksFit(w.(made := made))
    ensures AsksFit(w)
  {
  }

  lemma {:induction false} NewOpIsNew(made: set<Op>, op: Op)
    requires Unique(made) && LastOfDevice(made, op)
    ensures Unique(made + {op})
  {
  }

  lemma {:induction false} NewOpFitsBatches(made: set<Op>, op: Op, after: World)
    requires after.made == made + {op} && BatchesFit(after.(made := made))
    requires LastOfDevice(made, op)
    ensures BatchesFit(after)
  {
    forall b <- after.sent ensures BatchFits(after.machines, after.made, b) {
      assert BatchFits(after.machines, made, b);
      forall p, o | p in b.ops && o in after.made && o.at.device == p.at.device && Less(o.at.time, p.at.time)
        ensures o in b.ops || o in after.machines[b.to].ops
      {
        assert p in Elements(b.ops);
      }
    }
  }

  /** A machine's replacement that holds at least the same rows soundly keeps the rest. */
  lemma {:induction false} ReplacedKeepsInv(w: World, m: nat, mach: Machine)
    requires m < |w.machines| && Inv(w) && Sound(w.made, mach) && w.machines[m].ops <= mach.ops
    ensures Inv(w.(machines := w.machines[m := mach]))
  {
    var after := w.(machines := w.machines[m := mach]);
    assert AllSound(after) by {
      hide Sound, Owned, AsksFit, BatchesFit, Unique;
    }
    assert Grown(w.machines, after.machines) by {
      hide Sound, AllSound, Owned, AsksFit, BatchesFit, Unique;
    }
    hide Sound, AllSound, Grown, Owned, AsksFit, BatchesFit, Unique;
    MessagesStayFit(w, after);
  }

  lemma {:induction false} ForwardKeepsInv(w: World, m: nat, clock: Stamp)
    requires Can(w, Forward(m, clock)) && Inv(w)
    ensures Inv(Do(w, Forward(m, clock)))
  {
    var mach := w.machines[m].(mem := w.machines[m].mem.(clock := clock));
    assert Sound(w.made, w.machines[m]);
    assert Clocked(mach.ops, clock);
    hide Inv, Closed, Latest, Vectored;
    ReplacedKeepsInv(w, m, mach);
  }

  lemma {:induction false} ReopenedIsSound(made: set<Op>, m: Machine, saved: Stamp, rows: seq<Op>)
    requires Sound(made, m) && Elements(rows) == m.ops
    ensures Sound(made, Reopened(m, saved, rows))
  {
    var blank := EMPTY.(clock := saved);
    assert Holds({}, blank);
    ProjectAllHolds({}, blank, rows);
    assert {} + Elements(rows) == m.ops;
    hide Holds, ProjectAll, Closed, Elements;
  }

  lemma {:induction false} RestartKeepsInv(w: World, m: nat, saved: Stamp, rows: seq<Op>)
    requires Can(w, Restart(m, saved, rows)) && Inv(w)
    ensures Inv(Do(w, Restart(m, saved, rows)))
  {
    assert Sound(w.made, w.machines[m]);
    hide Inv, Sound, Elements;
    ReopenedIsSound(w.made, w.machines[m], saved, rows);
    ReplacedKeepsInv(w, m, Reopened(w.machines[m], saved, rows));
  }

  lemma {:induction false} AskKeepsInv(w: World, m: nat)
    requires Can(w, Ask(m)) && Inv(w)
    ensures Inv(Do(w, Ask(m)))
  {
    assert Sound(w.made, w.machines[m]);
    assert Stamped(w.machines[m].ops, w.machines[m].mem.seen);
    hide Sound, Stamped, ClosedWith, Elements, Unique;
  }

  lemma {:induction false} BatchIsClosed(made: set<Op>, from: set<Op>, to: set<Op>, vector: Vector, batch: seq<Op>)
    requires Unique(made) && Closed(made, from) && Closed(made, to) && to <= made && Stamped(to, vector) && IsBatch(from, vector, batch)
    ensures ClosedWith(made, batch, to)
  {
    forall op, o | op in batch && o in made && o.at.device == op.at.device && Less(o.at.time, op.at.time) ensures o in batch || o in to {
      assert op in from && o in from;
      if !Past(vector, o) {
        NotPastIsHeld(made, to, vector, o);
      }
    }
  }

  lemma {:induction false} NotPastIsHeld(made: set<Op>, ops: set<Op>, vector: Vector, o: Op)
    requires Unique(made) && Closed(made, ops) && ops <= made && Stamped(ops, vector) && o in made && !Past(vector, o)
    ensures o in ops
  {
    var d := o.at.device;
    assert HasStamp(ops, d, vector[d]);
    var p :| p in ops && p.at == Hlc(vector[d], d);
    if o.at != p.at {
      assert Less(o.at.time, p.at.time);
    }
  }

  lemma {:induction false} AnswerKeepsInv(w: World, m: nat, asking: Asking, ops: seq<Op>)
    requires Can(w, Answer(m, asking, ops)) && Inv(w)
    ensures Inv(Do(w, Answer(m, asking, ops)))
  {
    assert Sound(w.made, w.machines[m]) && AskFits(w.machines, asking) && Sound(w.made, w.machines[asking.asker]);
    hide Holds, Stamped, Closed, ClosedWith, Unique;
    assert Elements(ops) <= w.made;
    hide Elements;
    BatchIsClosed(w.made, w.machines[m].ops, w.machines[asking.asker].ops, asking.vector, ops);
    hide IsBatch, Sound;
  }

  lemma {:induction false} ClosedWithBatch(made: set<Op>, ops: set<Op>, batch: seq<Op>)
    requires Closed(made, ops) && ClosedWith(made, batch, ops)
    ensures Closed(made, ops + Elements(batch))
  {
  }

  lemma {:induction false} AppliedIsSound(made: set<Op>, m: Machine, batch: seq<Op>, order: seq<Op>)
    requires Unique(made) && Sound(made, m) && Elements(batch) <= made && ClosedWith(made, batch, m.ops) && Elements(order) == Elements(batch)
    ensures Sound(made, Applied(m, order)) && Applied(m, order).ops == m.ops + Elements(batch)
  {
    hide Holds, ProjectAll, InsertAll, Closed, ClosedWith, Unique, Elements;
    ProjectAllHolds(m.ops, m.mem, order);
    InsertAllAdds(made, m.ops, order);
    ClosedWithBatch(made, m.ops, batch);
  }

  lemma {:induction false} DeliverKeepsInv(w: World, batch: Batch, order: seq<Op>)
    requires Can(w, Deliver(batch, order)) && Inv(w)
    ensures Inv(Do(w, Deliver(batch, order)))
  {
    assert BatchFits(w.machines, w.made, batch) && Sound(w.made, w.machines[batch.to]);
    AppliedIsSound(w.made, w.machines[batch.to], batch.ops, order);
    hide Inv, Sound, Applied;
    ReplacedKeepsInv(w, batch.to, Applied(w.machines[batch.to], order));
  }

  lemma {:induction false} StepKeepsInv(w: World, step: Step)
    requires Can(w, step) && Inv(w)
    ensures Inv(Do(w, step))
  {
    hide Inv;
    match step
    case Write(m, wall, key, value) => WriteKeepsInv(w, m, wall, key, value);
    case Forward(m, clock) => ForwardKeepsInv(w, m, clock);
    case Ask(m) => AskKeepsInv(w, m);
    case Answer(m, asking, ops) => AnswerKeepsInv(w, m, asking, ops);
    case Deliver(batch, order) => DeliverKeepsInv(w, batch, order);
    case Restart(m, saved, rows) => RestartKeepsInv(w, m, saved, rows);
  }

  lemma {:induction false} TraceKeepsInv(steps: seq<Step>, states: seq<World>, n: nat)
    requires IsTrace(steps, states) && n <= |steps|
    ensures Inv(states[n])
  {
    if n == 0 {
      EmptyHolds();
      hide Holds;
      assert forall m <- states[0].machines :: Sound({}, m);
    } else {
      TraceKeepsInv(steps, states, n - 1);
      assert Goes(states[n - 1], steps[n - 1], states[n]);
      hide Inv, Can, Do;
      StepKeepsInv(states[n - 1], steps[n - 1]);
    }
  }

  // What the exchange comes to

  lemma {:induction false} SoundVector(made: set<Op>, m: Machine, o: Op)
    requires Unique(made) && Sound(made, m) && o in made
    ensures o in m.ops <==> !Past(m.mem.seen, o)
  {
    if !Past(m.mem.seen, o) {
      assert Stamped(m.ops, m.mem.seen);
      hide Vectored, Closed, Stamped, Unique;
      NotPastIsHeld(made, m.ops, m.mem.seen, o);
    }
  }

  /**
   In every run, whatever messages were lost, repeated or overtaken and wherever batches were
   cut, a machine holds exactly the operations its vector covers: nothing is ever skipped.
   */
  lemma {:induction false} VectorIsExact(steps: seq<Step>, states: seq<World>, n: nat, m: nat, o: Op)
    requires IsTrace(steps, states) && n <= |steps| && m < |states[n].machines| && o in states[n].made
    ensures o in states[n].machines[m].ops <==> !Past(states[n].machines[m].mem.seen, o)
  {
    TraceKeepsInv(steps, states, n);
    assert Sound(states[n].made, states[n].machines[m]);
    hide Sound, Past, Unique;
    SoundVector(states[n].made, states[n].machines[m], o);
  }

  lemma {:induction false} SameOps(made: set<Op>, a: Machine, b: Machine)
    requires Unique(made) && Sound(made, a) && Sound(made, b) && a.ops == b.ops
    ensures a.mem.fields == b.mem.fields
  {
    assert Unique(a.ops);
    hide Latest, Vectored, Unique, Closed;
    OneOutcome(a.ops, a.mem.fields, b.mem.fields);
  }

  /** Two machines with equal vectors hold the same operations and equal records. */
  lemma {:induction false} EqualVectorsEqualRecords(steps: seq<Step>, states: seq<World>, n: nat, a: nat, b: nat)
    requires IsTrace(steps, states) && n <= |steps| && a < |states[n].machines| && b < |states[n].machines|
    requires states[n].machines[a].mem.seen == states[n].machines[b].mem.seen
    ensures states[n].machines[a].ops == states[n].machines[b].ops
    ensures states[n].machines[a].mem.fields == states[n].machines[b].mem.fields
  {
    TraceKeepsInv(steps, states, n);
    var made, x, y := states[n].made, states[n].machines[a], states[n].machines[b];
    assert Sound(made, x) && Sound(made, y);
    hide Unique, Holds, Closed, Past, IsTrace;
    forall o | o in made ensures o in x.ops <==> o in y.ops {
      SoundVector(made, x, o);
      SoundVector(made, y, o);
    }
    assert x.ops == y.ops;
    hide Sound;
    SameOps(made, x, y);
  }

  /** An empty answer says that the asker has all the other holds. */
  lemma {:induction false} NothingToSend(made: set<Op>, a: Machine, b: Machine)
    requires Unique(made) && Sound(made, a) && Sound(made, b) && IsBatch(a.ops, b.mem.seen, [])
    ensures a.ops <= b.ops
  {
    hide Unique, Holds, Closed, Past;
    forall o | o in a.ops ensures o in b.ops {
      assert o in made;
      SoundVector(made, b, o);
    }
  }

  /** Once neither has anything for the other, both hold the same operations and equal records. */
  lemma {:induction false} SettledAgree(steps: seq<Step>, states: seq<World>, n: nat, a: nat, b: nat)
    requires IsTrace(steps, states) && n <= |steps| && a < |states[n].machines| && b < |states[n].machines|
    requires IsBatch(states[n].machines[a].ops, states[n].machines[b].mem.seen, [])
    requires IsBatch(states[n].machines[b].ops, states[n].machines[a].mem.seen, [])
    ensures states[n].machines[a].ops == states[n].machines[b].ops
    ensures states[n].machines[a].mem.fields == states[n].machines[b].mem.fields
  {
    TraceKeepsInv(steps, states, n);
    var made, x, y := states[n].made, states[n].machines[a], states[n].machines[b];
    assert Sound(made, x) && Sound(made, y);
    hide Unique, Sound, IsTrace, IsBatch;
    NothingToSend(made, x, y);
    NothingToSend(made, y, x);
    SameOps(made, x, y);
  }

  /** One machine pulls from another again and again: it asks with its vector and applies the answer. */
  ghost predicate Pulls(from: Machine, m: Machine, batch: seq<Op>, after: Machine) {
    IsBatch(from.ops, m.mem.seen, batch) && exists order :: Elements(order) == Elements(batch) && after == Applied(m, order)
  }

  ghost predicate IsPulling(from: Machine, ms: seq<Machine>, batches: seq<seq<Op>>) {
    |ms| == |batches| + 1 && forall k :: 0 <= k < |batches| ==> Pulls(from, ms[k], batches[k], ms[k + 1])
  }

  /** A pull keeps what was there, and brings something new exactly when something is missing; a batch below the limit brings all. */
  lemma {:induction false} PullBrings(made: set<Op>, from: Machine, m: Machine, batch: seq<Op>, after: Machine)
    requires Unique(made) && Sound(made, from) && Sound(made, m) && Pulls(from, m, batch, after)
    ensures Sound(made, after) && after.ops == m.ops + Elements(batch)
    ensures batch == [] <==> from.ops <= m.ops
    ensures forall op <- batch :: op in from.ops && op !in m.ops
    ensures |batch| < MAX_OPS ==> from.ops <= after.ops
  {
    var order :| Elements(order) == Elements(batch) && after == Applied(m, order);
    assert Stamped(m.ops, m.mem.seen);
    BatchIsClosed(made, from.ops, m.ops, m.mem.seen, batch);
    assert Elements(batch) <= made;
    AppliedIsSound(made, m, batch, order);
    hide Unique, Holds, Closed, ClosedWith, Stamped, Applied, Past;
    forall o | o in from.ops ensures o in m.ops <==> !Past(m.mem.seen, o) {
      assert o in made;
      SoundVector(made, m, o);
    }
    if batch == [] {
      NothingToSend(made, from, m);
    }
  }

  function Lacking(from: Machine, m: Machine): nat {
    |from.ops - m.ops|
  }

  lemma {:induction false} PullShrinks(made: set<Op>, from: Machine, m: Machine, batch: seq<Op>, after: Machine)
    requires Unique(made) && Sound(made, from) && Sound(made, m) && Pulls(from, m, batch, after)
    ensures Sound(made, after) && m.ops <= after.ops
    ensures Lacking(from, m) > 0 ==> Lacking(from, after) < Lacking(from, m)
    ensures Lacking(from, m) == 0 ==> Lacking(from, after) == 0
  {
    hide Unique, Sound, Pulls;
    PullBrings(made, from, m, batch, after);
    var before, now := from.ops - m.ops, from.ops - after.ops;
    assert now <= before;
    Fits(now, before);
    if before != {} {
      var op := batch[0];
      assert op in batch && op in Elements(batch);
      Fewer(now, before, op);
    }
  }

  lemma {:induction false} Fewer(a: set<Op>, b: set<Op>, op: Op)
    requires a <= b && op in b && op !in a
    ensures |a| < |b|
  {
    Fits(a, b - {op});
  }

  lemma {:induction false} Fits(a: set<Op>, b: set<Op>)
    requires a <= b
    ensures |a| <= |b|
  {
    assert b == a + (b - a);
  }

  lemma {:induction false} PullsShrink(made: set<Op>, from: Machine, ms: seq<Machine>, batches: seq<seq<Op>>, n: nat)
    requires Unique(made) && Sound(made, from) && IsPulling(from, ms, batches) && Sound(made, ms[0]) && n <= |batches|
    ensures Sound(made, ms[n]) && ms[0].ops <= ms[n].ops
    ensures Lacking(from, ms[n]) == 0 || Lacking(from, ms[n]) + n <= Lacking(from, ms[0])
  {
    hide Unique, Sound, Pulls, Lacking;
    if n > 0 {
      PullsShrink(made, from, ms, batches, n - 1);
      PullShrinks(made, from, ms[n - 1], batches[n - 1], ms[n]);
    }
  }

  lemma {:induction false} NothingLacking(from: Machine, m: Machine)
    requires Lacking(from, m) == 0
    ensures from.ops <= m.ops
  {
    assert from.ops - m.ops == {};
    forall o | o in from.ops ensures o in m.ops {
      assert o !in from.ops - m.ops;
    }
  }

  lemma {:induction false} PullsCatchUp(made: set<Op>, from: Machine, ms: seq<Machine>, batches: seq<seq<Op>>)
    requires Unique(made) && Sound(made, from) && IsPulling(from, ms, batches) && Sound(made, ms[0])
    requires |batches| >= Lacking(from, ms[0])
    ensures from.ops <= ms[|batches|].ops && ms[0].ops <= ms[|batches|].ops
  {
    hide Unique, Sound, Pulls, Lacking;
    PullsShrink(made, from, ms, batches, |batches|);
    NothingLacking(from, ms[|batches|]);
  }

  /** In every run, pulling often enough from a machine brings all it holds, however its batches are cut. */
  lemma {:induction false} PullingCatchesUp(steps: seq<Step>, states: seq<World>, n: nat, a: nat, b: nat, ms: seq<Machine>, batches: seq<seq<Op>>)
    requires IsTrace(steps, states) && n <= |steps| && a < |states[n].machines| && b < |states[n].machines|
    requires IsPulling(states[n].machines[a], ms, batches) && ms[0] == states[n].machines[b]
    requires |batches| >= Lacking(states[n].machines[a], ms[0])
    ensures states[n].machines[a].ops <= ms[|batches|].ops && ms[0].ops <= ms[|batches|].ops
  {
    TraceKeepsInv(steps, states, n);
    hide Unique, Sound, Pulls, Owned, AsksFit, BatchesFit, Goes, Starts, Lacking;
    assert Sound(states[n].made, states[n].machines[a]) && Sound(states[n].made, states[n].machines[b]);
    PullsCatchUp(states[n].made, states[n].machines[a], ms, batches);
  }

  // One machine, as it changes in place

  function Raised(clock: Stamp, ops: seq<Op>): Stamp {
    if ops == [] then clock else Later(Raised(clock, ops[..|ops| - 1]), ops[|ops| - 1].at.time)
  }

  /** The clock moves apart from the rest. */
  lemma {:induction false} ClockApart(m: Memory, clock: Stamp, ops: seq<Op>)
    ensures ProjectAll(m.(clock := clock), ops) == ProjectAll(m, ops).(clock := Raised(clock, ops))
  {
    if ops != [] {
      ClockApart(m, clock, ops[..|ops| - 1]);
    }
  }

  lemma {:induction false} RaisedIsHighest(clock: Stamp, ops: seq<Op>, k: nat)
    requires k <= |ops|
    ensures AtMost(clock, Raised(clock, ops)) && forall i :: 0 <= i < |ops| ==> AtMost(ops[i].at.time, Raised(clock, ops))
    ensures Raised(Raised(clock, ops), ops[..k]) == Raised(clock, ops)
  {
    if k == 0 {
      if ops != [] {
        RaisedIsHighest(clock, ops[..|ops| - 1], 0);
      }
    } else {
      RaisedIsHighest(clock, ops, k - 1);
      assert ops[..k][..k - 1] == ops[..k - 1];
    }
  }

  /** A clock raised beforehand makes no difference. */
  lemma {:induction false} RaisedBefore(m: Memory, ops: seq<Op>)
    ensures ProjectAll(m.(clock := Raised(m.clock, ops)), ops) == ProjectAll(m, ops)
  {
    ClockApart(m, Raised(m.clock, ops), ops);
    ClockApart(m, m.clock, ops);
    RaisedIsHighest(m.clock, ops, |ops|);
    assert ops[..|ops|] == ops && m.(clock := m.clock) == m;
  }

  class Replica {
    const me: nat
    var clock: Stamp
    var seen: Vector
    var fields: map<Key, Entry>
    var rows: set<Op>

    function Now(): Machine
      reads this
    {
      Machine(Memory(clock, seen, fields), rows)
    }

    constructor (device: nat)
      ensures me == device && Now() == Machine(EMPTY, {})
    {
      me, clock, seen, fields, rows := device, Stamp(0, 0), map[], map[], {};
    }

    method Stamped(wall: int) returns (at: Hlc)
      modifies this`clock
      ensures at == Hlc(Tick(old(clock), wall), me)
      ensures Now() == old(Now()).(mem := old(Now()).mem.(clock := at.time))
    {
      var ms := if wall > clock.ms then wall else clock.ms;
      var n := if ms == clock.ms then clock.n + 1 else 0;
      clock := Stamp(ms, n);
      at := Hlc(clock, me);
    }

    method Projected(op: Op) returns (changed: bool)
      modifies this`clock, this`seen, this`fields
      ensures Now() == old(Now()).(mem := Project(old(Now()).mem, op))
      ensures changed == (op.key !in old(fields) || Earlier(old(fields)[op.key].at, op.at))
    {
      var device := op.at.device;
      if device !in seen {
        seen := seen[device := op.at.time];
      }
      seen := seen[device := Later(seen[device], op.at.time)];
      clock := Later(clock, op.at.time);
      if op.key in fields && !Earlier(fields[op.key].at, op.at) {
        return false;
      }
      fields := fields[op.key := Entry(op.at, op.value)];
      changed := true;
    }

    /** A field that has the value already is left alone; otherwise a new stamp, a row and the field. */
    method Write(wall: int, key: Key, value: string) returns (written: bool)
      modifies this
      ensures written == !(key in old(fields) && old(fields)[key].value == value)
      ensures Now() == if written then Written(old(Now()), Op(Hlc(Tick(old(clock), wall), me), key, value)) else old(Now())
    {
      if key in fields && fields[key].value == value {
        return false;
      }
      var at := Stamped(wall);
      var op := Op(at, key, value);
      rows := Insert(rows, op);
      var _ := Projected(op);
      written := true;
    }

    method Raise(ops: seq<Op>)
      modifies this`clock
      ensures clock == Raised(old(clock), ops)
    {
      for i := 0 to |ops|
        invariant clock == Raised(old(clock), ops[..i])
      {
        assert ops[..i + 1][..i] == ops[..i];
        clock := Later(clock, ops[i].at.time);
      }
      assert ops[..|ops|] == ops;
    }

    method Commit(ops: seq<Op>)
      modifies this`rows
      ensures rows == InsertAll(old(rows), ops)
    {
      for i := 0 to |ops|
        invariant rows == InsertAll(old(rows), ops[..i])
      {
        assert ops[..i + 1][..i] == ops[..i];
        rows := Insert(rows, ops[i]);
      }
      assert ops[..|ops|] == ops;
    }

    method ProjectEach(ops: seq<Op>)
      modifies this`clock, this`seen, this`fields
      ensures Now() == old(Now()).(mem := ProjectAll(old(Now()).mem, ops))
    {
      hide Project;
      for i := 0 to |ops|
        invariant Now() == old(Now()).(mem := ProjectAll(old(Now()).mem, ops[..i]))
      {
        assert ops[..i + 1][..i] == ops[..i];
        var _ := Projected(ops[i]);
      }
      assert ops[..|ops|] == ops;
    }

    /** The clock is raised to all stamps, the rows inserted, then all projected, in the order of their stamps. */
    method Apply(ops: seq<Op>)
      modifies this
      ensures Now() == Applied(old(Now()), Sorted(ops)) && Elements(Sorted(ops)) == Elements(ops)
    {
      SortedSorts(ops);
      var sorted := Sorted(ops);
      assert Elements(sorted) == Elements(ops);
      hide Sorted, Elements, ProjectAll, InsertAll, InOrder;
      ghost var m := Now().mem;
      Raise(sorted);
      Commit(sorted);
      assert Now() == Machine(m.(clock := Raised(m.clock, sorted)), InsertAll(old(rows), sorted));
      ProjectEach(sorted);
      RaisedBefore(m, sorted);
    }
  }
}
