/**
 The layout of a call tree: which call is whose parent, how siblings are numbered,
 and the guide lines drawn left of each row.
 */
module CallTree {
  import opened Prelude

  datatype Guide = NoGuide | Through | Tee | End

  /** A line of the source, as `classify` reads it. */
  datatype Line =
    | Blank
    | Process(name: string)
    | Hop(text: string)
    | Call(indent: nat, name: string, path: string, line: nat, note: string)
    | Bad

  datatype Mistake = BadLine | HopNeedsProcess | CallBeforeProcess | OddIndent | IndentJump

  datatype CallInfo = CallInfo(
    process: nat,
    depth: nat,
    name: string,
    path: string,
    line: nat,
    note: string,
    parent: Option<nat>,
    number: Option<nat>,
    laneStart: bool,
    guides: seq<Guide>,
    sourceLine: nat)

  datatype Row = CallRow(call: CallInfo) | HopRow(text: string, guides: seq<Guide>, sourceLine: nat)

  datatype Tree = Tree(processes: seq<string>, rows: seq<Row>, errors: seq<(nat, Mistake)>)

  /** What the rows will show, in order: a call by its index, or a hop. */
  datatype Item = CallAt(index: nat) | HopAt(text: string, sourceLine: nat)

  /** The variables of the pass over the lines. */
  datatype Reading = Reading(
    processes: seq<string>,
    process: Option<nat>,
    laneOpen: bool,
    lastDepth: Option<nat>,
    calls: seq<CallInfo>,
    order: seq<Item>,
    errors: seq<(nat, Mistake)>)

  const START := Reading([], None, false, None, [], [], [])

  // Reading the lines

  function FirstText(lines: seq<Line>): Option<Line> {
    if lines == [] then None
    else if lines[0].Blank? then FirstText(lines[1..])
    else Some(lines[0])
  }

  function IndexOf(names: seq<string>, name: string): (i: nat)
    ensures i <= |names| && (i < |names| ==> names[i] == name)
  {
    if names == [] || names[0] == name then 0 else 1 + IndexOf(names[1..], name)
  }

  /** The last index below `n` whose depth is below `depth`. */
  function LastBelow(depths: seq<nat>, n: nat, depth: nat): Option<nat>
    requires n <= |depths|
  {
    if n == 0 then None
    else if depths[n - 1] < depth then Some(n - 1)
    else LastBelow(depths, n - 1, depth)
  }

  function Depths(calls: seq<CallInfo>): (depths: seq<nat>)
    ensures |depths| == |calls| && forall i :: 0 <= i < |calls| ==> depths[i] == calls[i].depth
  {
    seq(|calls|, i requires 0 <= i < |calls| => calls[i].depth)
  }

  function ReadLine(lines: seq<Line>, index: nat, r: Reading): Reading
    requires index < |lines|
  {
    var at := index + 1;
    match lines[index]
    case Blank => r
    case Bad => r.(errors := r.errors + [(at, BadLine)])
    case Process(name) =>
      var known := IndexOf(r.processes, name);
      r.(processes := if known < |r.processes| then r.processes else r.processes + [name],
         process := Some(known),
         laneOpen := true)
    case Hop(text) =>
      var next := FirstText(lines[index + 1..]);
      r.(errors := if next.Some? && next.value.Process? then r.errors else r.errors + [(at, HopNeedsProcess)],
         order := r.order + [HopAt(text, at)])
    case Call(indent, name, path, line, note) =>
      if r.process.None? then r.(errors := r.errors + [(at, CallBeforeProcess)])
      else
        var depth := indent / 2;
        var odd := if indent % 2 != 0 then [(at, OddIndent)] else [];
        var jump := if depth > (if r.lastDepth.Some? then r.lastDepth.value + 1 else 0) then [(at, IndentJump)] else [];
        var parent := LastBelow(Depths(r.calls), |r.calls|, depth);
        var call := CallInfo(r.process.value, depth, name, path, line, note, parent, None, r.laneOpen, [], at);
        r.(errors := r.errors + odd + jump,
           lastDepth := Some(depth),
           calls := r.calls + [call],
           laneOpen := false,
           order := r.order + [CallAt(|r.calls|)])
  }

  function Read(lines: seq<Line>, n: nat): Reading
    requires n <= |lines|
  {
    if n == 0 then START else ReadLine(lines, n - 1, Read(lines, n - 1))
  }

  // The layout, from the depths alone

  function Parent(depths: seq<nat>, i: nat): Option<nat>
    requires i < |depths|
  {
    LastBelow(depths, i, depths[i])
  }

  lemma {:induction false} LastBelowIsLast(depths: seq<nat>, n: nat, depth: nat)
    requires n <= |depths|
    ensures match LastBelow(depths, n, depth)
            case None => forall j :: 0 <= j < n ==> depths[j] >= depth
            case Some(p) => p < n && depths[p] < depth && forall j :: p < j < n ==> depths[j] >= depth
  {
    if n > 0 && depths[n - 1] >= depth {
      LastBelowIsLast(depths, n - 1, depth);
    }
  }

  predicate Later(depths: seq<nat>, i: nat)
    requires i < |depths|
  {
    exists s :: i < s < |depths| && Parent(depths, s) == Parent(depths, i)
  }

  /** How many of the first `n` calls are siblings of call `i`, itself included. */
  function SiblingsBefore(depths: seq<nat>, i: nat, n: nat): nat
    requires i < |depths| && n <= |depths|
  {
    if n == 0 then 0
    else SiblingsBefore(depths, i, n - 1) + if Parent(depths, n - 1) == Parent(depths, i) then 1 else 0
  }

  function Number(depths: seq<nat>, i: nat): Option<nat>
    requires i < |depths|
  {
    if Parent(depths, i).Some? && SiblingsBefore(depths, i, |depths|) > 1
    then Some(SiblingsBefore(depths, i, i) + 1)
    else None
  }

  /** Call `i` or the ancestor of it that stands at `level`. */
  function AncestorAt(depths: seq<nat>, i: nat, level: nat): Option<nat>
    requires i < |depths|
    decreases i
  {
    if depths[i] == level then Some(i)
    else
      LastBelowIsLast(depths, i, depths[i]);
      match Parent(depths, i)
      case None => None
      case Some(p) => AncestorAt(depths, p, level)
  }

  function GuideAt(depths: seq<nat>, i: nat, column: nat): Guide
    requires i < |depths|
  {
    AncestorIsEarlier(depths, i, column + 1);
    match AncestorAt(depths, i, column + 1)
    case None => NoGuide
    case Some(node) =>
      if node == i then if Later(depths, node) then Tee else End
      else if Later(depths, node) then Through
      else NoGuide
  }

  lemma {:induction false} AncestorIsEarlier(depths: seq<nat>, i: nat, level: nat)
    requires i < |depths|
    ensures var a := AncestorAt(depths, i, level); a.Some? ==> a.value <= i && depths[a.value] == level
    decreases i
  {
    LastBelowIsLast(depths, i, depths[i]);
    if depths[i] != level && Parent(depths, i).Some? {
      AncestorIsEarlier(depths, Parent(depths, i).value, level);
    }
  }

  function Guides(depths: seq<nat>, i: nat): seq<Guide>
    requires i < |depths|
  {
    seq(depths[i], column requires 0 <= column => GuideAt(depths, i, column))
  }

  function Finish(calls: seq<CallInfo>): (finished: seq<CallInfo>)
    ensures |finished| == |calls|
  {
    var depths := Depths(calls);
    seq(|calls|, i requires 0 <= i < |calls| => calls[i].(number := Number(depths, i), guides := Guides(depths, i)))
  }

  // The rows

  /** The first call at or after position `p` of the order. */
  function NextCall(order: seq<Item>, p: nat): Option<nat>
    requires p <= |order|
    decreases |order| - p
  {
    if p == |order| then None
    else if order[p].CallAt? then Some(order[p].index)
    else NextCall(order, p + 1)
  }

  function Passing(guides: seq<Guide>): (through: seq<Guide>)
    ensures |through| == |guides|
  {
    seq(|guides|, k requires 0 <= k < |guides| => if guides[k].Tee? || guides[k].End? then Through else guides[k])
  }

  /** The order's calls are 0, 1, 2 and so on. */
  ghost predicate InSequence(order: seq<Item>, calls: nat) {
    && |Filter(IsCall(), order)| == calls
    && forall p :: 0 <= p < |order| ==> Placed(order, p)
  }

  ghost predicate Placed(order: seq<Item>, p: nat)
    requires p < |order|
  {
    order[p].CallAt? ==> order[p].index == |Filter(IsCall(), order[..p])|
  }

  function IsCall(): Item -> bool {
    (item: Item) => item.CallAt?
  }

  function RowAt(order: seq<Item>, calls: seq<CallInfo>, p: nat): Row
    requires p < |order|
    requires forall item <- order :: item.CallAt? ==> item.index < |calls|
  {
    match order[p]
    case CallAt(index) => CallRow(calls[index])
    case HopAt(text, line) =>
      NextCallIsInRange(order, p + 1, |calls|);
      var next := NextCall(order, p + 1);
      HopRow(text, if next.Some? then Passing(calls[next.value].guides) else [], line)
  }

  lemma {:induction false} NextCallIsInRange(order: seq<Item>, p: nat, n: nat)
    requires p <= |order| && forall item <- order :: item.CallAt? ==> item.index < n
    ensures NextCall(order, p).Some? ==> NextCall(order, p).value < n
    decreases |order| - p
  {
    if p < |order| && order[p].HopAt? {
      NextCallIsInRange(order, p + 1, n);
    }
  }

  function Rows(order: seq<Item>, calls: seq<CallInfo>): (rows: seq<Row>)
    requires forall item <- order :: item.CallAt? ==> item.index < |calls|
    ensures |rows| == |order|
  {
    seq(|order|, p requires 0 <= p < |order| => RowAt(order, calls, p))
  }

  function Parsed(lines: seq<Line>): Tree {
    var r := Read(lines, |lines|);
    ReadIsSound(lines, |lines|);
    Tree(r.processes, Rows(r.order, Finish(r.calls)), r.errors)
  }

  // What reading keeps

  /** With no indent jump, the first call is at depth 0 and each next one is at most one deeper. */
  ghost predicate NoJumps(depths: seq<nat>) {
    && (depths != [] ==> depths[0] == 0)
    && forall i, j :: 0 <= i < j < |depths| && j == i + 1 ==> depths[j] <= depths[i] + 1
  }

  ghost predicate ParentSound(calls: seq<CallInfo>, depths: seq<nat>, i: nat) {
    i < |calls| == |depths| && calls[i].parent == Parent(depths, i)
  }

  ghost predicate ParentsSound(calls: seq<CallInfo>, depths: seq<nat>) {
    forall i :: 0 <= i < |calls| ==> ParentSound(calls, depths, i)
  }

  ghost predicate OrderSound(order: seq<Item>, n: nat) {
    forall item <- order :: item.CallAt? ==> item.index < n
  }

  ghost predicate Sound(r: Reading) {
    && OrderSound(r.order, |r.calls|)
    && ParentsSound(r.calls, Depths(r.calls))
    && (r.lastDepth == if r.calls == [] then None else Some(r.calls[|r.calls| - 1].depth))
    && (r.errors == [] ==> NoJumps(Depths(r.calls)))
  }

  lemma {:induction false} LastBelowOfPrefix(depths: seq<nat>, more: seq<nat>, n: nat, depth: nat)
    requires n <= |depths|
    ensures LastBelow(depths + more, n, depth) == LastBelow(depths, n, depth)
  {
    if n > 0 {
      LastBelowOfPrefix(depths, more, n - 1, depth);
    }
  }

  lemma AddCallIsSound(calls: seq<CallInfo>, depths: seq<nat>, call: CallInfo)
    requires |depths| == |calls| && ParentsSound(calls, depths)
    requires call.parent == LastBelow(depths, |depths|, call.depth)
    ensures ParentsSound(calls + [call], depths + [call.depth])
  {
    forall i | 0 <= i < |calls + [call]|
      ensures ParentSound(calls + [call], depths + [call.depth], i)
    {
      LastBelowOfPrefix(depths, [call.depth], i, (depths + [call.depth])[i]);
      assert i < |calls| ==> ParentSound(calls, depths, i);
    }
  }

  lemma ReadLineIsSound(lines: seq<Line>, index: nat, r: Reading)
    requires index < |lines| && Sound(r)
    ensures Sound(ReadLine(lines, index, r))
  {
    if lines[index].Call? && r.process.Some? {
      var r' := ReadLine(lines, index, r);
      var depths := Depths(r.calls);
      AddCallIsSound(r.calls, depths, r'.calls[|r.calls|]);
      assert Depths(r'.calls) == depths + [r'.calls[|r.calls|].depth];
      assert depths == [] || depths[|depths| - 1] == r.lastDepth.value;
    }
  }

  lemma {:induction false} ReadIsSound(lines: seq<Line>, n: nat)
    requires n <= |lines|
    ensures Sound(Read(lines, n))
  {
    if n > 0 {
      ReadIsSound(lines, n - 1);
      ReadLineIsSound(lines, n - 1, Read(lines, n - 1));
    }
  }

  lemma {:induction false} ReadIsInSequence(lines: seq<Line>, n: nat)
    requires n <= |lines|
    ensures InSequence(Read(lines, n).order, |Read(lines, n).calls|)
  {
    if n > 0 {
      ReadIsInSequence(lines, n - 1);
      var r, r' := Read(lines, n - 1), Read(lines, n);
      if r'.order != r.order {
        assert r'.order[..|r.order|] == r.order;
        forall p | 0 <= p < |r'.order|
          ensures Placed(r'.order, p)
        {
          assert p < |r.order| ==> Placed(r.order, p) && r'.order[..p] == r.order[..p];
        }
      }
    }
  }

  // Parents, ancestors and siblings when the indent never jumps

  lemma ParentIsOneUp(depths: seq<nat>, i: nat)
    requires NoJumps(depths) && i < |depths| && depths[i] > 0
    ensures Parent(depths, i).Some?
    ensures var p := Parent(depths, i).value;
            p < i && depths[p] == depths[i] - 1 && forall j :: p < j < i ==> depths[j] >= depths[i]
  {
    LastBelowIsLast(depths, i, depths[i]);
    assert depths[0] == 0;
    if Parent(depths, i).Some? {
      var p := Parent(depths, i).value;
      assert depths[p + 1] <= depths[p] + 1;
    }
  }

  lemma {:induction false} AncestorIsLastAtLevel(depths: seq<nat>, i: nat, level: nat)
    requires NoJumps(depths) && i < |depths| && level <= depths[i]
    ensures AncestorAt(depths, i, level).Some?
    ensures var a := AncestorAt(depths, i, level).value;
            a <= i && depths[a] == level && forall j :: a < j <= i ==> depths[j] > level
    decreases i
  {
    if depths[i] != level {
      ParentIsOneUp(depths, i);
      AncestorIsLastAtLevel(depths, Parent(depths, i).value, level);
    }
  }

  lemma {:induction false} NoAncestorBelow(depths: seq<nat>, i: nat, level: nat)
    requires i < |depths| && level > depths[i]
    ensures AncestorAt(depths, i, level).None?
    decreases i
  {
    LastBelowIsLast(depths, i, depths[i]);
    if Parent(depths, i).Some? {
      NoAncestorBelow(depths, Parent(depths, i).value, level);
    }
  }

  /** Two calls share a parent exactly when they stand at one depth with nothing shallower between. */
  lemma SiblingsShareDepth(depths: seq<nat>, i: nat, s: nat)
    requires NoJumps(depths) && i < s < |depths| && depths[i] > 0
    ensures Parent(depths, s) == Parent(depths, i) <==> depths[s] == depths[i] && forall j :: i < j < s ==> depths[j] >= depths[i]
  {
    ParentIsOneUp(depths, i);
    LastBelowIsLast(depths, s, depths[s]);
    if depths[s] > 0 {
      ParentIsOneUp(depths, s);
    }
  }

  lemma SameAncestor(depths: seq<nat>, i: nat, level: nat)
    requires NoJumps(depths) && 0 < i < |depths| && level < depths[i]
    ensures AncestorAt(depths, i, level) == AncestorAt(depths, i - 1, level)
  {
    AncestorIsLastAtLevel(depths, i, level);
    AncestorIsLastAtLevel(depths, i - 1, level);
    var a, b := AncestorAt(depths, i, level).value, AncestorAt(depths, i - 1, level).value;
    assert a == b;
  }

  predicate EntersAt(depths: seq<nat>, i: nat, column: nat)
    requires i < |depths|
  {
    column < depths[i] && !GuideAt(depths, i, column).NoGuide?
  }

  predicate LeavesAt(depths: seq<nat>, i: nat, column: nat)
    requires i < |depths|
  {
    column < depths[i] && (GuideAt(depths, i, column).Tee? || GuideAt(depths, i, column).Through?)
  }

  /** In a column left of the lower call's own, both rows show the same ancestor's line. */
  lemma PassingColumnConnects(depths: seq<nat>, i: nat, column: nat)
    requires NoJumps(depths) && 0 < i < |depths| && column + 1 < depths[i]
    ensures EntersAt(depths, i, column) <==> LeavesAt(depths, i - 1, column)
  {
    SameAncestor(depths, i, column + 1);
    AncestorIsLastAtLevel(depths, i, column + 1);
  }

  /** In the lower call's own column a line always enters: from its parent, or from an earlier sibling above it. */
  lemma OwnColumnConnects(depths: seq<nat>, i: nat, column: nat)
    requires NoJumps(depths) && 0 < i < |depths| && column + 1 == depths[i]
    ensures EntersAt(depths, i, column)
    ensures LeavesAt(depths, i - 1, column) || Parent(depths, i) == Some(i - 1)
  {
    ParentIsOneUp(depths, i);
    if Parent(depths, i) != Some(i - 1) {
      AncestorIsLastAtLevel(depths, i - 1, depths[i]);
      var a := AncestorAt(depths, i - 1, depths[i]).value;
      SiblingsShareDepth(depths, a, i);
    }
  }

  /** Right of the lower call nothing leaves the upper row: the branches there have ended. */
  lemma EndedColumnConnects(depths: seq<nat>, i: nat, column: nat)
    requires NoJumps(depths) && 0 < i < |depths| && column >= depths[i]
    ensures !LeavesAt(depths, i - 1, column)
  {
    if LeavesAt(depths, i - 1, column) {
      AncestorIsLastAtLevel(depths, i - 1, column + 1);
      var a := AncestorAt(depths, i - 1, column + 1).value;
      var s :| a < s < |depths| && Parent(depths, s) == Parent(depths, a);
      SiblingsShareDepth(depths, a, s);
    }
  }

  lemma {:induction false} AdjacentCallsConnect(depths: seq<nat>, i: nat, column: nat)
    requires NoJumps(depths) && 0 < i < |depths|
    ensures EntersAt(depths, i, column) <==>
            LeavesAt(depths, i - 1, column) || (Parent(depths, i) == Some(i - 1) && column + 1 == depths[i])
  {
    if column + 1 < depths[i] {
      PassingColumnConnects(depths, i, column);
    } else if column + 1 == depths[i] {
      OwnColumnConnects(depths, i, column);
    } else {
      EndedColumnConnects(depths, i, column);
    }
  }

  lemma {:induction false} LastCallLeavesNothing(depths: seq<nat>, column: nat)
    requires NoJumps(depths) && depths != []
    ensures !LeavesAt(depths, |depths| - 1, column)
  {
    var i := |depths| - 1;
    if LeavesAt(depths, i, column) {
      AncestorIsLastAtLevel(depths, i, column + 1);
      var a := AncestorAt(depths, i, column + 1).value;
      var s :| a < s < |depths| && Parent(depths, s) == Parent(depths, a);
      SiblingsShareDepth(depths, a, s);
    }
  }

  // Rows

  function GuidesOf(row: Row): seq<Guide> {
    if row.CallRow? then row.call.guides else row.guides
  }

  /** A line comes into the row from the row above, in this column. */
  predicate Enters(row: Row, column: nat) {
    column < |GuidesOf(row)| && !GuidesOf(row)[column].NoGuide?
  }

  /** A line goes on from the row into the row below, in this column. */
  predicate Leaves(row: Row, column: nat) {
    column < |GuidesOf(row)| && (GuidesOf(row)[column].Tee? || GuidesOf(row)[column].Through?)
  }

  function CallsBefore(rows: seq<Row>, p: nat): nat
    requires p <= |rows|
  {
    if p == 0 then 0 else CallsBefore(rows, p - 1) + if rows[p - 1].CallRow? then 1 else 0
  }

  /** Row `q` is the call that row `p` stands above, with only hops between. */
  predicate FirstCallBelow(rows: seq<Row>, p: nat, q: nat) {
    p < q < |rows| && rows[q].CallRow? && forall m :: p < m < q ==> rows[m].HopRow?
  }

  /** The upper row is the parent of the call below it, whose line starts in this column. */
  ghost predicate ParentAbove(rows: seq<Row>, p: nat, column: nat)
    requires p < |rows|
  {
    && rows[p].CallRow?
    && exists q: nat :: FirstCallBelow(rows, p, q) && rows[q].call.parent == Some(CallsBefore(rows, p)) && rows[q].call.depth == column + 1
  }

  lemma {:induction false} NextCallPosition(order: seq<Item>, p: nat) returns (q: nat)
    requires p <= |order|
    ensures p <= q <= |order| && forall m :: p <= m < q ==> order[m].HopAt?
    ensures q < |order| ==> order[q].CallAt? && NextCall(order, p) == Some(order[q].index)
    ensures q == |order| ==> NextCall(order, p) == None
    decreases |order| - p
  {
    q := p;
    if p < |order| && order[p].HopAt? {
      q := NextCallPosition(order, p + 1);
    }
  }

  lemma {:induction false} HopsAreNotCounted(order: seq<Item>, a: nat, b: nat)
    requires a <= b <= |order| && forall m :: a <= m < b ==> order[m].HopAt?
    ensures Filter(IsCall(), order[..b]) == Filter(IsCall(), order[..a])
  {
    if a < b {
      assert order[..b][..b - 1] == order[..b - 1];
      HopsAreNotCounted(order, a, b - 1);
    }
  }

  lemma {:induction false} OneMoreCall(order: seq<Item>, p: nat)
    requires p < |order| && order[p].CallAt?
    ensures |Filter(IsCall(), order[..p + 1])| == |Filter(IsCall(), order[..p])| + 1
  {
    assert order[..p + 1][..p] == order[..p];
  }

  lemma {:induction false} NextInSequence(order: seq<Item>, calls: nat, p: nat)
    requires InSequence(order, calls) && p < |order| && order[p].CallAt?
    ensures NextCall(order, p + 1) == if order[p].index + 1 < calls then Some(order[p].index + 1) else None
  {
    var q := NextCallPosition(order, p + 1);
    HopsAreNotCounted(order, p + 1, q);
    OneMoreCall(order, p);
    assert Placed(order, p);
    if q == |order| {
      assert order[..q] == order;
    } else {
      CountGrows(order, q + 1);
      OneMoreCall(order, q);
      assert Placed(order, q);
    }
    hide Filter, NextCall;
  }

  lemma {:induction false} CountGrows(order: seq<Item>, q: nat)
    requires q <= |order|
    ensures |Filter(IsCall(), order[..q])| <= |Filter(IsCall(), order)|
  {
    assert order == order[..q] + order[q..];
    FilterConcat(IsCall(), order[..q], order[q..]);
  }

  lemma {:induction false} CallsBeforeIsCount(order: seq<Item>, calls: seq<CallInfo>, p: nat)
    requires OrderSound(order, |calls|) && p <= |order|
    ensures CallsBefore(Rows(order, calls), p) == |Filter(IsCall(), order[..p])|
  {
    if p > 0 {
      CallsBeforeIsCount(order, calls, p - 1);
      assert order[..p][..p - 1] == order[..p - 1];
    }
  }

  /** What a row's guides mean, from the depths of the call it shows or leads to. */
  lemma RowGuides(order: seq<Item>, calls: seq<CallInfo>, p: nat, column: nat)
    requires OrderSound(order, |calls|) && p < |order|
    ensures NextCall(order, p).Some? ==> NextCall(order, p).value < |calls|
    ensures var (row, next) := (RowAt(order, Finish(calls), p), NextCall(order, p));
            && (Enters(row, column) <==> next.Some? && EntersAt(Depths(calls), next.value, column))
            && (row.CallRow? ==> next.Some? && (Leaves(row, column) <==> LeavesAt(Depths(calls), next.value, column)))
            && (row.HopRow? ==> (Leaves(row, column) <==> Enters(row, column)))
  {
    NextCallIsInRange(order, p, |calls|);
  }

  lemma ParentAboveMeans(order: seq<Item>, calls: seq<CallInfo>, p: nat, column: nat)
    requires OrderSound(order, |calls|) && InSequence(order, |calls|) && ParentsSound(calls, Depths(calls))
    requires p < |order| && order[p].CallAt?
    ensures var i := order[p].index;
            ParentAbove(Rows(order, Finish(calls)), p, column)
            <==> i + 1 < |calls| && Parent(Depths(calls), i + 1) == Some(i) && Depths(calls)[i + 1] == column + 1
  {
    var i, rows := order[p].index, Rows(order, Finish(calls));
    CallsBeforeIsCount(order, Finish(calls), p);
    NextInSequence(order, |calls|, p);
    var q := NextCallPosition(order, p + 1);
    assert Placed(order, p);
    if i + 1 < |calls| {
      assert q < |order| && FirstCallBelow(rows, p, q) && ParentSound(calls, Depths(calls), i + 1);
      assert forall q': nat :: FirstCallBelow(rows, p, q') ==> q' == q;
    }
  }

  lemma {:induction false} RowIs(order: seq<Item>, calls: seq<CallInfo>, p: nat)
    requires OrderSound(order, |calls|) && p < |order|
    ensures Rows(order, calls)[p] == RowAt(order, calls, p) && (RowAt(order, calls, p).CallRow? <==> order[p].CallAt?)
    ensures order[p].CallAt? ==> RowAt(order, calls, p) == CallRow(calls[order[p].index])
  {
  }

  /** The lines connect in the rows of one reading. */
  lemma {:induction false} RowsConnect(r: Reading, p: nat, column: nat)
    requires Sound(r) && InSequence(r.order, |r.calls|) && NoJumps(Depths(r.calls))
    requires p + 1 < |r.order|
    ensures var rows := Rows(r.order, Finish(r.calls));
            Enters(rows[p + 1], column) <==> Leaves(rows[p], column) || ParentAbove(rows, p, column)
  {
    hide Rows, RowAt, Enters, Leaves, InSequence, NoJumps, EntersAt, LeavesAt, ParentsSound, Depths;
    var depths, rows := Depths(r.calls), Rows(r.order, Finish(r.calls));
    RowIs(r.order, Finish(r.calls), p);
    RowIs(r.order, Finish(r.calls), p + 1);
    RowGuides(r.order, r.calls, p, column);
    RowGuides(r.order, r.calls, p + 1, column);
    if r.order[p].CallAt? {
      var i := r.order[p].index;
      NextInSequence(r.order, |r.calls|, p);
      ParentAboveMeans(r.order, r.calls, p, column);
      if i + 1 < |r.calls| {
        AdjacentCallsConnect(depths, i + 1, column);
      } else {
        LastCallLeavesNothing(depths, column);
      }
    }
  }

  // Main results

  /**
   In a tree parsed with no errors the drawn lines connect: between adjacent rows, hops included,
   a line enters the lower row exactly when one leaves the upper row in that column, or the upper row
   is the parent of the call below and its line starts there.
   */
  lemma {:induction false} LinesConnect(lines: seq<Line>, p: nat, column: nat)
    requires Parsed(lines).errors == [] && p + 1 < |Parsed(lines).rows|
    ensures var rows := Parsed(lines).rows;
            Enters(rows[p + 1], column) <==> Leaves(rows[p], column) || ParentAbove(rows, p, column)
  {
    ReadIsSound(lines, |lines|);
    ReadIsInSequence(lines, |lines|);
    RowsConnect(Read(lines, |lines|), p, column);
  }

  lemma {:induction false} NothingEntersFirst(r: Reading, column: nat)
    requires Sound(r) && InSequence(r.order, |r.calls|) && NoJumps(Depths(r.calls)) && r.order != []
    ensures !Enters(Rows(r.order, Finish(r.calls))[0], column)
  {
    RowGuides(r.order, r.calls, 0, column);
    var first := NextCallPosition(r.order, 0);
    HopsAreNotCounted(r.order, 0, first);
    assert first < |r.order| ==> Placed(r.order, first) && r.order[first].index == 0;
  }

  lemma {:induction false} NothingLeavesLast(r: Reading, column: nat)
    requires Sound(r) && InSequence(r.order, |r.calls|) && NoJumps(Depths(r.calls)) && r.order != []
    ensures !Leaves(Rows(r.order, Finish(r.calls))[|r.order| - 1], column)
  {
    var n := |r.order| - 1;
    RowGuides(r.order, r.calls, n, column);
    if r.order[n].CallAt? {
      NextInSequence(r.order, |r.calls|, n);
      LastCallLeavesNothing(Depths(r.calls), column);
    }
  }

  /** The first row shows no line coming from above, and the last none going on below. */
  lemma {:induction false} LinesEnd(lines: seq<Line>, column: nat)
    requires Parsed(lines).errors == [] && Parsed(lines).rows != []
    ensures var rows := Parsed(lines).rows; !Enters(rows[0], column) && !Leaves(rows[|rows| - 1], column)
  {
    var r := Read(lines, |lines|);
    ReadIsSound(lines, |lines|);
    ReadIsInSequence(lines, |lines|);
    hide InSequence, Enters, Leaves, Finish;
    NothingEntersFirst(r, column);
    NothingLeavesLast(r, column);
  }

  // What each guide says

  /** After call `i` comes one at this depth before any that is less deep. */
  predicate GoesOn(depths: seq<nat>, i: nat, depth: nat) {
    exists s :: i < s < |depths| && depths[s] == depth && forall j :: i < j < s ==> depths[j] >= depth
  }

  /** From depths alone: in its own column a call has a tee while a sibling follows and else an end, and in the columns left of it a line passes where one follows of the ancestor there. */
  function GuideByDepth(depths: seq<nat>, i: nat, column: nat): Guide
    requires i < |depths|
  {
    if column + 1 == depths[i] then if GoesOn(depths, i, column + 1) then Tee else End
    else if column + 1 < depths[i] && GoesOn(depths, i, column + 1) then Through
    else NoGuide
  }

  lemma {:induction false} LaterIsGoingOn(depths: seq<nat>, i: nat, a: nat)
    requires NoJumps(depths) && a <= i < |depths| && 0 < depths[a] <= depths[i] && forall j :: a < j <= i ==> depths[j] > depths[a]
    ensures Later(depths, a) <==> GoesOn(depths, i, depths[a])
  {
    if Later(depths, a) {
      var s :| a < s < |depths| && Parent(depths, s) == Parent(depths, a);
      SiblingsShareDepth(depths, a, s);
      assert s > i;
    }
    if GoesOn(depths, i, depths[a]) {
      var s :| i < s < |depths| && depths[s] == depths[a] && forall j :: i < j < s ==> depths[j] >= depths[a];
      SiblingsShareDepth(depths, a, s);
    }
  }

  lemma {:induction false} GuideIsByDepth(depths: seq<nat>, i: nat, column: nat)
    requires NoJumps(depths) && i < |depths| && column < depths[i]
    ensures GuideAt(depths, i, column) == GuideByDepth(depths, i, column)
  {
    AncestorIsLastAtLevel(depths, i, column + 1);
    var a := AncestorAt(depths, i, column + 1).value;
    LaterIsGoingOn(depths, i, a);
  }

  /** The depths of the calls that the first `n` rows show. */
  function DepthsShown(rows: seq<Row>, n: nat): seq<nat>
    requires n <= |rows|
  {
    if n == 0 then [] else DepthsShown(rows, n - 1) + if rows[n - 1].CallRow? then [rows[n - 1].call.depth] else []
  }

  /** Rows show the calls one after another. */
  ghost predicate InTurn(rows: seq<Row>, calls: seq<CallInfo>) {
    && CallsBefore(rows, |rows|) == |calls|
    && forall p :: 0 <= p < |rows| && rows[p].CallRow? ==> CallsBefore(rows, p) < |calls| && rows[p].call == calls[CallsBefore(rows, p)]
  }

  lemma {:induction false} RowsAreInTurn(order: seq<Item>, calls: seq<CallInfo>)
    requires InSequence(order, |calls|) && OrderSound(order, |calls|)
    ensures InTurn(Rows(order, calls), calls)
  {
    var rows := Rows(order, calls);
    forall p | 0 <= p < |rows| && rows[p].CallRow? ensures CallsBefore(rows, p) < |calls| && rows[p].call == calls[CallsBefore(rows, p)] {
      assert Placed(order, p);
      RowIs(order, calls, p);
      CallsBeforeIsCount(order, calls, p);
    }
    CallsBeforeIsCount(order, calls, |order|);
    assert order[..|order|] == order;
  }

  lemma {:induction false} ShownAreTheDepths(rows: seq<Row>, calls: seq<CallInfo>, n: nat)
    requires InTurn(rows, calls) && n <= |rows|
    ensures CallsBefore(rows, n) <= |calls| && DepthsShown(rows, n) == Depths(calls)[..CallsBefore(rows, n)]
  {
    if n > 0 {
      ShownAreTheDepths(rows, calls, n - 1);
    }
  }

  lemma {:induction false} AllShown(r: Reading)
    requires Sound(r) && InSequence(r.order, |r.calls|)
    ensures var rows := Rows(r.order, Finish(r.calls)); DepthsShown(rows, |rows|) == Depths(r.calls)
  {
    var rows, calls := Rows(r.order, Finish(r.calls)), Finish(r.calls);
    RowsAreInTurn(r.order, calls);
    ShownAreTheDepths(rows, calls, |rows|);
    hide InTurn, InSequence, Rows;
    assert Depths(calls) == Depths(r.calls);
    assert Depths(calls)[..|calls|] == Depths(calls);
  }

  /**
   In a tree without mistakes each guide is the one the depths of the calls ask for: a call
   has a tee or an end in its own column and there alone, a hop nowhere, and both pass on the
   lines of the next call's column, or of its ancestors', exactly while a sibling follows.
   */
  lemma {:induction false} GuidesSayWhatFollows(lines: seq<Line>, p: nat, column: nat)
    requires Parsed(lines).errors == [] && p < |Parsed(lines).rows|
    ensures var rows := Parsed(lines).rows;
            var depths, i, guides := DepthsShown(rows, |rows|), CallsBefore(rows, p), GuidesOf(rows[p]);
            && (rows[p].CallRow? ==> i < |depths| && depths[i] == rows[p].call.depth)
            && |guides| == (if i < |depths| then depths[i] else 0)
            && (column < |guides| ==>
                  guides[column] == if rows[p].HopRow? && column + 1 == depths[i] then Through else GuideByDepth(depths, i, column))
  {
    var r := Read(lines, |lines|);
    ReadIsSound(lines, |lines|);
    ReadIsInSequence(lines, |lines|);
    AllShown(r);
    RowGuide(r, p, column);
  }

  lemma {:induction false} RowGuide(r: Reading, p: nat, column: nat)
    requires Sound(r) && InSequence(r.order, |r.calls|) && NoJumps(Depths(r.calls)) && p < |r.order|
    ensures var rows, depths := Rows(r.order, Finish(r.calls)), Depths(r.calls);
            var i, guides := CallsBefore(rows, p), GuidesOf(rows[p]);
            && (rows[p].CallRow? ==> i < |depths| && depths[i] == rows[p].call.depth)
            && |guides| == (if i < |depths| then depths[i] else 0)
            && (column < |guides| ==>
                  guides[column] == if rows[p].HopRow? && column + 1 == depths[i] then Through else GuideByDepth(depths, i, column))
  {
    var depths := Depths(r.calls);
    CallsBeforeIsCount(r.order, Finish(r.calls), p);
    NextShown(r.order, |r.calls|, p);
    var i := |Filter(IsCall(), r.order[..p])|;
    if i < |depths| && column < depths[i] {
      GuideIsByDepth(depths, i, column);
    }
    hide InSequence, Sound, NoJumps, GuideAt, Filter, NextCall;
  }

  /** The next call at or after a row is the one whose number is how many stand before. */
  lemma {:induction false} NextShown(order: seq<Item>, calls: nat, p: nat)
    requires InSequence(order, calls) && OrderSound(order, calls) && p < |order|
    ensures var i := |Filter(IsCall(), order[..p])|;
            && NextCall(order, p) == (if i < calls then Some(i) else None)
            && (order[p].CallAt? ==> i < calls && order[p].index == i)
            && (order[p].HopAt? ==> NextCall(order, p + 1) == NextCall(order, p))
  {
    var q := NextCallPosition(order, p);
    HopsAreNotCounted(order, p, q);
    assert Placed(order, p);
    if q == |order| {
      assert order[..q] == order;
    } else {
      assert Placed(order, q) && order[q] in order;
      CountGrows(order, q + 1);
      OneMoreCall(order, q);
    }
    hide Filter;
  }

  lemma {:induction false} SiblingCountGrows(depths: seq<nat>, i: nat, a: nat, b: nat)
    requires i < |depths| && a <= b <= |depths|
    ensures SiblingsBefore(depths, i, a) <= SiblingsBefore(depths, i, b)
  {
    if a < b {
      SiblingCountGrows(depths, i, a, b - 1);
    }
  }

  lemma {:induction false} SiblingCountShared(depths: seq<nat>, i: nat, j: nat, n: nat)
    requires i < |depths| && j < |depths| && n <= |depths| && Parent(depths, i) == Parent(depths, j)
    ensures SiblingsBefore(depths, i, n) == SiblingsBefore(depths, j, n)
  {
    if n > 0 {
      SiblingCountShared(depths, i, j, n - 1);
    }
  }

  /** Siblings are numbered from 1 to how many they are, in the order they stand; an only child and a root have no number. */
  lemma {:induction false} SiblingsAreNumbered(depths: seq<nat>, i: nat, j: nat)
    requires i < j < |depths| && Parent(depths, i) == Parent(depths, j) && Parent(depths, i).Some?
    ensures Number(depths, i).Some? && Number(depths, j).Some?
    ensures 1 <= Number(depths, i).value < Number(depths, j).value <= SiblingsBefore(depths, i, |depths|)
    ensures (forall k :: i < k < j ==> Parent(depths, k) != Parent(depths, i)) ==> Number(depths, j).value == Number(depths, i).value + 1
  {
    SiblingCountShared(depths, i, j, j);
    SiblingCountShared(depths, i, j, |depths|);
    SiblingCountGrows(depths, i, i + 1, j);
    SiblingCountGrows(depths, i, j + 1, |depths|);
    if forall k :: i < k < j ==> Parent(depths, k) != Parent(depths, i) {
      NoSiblingBetween(depths, i, j);
    }
  }

  predicate Sibling(depths: seq<nat>, i: nat, s: nat)
    requires i < |depths| && s < |depths|
  {
    s != i && Parent(depths, s) == Parent(depths, i)
  }

  lemma {:induction false} CountsOthers(depths: seq<nat>, i: nat, n: nat)
    requires i < |depths| && n <= |depths|
    ensures SiblingsBefore(depths, i, n) > (if i < n then 1 else 0) <==> exists s: nat :: s < n && Sibling(depths, i, s)
    ensures SiblingsBefore(depths, i, n) >= if i < n then 1 else 0
  {
    if n > 0 {
      CountsOthers(depths, i, n - 1);
      assert n - 1 != i && Parent(depths, n - 1) == Parent(depths, i) <==> Sibling(depths, i, n - 1);
      hide Parent;
    }
  }

  /** A call has a number exactly when it has a parent and a sibling; the first of them has 1. */
  lemma {:induction false} NumberedIff(depths: seq<nat>, i: nat)
    requires i < |depths|
    ensures Number(depths, i).Some? <==> Parent(depths, i).Some? && exists s: nat :: s < |depths| && Sibling(depths, i, s)
    ensures Number(depths, i).Some? ==> (Number(depths, i).value == 1 <==> forall s: nat :: s < i ==> !Sibling(depths, i, s))
  {
    CountsOthers(depths, i, |depths|);
    CountsOthers(depths, i, i);
  }

  lemma {:induction false} NoSiblingBetween(depths: seq<nat>, i: nat, j: nat)
    requires i < j <= |depths| && forall k :: i < k < j ==> Parent(depths, k) != Parent(depths, i)
    ensures SiblingsBefore(depths, i, j) == SiblingsBefore(depths, i, i) + 1
  {
    if i + 1 < j {
      NoSiblingBetween(depths, i, j - 1);
    }
  }

  // What is read of each line

  /** The line of the last process named before line `k`. */
  function ProcessBefore(lines: seq<Line>, k: nat): Option<nat>
    requires k <= |lines|
  {
    if k == 0 then None else if lines[k - 1].Process? then Some(k - 1) else ProcessBefore(lines, k - 1)
  }

  /** The line is a call that has its process. */
  predicate IsCallAt(lines: seq<Line>, k: nat)
    requires k < |lines|
  {
    lines[k].Call? && ProcessBefore(lines, k).Some?
  }

  /** How many such calls stand before line `k`. */
  function CallsTo(lines: seq<Line>, k: nat): nat
    requires k <= |lines|
  {
    if k == 0 then 0 else CallsTo(lines, k - 1) + if IsCallAt(lines, k - 1) then 1 else 0
  }

  /** How many lines before `k` become rows: those calls, and the hops. */
  function RowsTo(lines: seq<Line>, k: nat): nat
    requires k <= |lines|
  {
    if k == 0 then 0 else RowsTo(lines, k - 1) + if IsCallAt(lines, k - 1) || lines[k - 1].Hop? then 1 else 0
  }

  /** The depth of the last such call before line `k`. */
  function DepthBefore(lines: seq<Line>, k: nat): Option<nat>
    requires k <= |lines|
  {
    if k == 0 then None else if IsCallAt(lines, k - 1) then Some(lines[k - 1].indent / 2) else DepthBefore(lines, k - 1)
  }

  /** The call as its line says, of the process last named; it starts a lane when it is the first since. */
  ghost predicate CallFits(lines: seq<Line>, k: nat, processes: seq<string>, c: CallInfo)
    requires k < |lines| && IsCallAt(lines, k)
  {
    var (p, line) := (ProcessBefore(lines, k).value, lines[k]);
    && c.process < |processes| && p < |lines| && lines[p].Process? && processes[c.process] == lines[p].name
    && c.depth == line.indent / 2 && c.name == line.name && c.path == line.path && c.line == line.line && c.note == line.note
    && c.sourceLine == k + 1 && (c.laneStart <==> CallsTo(lines, p) == CallsTo(lines, k))
  }

  /** What is wrong with a line. */
  ghost predicate IsMistake(lines: seq<Line>, k: nat, mistake: Mistake)
    requires k < |lines|
  {
    match mistake
    case BadLine => lines[k].Bad?
    case HopNeedsProcess => lines[k].Hop? && !(FirstText(lines[k + 1..]).Some? && FirstText(lines[k + 1..]).value.Process?)
    case CallBeforeProcess => lines[k].Call? && ProcessBefore(lines, k).None?
    case OddIndent => IsCallAt(lines, k) && lines[k].indent % 2 == 1
    case IndentJump => IsCallAt(lines, k) && lines[k].indent / 2 > if DepthBefore(lines, k).Some? then DepthBefore(lines, k).value + 1 else 0
  }

  /** Where the reading stands. */
  ghost predicate Standing(lines: seq<Line>, n: nat, r: Reading)
    requires n <= |lines|
  {
    var p := ProcessBefore(lines, n);
    && (r.process.Some? <==> p.Some?)
    && (p.Some? ==> p.value < n && lines[p.value].Process? && r.process.value < |r.processes| && r.processes[r.process.value] == lines[p.value].name)
    && (r.laneOpen <==> p.Some? && CallsTo(lines, p.value) == CallsTo(lines, n))
    && r.lastDepth == DepthBefore(lines, n)
    && |r.calls| == CallsTo(lines, n) && |r.order| == RowsTo(lines, n)
  }

  lemma {:induction false} CallsToGrow(lines: seq<Line>, a: nat, b: nat)
    requires a <= b <= |lines|
    ensures CallsTo(lines, a) <= CallsTo(lines, b) && RowsTo(lines, a) <= RowsTo(lines, b)
  {
    if a < b {
      CallsToGrow(lines, a, b - 1);
    }
  }

  lemma {:induction false} StandingNext(lines: seq<Line>, n: nat, r: Reading)
    requires n < |lines| && Standing(lines, n, r)
    ensures Standing(lines, n + 1, ReadLine(lines, n, r))
  {
    var p := ProcessBefore(lines, n);
    if p.Some? {
      CallsToGrow(lines, p.value, n);
    }
    hide LastBelow, FirstText;
  }

  /** Processes are only added, so a call's stays what it is. */
  lemma {:induction false} ReadLineAdds(lines: seq<Line>, n: nat, r: Reading)
    requires n < |lines|
    ensures var next := ReadLine(lines, n, r); r.processes <= next.processes && r.calls <= next.calls && r.order <= next.order
  {
    hide LastBelow, FirstText;
  }

  lemma {:induction false} StandingAt(lines: seq<Line>, n: nat)
    requires n <= |lines|
    ensures Standing(lines, n, Read(lines, n))
  {
    if n > 0 {
      StandingAt(lines, n - 1);
      hide Standing, ReadLine;
      StandingNext(lines, n - 1, Read(lines, n - 1));
    }
  }

  lemma {:induction false} ReadAdds(lines: seq<Line>, k: nat, n: nat)
    requires k <= n <= |lines|
    ensures var a, b := Read(lines, k), Read(lines, n); a.processes <= b.processes && a.calls <= b.calls && a.order <= b.order
  {
    if k < n {
      ReadAdds(lines, k, n - 1);
      ReadLineAdds(lines, n - 1, Read(lines, n - 1));
      hide ReadLine;
    }
  }

  lemma {:induction false} LineIsRead(lines: seq<Line>, k: nat)
    requires k < |lines|
    ensures var r := Read(lines, k + 1);
            && (IsCallAt(lines, k) ==> CallsTo(lines, k) < |r.calls| && CallFits(lines, k, r.processes, r.calls[CallsTo(lines, k)])
                                       && RowsTo(lines, k) < |r.order| && r.order[RowsTo(lines, k)] == CallAt(CallsTo(lines, k)))
            && (lines[k].Hop? ==> RowsTo(lines, k) < |r.order| && r.order[RowsTo(lines, k)] == HopAt(lines[k].text, k + 1))
  {
    StandingAt(lines, k);
    hide LastBelow, FirstText, Read;
    assert Read(lines, k + 1) == ReadLine(lines, k, Read(lines, k)) by {
      ReadUnfolds(lines, k);
    }
  }

  lemma {:induction false} ReadUnfolds(lines: seq<Line>, k: nat)
    requires k < |lines|
    ensures Read(lines, k + 1) == ReadLine(lines, k, Read(lines, k))
  {
  }

  /**
   Whatever the lines: each call that has its process becomes the next call, with the depth, name, place
   and note of its line, of the process last named, starting a lane when it is the first since;
   each such call and each hop becomes the next row; and there are no other calls and rows.
   */
  lemma {:induction false} CallsAreTheLines(lines: seq<Line>, k: nat)
    requires k < |lines|
    ensures var r := Read(lines, |lines|);
            && |r.calls| == CallsTo(lines, |lines|) && |r.order| == RowsTo(lines, |lines|)
            && (IsCallAt(lines, k) ==> CallsTo(lines, k) < |r.calls| && CallFits(lines, k, r.processes, r.calls[CallsTo(lines, k)])
                                       && RowsTo(lines, k) < |r.order| && r.order[RowsTo(lines, k)] == CallAt(CallsTo(lines, k)))
            && (lines[k].Hop? ==> RowsTo(lines, k) < |r.order| && r.order[RowsTo(lines, k)] == HopAt(lines[k].text, k + 1))
  {
    StandingAt(lines, |lines|);
    LineIsRead(lines, k);
    ReadAdds(lines, k + 1, |lines|);
    hide Read, IsCallAt, CallsTo, RowsTo;
    var a, b := Read(lines, k + 1), Read(lines, |lines|);
    if IsCallAt(lines, k) {
      assert b.calls[CallsTo(lines, k)] == a.calls[CallsTo(lines, k)];
    }
  }

  /** And so the rows of the parsed tree are, in order, those of the calls and hops. */
  lemma {:induction false} RowsAreTheLines(lines: seq<Line>, k: nat)
    requires k < |lines|
    ensures var tree := Parsed(lines);
            && |tree.rows| == RowsTo(lines, |lines|)
            && (IsCallAt(lines, k) ==>
                  RowsTo(lines, k) < |tree.rows| && var row := tree.rows[RowsTo(lines, k)]; row.CallRow? && CallFits(lines, k, tree.processes, row.call))
            && (lines[k].Hop? ==>
                  RowsTo(lines, k) < |tree.rows| && var row := tree.rows[RowsTo(lines, k)]; row.HopRow? && row.text == lines[k].text && row.sourceLine == k + 1)
  {
    var r := Read(lines, |lines|);
    ReadIsSound(lines, |lines|);
    CallsAreTheLines(lines, k);
    hide Read, IsCallAt, CallsTo, RowsTo;
    if IsCallAt(lines, k) {
      RowIs(r.order, Finish(r.calls), RowsTo(lines, k));
    }
  }

  /** The names are those of the process lines before `n`, each once. */
  ghost predicate Names(lines: seq<Line>, n: nat, processes: seq<string>)
    requires n <= |lines|
  {
    && (forall i, j :: 0 <= i < j < |processes| ==> processes[i] != processes[j])
    && forall name :: name in processes <==> exists k :: 0 <= k < n && lines[k] == Process(name)
  }

  lemma {:induction false} IndexOfFinds(names: seq<string>, name: string)
    ensures IndexOf(names, name) < |names| <==> name in names
  {
    if names != [] && names[0] != name {
      IndexOfFinds(names[1..], name);
      assert names == [names[0]] + names[1..];
    }
  }

  /** Each process is listed once, however often it is named. */
  lemma {:induction false} ProcessesAreNamed(lines: seq<Line>, n: nat)
    requires n <= |lines|
    ensures Names(lines, n, Read(lines, n).processes)
  {
    if n > 0 {
      ProcessesAreNamed(lines, n - 1);
      var before := Read(lines, n - 1).processes;
      if lines[n - 1].Process? {
        IndexOfFinds(before, lines[n - 1].name);
      }
      ProcessesNext(lines, n - 1);
      hide Read;
      NamesNext(lines, n - 1, before, Read(lines, n).processes);
    }
  }

  lemma {:induction false} ProcessesNext(lines: seq<Line>, n: nat)
    requires n < |lines|
    ensures var before := Read(lines, n).processes;
            Read(lines, n + 1).processes ==
            if lines[n].Process? && IndexOf(before, lines[n].name) == |before| then before + [lines[n].name] else before
  {
    hide LastBelow, FirstText;
  }

  lemma {:induction false} NamesNext(lines: seq<Line>, n: nat, before: seq<string>, after: seq<string>)
    requires n < |lines| && Names(lines, n, before)
    requires after == if lines[n].Process? && lines[n].name !in before then before + [lines[n].name] else before
    ensures Names(lines, n + 1, after)
  {
    forall name ensures name in after <==> exists k :: 0 <= k < n + 1 && lines[k] == Process(name) {
      if k :| 0 <= k < n + 1 && lines[k] == Process(name) {
        assert k < n ==> name in before;
      }
    }
  }

  lemma {:induction false} MistakesNext(lines: seq<Line>, n: nat, at: nat, mistake: Mistake)
    requires n < |lines|
    ensures (at, mistake) in Read(lines, n + 1).errors <==> (at, mistake) in Read(lines, n).errors || (at == n + 1 && IsMistake(lines, n, mistake))
  {
    StandingAt(lines, n);
    ReadUnfolds(lines, n);
    hide LastBelow, FirstText, Read;
  }

  lemma {:induction false} MistakesTo(lines: seq<Line>, n: nat, at: nat, mistake: Mistake)
    requires n <= |lines|
    ensures (at, mistake) in Read(lines, n).errors <==> 0 < at <= n && IsMistake(lines, at - 1, mistake)
  {
    if n > 0 {
      MistakesTo(lines, n - 1, at, mistake);
      MistakesNext(lines, n - 1, at, mistake);
      hide Read;
    }
  }

  /** The mistakes are exactly those of the lines, each at its line. */
  lemma {:induction false} MistakesAreTheLines(lines: seq<Line>, at: nat, mistake: Mistake)
    ensures (at, mistake) in Parsed(lines).errors <==> 0 < at <= |lines| && IsMistake(lines, at - 1, mistake)
  {
    MistakesTo(lines, |lines|, at, mistake);
  }

  // The passes as the code makes them

  method FindParent(calls: seq<CallInfo>, depth: nat) returns (parent: Option<nat>)
    ensures parent == LastBelow(Depths(calls), |calls|, depth)
  {
    var n: nat := |calls|;
    while n > 0 && calls[n - 1].depth >= depth
      invariant n <= |calls| && LastBelow(Depths(calls), n, depth) == LastBelow(Depths(calls), |calls|, depth)
    {
      n := n - 1;
    }
    parent := if n == 0 then None else Some(n - 1);
  }

  method FindProcess(processes: seq<string>, name: string) returns (known: nat)
    ensures known == IndexOf(processes, name)
  {
    known := 0;
    while known < |processes| && processes[known] != name
      invariant known <= |processes| && IndexOf(processes, name) == known + IndexOf(processes[known..], name)
    {
      known := known + 1;
    }
  }

  method NextText(lines: seq<Line>, from: nat) returns (next: Option<Line>)
    requires from <= |lines|
    ensures next == FirstText(lines[from..])
  {
    var i := from;
    while i < |lines| && lines[i].Blank?
      invariant i <= |lines| && FirstText(lines[from..]) == FirstText(lines[i..])
    {
      i := i + 1;
    }
    next := if i < |lines| then Some(lines[i]) else None;
  }

  method ReadLines(lines: seq<Line>) returns (r: Reading)
    ensures r == Read(lines, |lines|)
  {
    r := START;
    for index := 0 to |lines|
      invariant r == Read(lines, index)
    {
      var at := index + 1;
      match lines[index] {
        case Blank =>
        case Bad => r := r.(errors := r.errors + [(at, BadLine)]);
        case Process(name) =>
          var known := FindProcess(r.processes, name);
          if known == |r.processes| {
            r := r.(processes := r.processes + [name]);
          }
          r := r.(process := Some(known), laneOpen := true);
        case Hop(text) =>
          var next := NextText(lines, index + 1);
          if next.None? || !next.value.Process? {
            r := r.(errors := r.errors + [(at, HopNeedsProcess)]);
          }
          r := r.(order := r.order + [HopAt(text, at)]);
        case Call(indent, name, path, line, note) =>
          if r.process.None? {
            r := r.(errors := r.errors + [(at, CallBeforeProcess)]);
            continue;
          }
          if indent % 2 != 0 {
            r := r.(errors := r.errors + [(at, OddIndent)]);
          }
          var depth := indent / 2;
          if depth > if r.lastDepth.Some? then r.lastDepth.value + 1 else 0 {
            r := r.(errors := r.errors + [(at, IndentJump)]);
          }
          var parent := FindParent(r.calls, depth);
          var call := CallInfo(r.process.value, depth, name, path, line, note, parent, None, r.laneOpen, [], at);
          r := r.(lastDepth := Some(depth), calls := r.calls + [call], laneOpen := false, order := r.order + [CallAt(|r.calls|)]);
      }
    }
  }

  method CountSiblings(calls: seq<CallInfo>, i: nat) returns (earlier: nat, all: nat, later: bool)
    requires i < |calls| && ParentsSound(calls, Depths(calls))
    ensures earlier == SiblingsBefore(Depths(calls), i, i) && all == SiblingsBefore(Depths(calls), i, |calls|)
    ensures later == Later(Depths(calls), i)
  {
    ghost var depths := Depths(calls);
    earlier, all, later := 0, 0, false;
    assert ParentSound(calls, depths, i);
    for s := 0 to |calls|
      invariant all == SiblingsBefore(depths, i, s)
      invariant earlier == SiblingsBefore(depths, i, if s < i then s else i)
      invariant later == exists t :: i < t < s && Parent(depths, t) == Parent(depths, i)
    {
      assert ParentSound(calls, depths, s);
      if calls[s].parent == calls[i].parent {
        all := all + 1;
        earlier := if s < i then earlier + 1 else earlier;
        later := later || s > i;
      }
    }
  }

  /** Call `i`, its parent, its parent's parent, and so on. */
  function Path(depths: seq<nat>, i: nat): seq<nat>
    requires i < |depths|
    decreases i
  {
    LastBelowIsLast(depths, i, depths[i]);
    [i] + match Parent(depths, i) case None => [] case Some(p) => Path(depths, p)
  }

  lemma PathUnfolds(calls: seq<CallInfo>, depths: seq<nat>, i: nat)
    requires ParentSound(calls, depths, i)
    ensures calls[i].parent.None? ==> Path(depths, i) == [i]
    ensures calls[i].parent.Some? ==> calls[i].parent.value < i && Path(depths, i) == [i] + Path(depths, calls[i].parent.value)
  {
    LastBelowIsLast(depths, i, depths[i]);
  }

  method WalkUp(calls: seq<CallInfo>, i: nat) returns (path: seq<nat>)
    requires i < |calls| && ParentsSound(calls, Depths(calls))
    ensures path == Path(Depths(calls), i)
  {
    ghost var depths := Depths(calls);
    var at: nat := i;
    ghost var above := [];
    path := [i];
    while calls[at].parent.Some?
      invariant at < |calls| && path == above + [at] && above + Path(depths, at) == Path(depths, i)
      decreases at
    {
      PathUnfolds(calls, depths, at);
      var next := calls[at].parent.value;
      ConcatAssoc(above, [at], Path(depths, next));
      above, at := above + [at], next;
      path := path + [at];
    }
    PathUnfolds(calls, depths, at);
  }

  lemma {:induction false} PathFinds(depths: seq<nat>, i: nat, level: nat, at: nat)
    requires i < |depths| && at <= |Path(depths, i)|
    requires forall k :: 0 <= k < at ==> Path(depths, i)[k] < |depths| && depths[Path(depths, i)[k]] != level
    ensures at == |Path(depths, i)| ==> AncestorAt(depths, i, level).None?
    ensures at < |Path(depths, i)| ==> Path(depths, i)[at] < |depths|
    ensures at < |Path(depths, i)| && depths[Path(depths, i)[at]] == level ==> AncestorAt(depths, i, level) == Some(Path(depths, i)[at])
    decreases i
  {
    LastBelowIsLast(depths, i, depths[i]);
    if at > 0 {
      assert Path(depths, i)[0] == i;
      if Parent(depths, i).Some? {
        var p := Parent(depths, i).value;
        assert forall k :: 0 <= k < |Path(depths, p)| ==> Path(depths, p)[k] == Path(depths, i)[k + 1];
        PathFinds(depths, p, level, at - 1);
      }
    }
  }

  /** The call at a level, on the way up from `i`. */
  method FindOnPath(calls: seq<CallInfo>, i: nat, path: seq<nat>, level: nat) returns (found: Option<nat>)
    requires i < |calls| && path == Path(Depths(calls), i)
    ensures found == AncestorAt(Depths(calls), i, level)
    ensures found.Some? ==> found.value < |calls|
  {
    ghost var depths := Depths(calls);
    var at := 0;
    PathFinds(depths, i, level, 0);
    while at < |path|
      invariant at <= |path| && forall k :: 0 <= k < at ==> path[k] < |depths| && depths[path[k]] != level
      invariant at < |path| ==> path[at] < |calls|
    {
      PathFinds(depths, i, level, at);
      if calls[path[at]].depth == level {
        return Some(path[at]);
      }
      at := at + 1;
      PathFinds(depths, i, level, at);
    }
    PathFinds(depths, i, level, at);
    found := None;
  }

  method DrawGuide(calls: seq<CallInfo>, i: nat, path: seq<nat>, column: nat) returns (guide: Guide)
    requires i < |calls| && ParentsSound(calls, Depths(calls)) && path == Path(Depths(calls), i)
    ensures guide == GuideAt(Depths(calls), i, column)
  {
    var found := FindOnPath(calls, i, path, column + 1);
    hide AncestorAt, Later, Path, ParentsSound;
    guide := NoGuide;
    if found.Some? {
      var node := found.value;
      var _, _, later := CountSiblings(calls, node);
      guide := if node == i then if later then Tee else End else if later then Through else NoGuide;
    }
  }

  method DrawGuides(calls: seq<CallInfo>, i: nat) returns (guides: seq<Guide>)
    requires i < |calls| && ParentsSound(calls, Depths(calls))
    ensures guides == Guides(Depths(calls), i)
  {
    ghost var depths := Depths(calls);
    var path := WalkUp(calls, i);
    guides := [];
    hide GuideAt, Path, ParentsSound;
    for column := 0 to calls[i].depth
      invariant |guides| == column && forall k :: 0 <= k < column ==> guides[k] == GuideAt(depths, i, k)
    {
      var guide := DrawGuide(calls, i, path, column);
      guides := guides + [guide];
    }
  }

  method FinishCalls(calls: seq<CallInfo>) returns (finished: seq<CallInfo>)
    requires ParentsSound(calls, Depths(calls))
    ensures finished == Finish(calls)
  {
    finished := [];
    for i := 0 to |calls|
      invariant |finished| == i && forall k :: 0 <= k < i ==> finished[k] == Finish(calls)[k]
    {
      var earlier, all, _ := CountSiblings(calls, i);
      var guides := DrawGuides(calls, i);
      assert ParentSound(calls, Depths(calls), i);
      var number := if calls[i].parent.Some? && all > 1 then Some(earlier + 1) else None;
      finished := finished + [calls[i].(number := number, guides := guides)];
    }
  }

  /** The guides that pass through a hop row: those of the next call. */
  method HopGuides(order: seq<Item>, calls: seq<CallInfo>, p: nat) returns (guides: seq<Guide>)
    requires p <= |order| && forall item <- order :: item.CallAt? ==> item.index < |calls|
    ensures var next := NextCall(order, p);
            if next.None? then guides == [] else next.value < |calls| && guides == Passing(calls[next.value].guides)
  {
    var q := p;
    while q < |order| && order[q].HopAt?
      invariant p <= q <= |order| && NextCall(order, q) == NextCall(order, p)
    {
      q := q + 1;
    }
    guides := if q < |order| then Passing(calls[order[q].index].guides) else [];
  }

  method DrawRows(order: seq<Item>, calls: seq<CallInfo>) returns (rows: seq<Row>)
    requires forall item <- order :: item.CallAt? ==> item.index < |calls|
    ensures rows == Rows(order, calls)
  {
    rows := [];
    for p := 0 to |order|
      invariant |rows| == p && forall k :: 0 <= k < p ==> rows[k] == RowAt(order, calls, k)
    {
      match order[p] {
        case CallAt(index) => rows := rows + [CallRow(calls[index])];
        case HopAt(text, line) =>
          var guides := HopGuides(order, calls, p + 1);
          rows := rows + [HopRow(text, guides, line)];
      }
    }
  }

  method Parse(lines: seq<Line>) returns (tree: Tree)
    ensures tree == Parsed(lines)
  {
    var r := ReadLines(lines);
    ReadIsSound(lines, |lines|);
    var calls := FinishCalls(r.calls);
    var rows := DrawRows(r.order, calls);
    tree := Tree(r.processes, rows, r.errors);
  }
}
