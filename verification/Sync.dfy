/**
 Installing the agents' skills: what is shipped, what was installed last (the record, and a
 base copy beside it) and what is on disk now decide what happens to each path. Digests are
 taken as injective, and `git merge-file` is any partial function of its three inputs.
 Each path stands for itself: folders above it are not part of the model.
 */
module Sync {
  import opened Prelude

  type Path = string
  type Content = string
  type Merge = (Content, Content, Content) -> Option<Content>

  /** What is at a path. A file may be unreadable; `through` is what reading a link gives, if anything. */
  datatype Node = File(content: Content, readable: bool) | Link(target: string, through: Option<Content>) | Folder

  /** What the record and the comparisons know a node by. */
  datatype Mark = OfFile(content: Content) | OfLink(target: string) | OfFolder

  datatype Want = WantFile(content: Content) | WantLink(target: string) {
    function ToMark(): Mark {
      if WantFile? then OfFile(content) else OfLink(target)
    }

    function Written(): Node {
      if WantFile? then File(content, true) else Link(target, None)
    }
  }

  datatype Step = Same | New | Update | Merged(content: Content) | Conflict | Yours | Theirs | Drop | Nothing

  /** All there is about one path: the node, the base copy, and what the record says. */
  datatype Cell = Cell(node: Option<Node>, base: Option<Content>, recorded: Option<Mark>)

  /** What goes wrong at a path: its write, perhaps after the old node was removed, or its base copy's. */
  datatype Trouble = NoTrouble | WriteFails(removed: bool) | BaseFails

  // One path

  function Current(node: Option<Node>): Option<Mark> {
    match node
    case None => None
    case Some(File(content, readable)) => if readable then Some(OfFile(content)) else None
    case Some(Link(target, _)) => Some(OfLink(target))
    case Some(Folder) => Some(OfFolder)
  }

  function Reading(node: Option<Node>): Option<Content> {
    match node
    case Some(File(content, true)) => Some(content)
    case Some(Link(_, through)) => through
    case _ => None
  }

  function Decide(cell: Cell, want: Option<Want>, force: bool, merge: Merge): Step {
    var now := Current(cell.node);
    if want.None? then
      if cell.recorded.None? then Nothing else if now == cell.recorded then Drop else Theirs
    else
      var mark := want.value.ToMark();
      if now == Some(mark) then Same
      else if now.None? then if cell.recorded.None? then New else Update
      else if now == cell.recorded then Update
      else if cell.recorded == Some(mark) && !force then Yours
      else if force && cell.node != Some(Folder) then Update
      else if cell.recorded.None? then Theirs
      else
        var mine := Reading(cell.node);
        if want.value.WantFile? && mine.Some? && cell.base.Some? then
          var merged := merge(mine.value, cell.base.value, want.value.content);
          if merged.Some? then Merged(merged.value) else Conflict
        else Theirs
  }

  /** The cell once its want is kept: recorded, with a file's content as the base copy. */
  function Keep(cell: Cell, want: Want): Cell {
    Cell(cell.node, if want.WantFile? then Some(want.content) else cell.base, Some(want.ToMark()))
  }

  predicate KeepFails(cell: Cell, want: Want, trouble: Trouble) {
    want.WantFile? && cell.base != Some(want.content) && trouble.BaseFails?
  }

  /** What carrying a step out makes of a cell, and whether it went well. */
  function Carry(cell: Cell, want: Option<Want>, step: Step, trouble: Trouble): (Cell, bool) {
    if step.Same? && want.Some? then
      if KeepFails(cell, want.value, trouble) then (cell, false) else (Keep(cell, want.value), true)
    else if (step.New? || step.Update?) && want.Some? then
      if trouble.WriteFails? then (if trouble.removed then cell.(node := None) else cell, false)
      else
        var written := cell.(node := Some(want.value.Written()));
        if KeepFails(cell, want.value, trouble) then (written, false) else (Keep(written, want.value), true)
    else if step.Merged? && want.Some? then
      if trouble.WriteFails? then (cell, false)
      else
        var written := cell.(node := Some(File(step.content, true)));
        if KeepFails(cell, want.value, trouble) then (written, false) else (Keep(written, want.value), true)
    else if step.Theirs? then (cell.(recorded := None, base := None), true)
    else if step.Drop? then (Cell(None, None, None), true)
    else (cell, true)
  }

  function Synced(cell: Cell, want: Option<Want>, force: bool, merge: Merge, trouble: Trouble): (Cell, bool) {
    Carry(cell, want, Decide(cell, want, force, merge), trouble)
  }

  // All paths

  /** What the installer is given: what is shipped, and what goes wrong. `order` lists every path once. */
  datatype Job = Job(wanted: map<Path, Want>, force: bool, merge: Merge, trouble: map<Path, Trouble>, settingsFail: bool) {
    function WantAt(path: Path): Option<Want> {
      if path in wanted then Some(wanted[path]) else None
    }

    function TroubleAt(path: Path): Trouble {
      if path in trouble then trouble[path] else NoTrouble
    }

    function StepAt(cell: Cell, path: Path): Step {
      Decide(cell, WantAt(path), force, merge)
    }

    function ResultAt(cell: Cell, path: Path): (Cell, bool) {
      Synced(cell, WantAt(path), force, merge, TroubleAt(path))
    }
  }

  datatype Report = Report(written: seq<Path>, conflicts: seq<Path>, kept: seq<Path>)

  function AddTo(report: Report, path: Path, step: Step): Report {
    match step
    case New => report.(written := report.written + [path])
    case Update => report.(written := report.written + [path])
    case Merged(_) => report.(written := report.written + [path])
    case Drop => report.(written := report.written + [path])
    case Conflict => report.(conflicts := report.conflicts + [path])
    case Theirs => report.(kept := report.kept + [path])
    case _ => report
  }

  function ReportOf(cells: Path -> Cell, job: Job, order: seq<Path>): Report {
    if order == [] then Report([], [], [])
    else
      var path := order[|order| - 1];
      AddTo(ReportOf(cells, job, order[..|order| - 1]), path, job.StepAt(cells(path), path))
  }

  predicate Once(order: seq<Path>) {
    forall i, j :: 0 <= i < j < |order| ==> order[i] != order[j]
  }

  /** What taking the skills away leaves of a path. */
  function Removed(cell: Cell): Cell {
    if cell.recorded.None? then cell
    else Cell(if Current(cell.node) == cell.recorded then None else cell.node, None, None)
  }

  /** How far a sync gets: past every path that goes well, up to the first that doesn't. */
  ghost predicate StoppedAt(cells: Path -> Cell, job: Job, order: seq<Path>, stopped: nat) {
    && stopped <= |order|
    && (forall k :: 0 <= k < stopped ==> job.ResultAt(cells(order[k]), order[k]).1)
    && (stopped < |order| ==> !job.ResultAt(cells(order[stopped]), order[stopped]).1)
  }

  /** What a sync that stopped there leaves of a path: the record is only replaced at the end. */
  function Outcome(job: Job, order: seq<Path>, stopped: nat, cell: Cell, path: Path): Cell
    requires stopped <= |order|
  {
    var touched := path in order[..stopped] || (stopped < |order| && path == order[stopped]);
    var result := if touched then job.ResultAt(cell, path).0 else cell;
    if stopped == |order| && !job.settingsFail then result else result.(recorded := cell.recorded)
  }

  function Lookup<T>(m: map<Path, T>, path: Path): Option<T> {
    if path in m then Some(m[path]) else None
  }

  /** Only `path` differs between two states of the disk and the record. */
  ghost predicate Beside(path: Path, nodes0: map<Path, Node>, bases0: map<Path, Content>, files0: map<Path, Mark>,
                   nodes1: map<Path, Node>, bases1: map<Path, Content>, files1: map<Path, Mark>) {
    forall other :: other != path ==>
      CellOf(nodes0, bases0, files0, other) == CellOf(nodes1, bases1, files1, other)
  }

  function Cells(nodes: map<Path, Node>, bases: map<Path, Content>, files: map<Path, Mark>): Path -> Cell {
    path => CellOf(nodes, bases, files, path)
  }

  function CellOf(nodes: map<Path, Node>, bases: map<Path, Content>, files: map<Path, Mark>, path: Path): Cell {
    Cell(Lookup(nodes, path), Lookup(bases, path), Lookup(files, path))
  }

  ghost predicate Planned(cells: Path -> Cell, job: Job, order: seq<Path>, plan: seq<Step>) {
    |plan| == |order| && forall k :: 0 <= k < |order| ==> plan[k] == job.StepAt(cells(order[k]), order[k])
  }

  lemma {:induction false} OutcomeIs(before: Path -> Cell, job: Job, order: seq<Path>, stopped: nat, after: Path -> Cell)
    requires stopped <= |order| && Partly(before, job, order, if stopped < |order| then stopped + 1 else stopped, after)
    ensures forall path :: Outcome(job, order, stopped, before(path), path)
              == after(path).(recorded := if stopped == |order| && !job.settingsFail then after(path).recorded else before(path).recorded)
  {
    hide Decide, Carry, Synced;
    if stopped < |order| {
      assert order[..stopped + 1] == order[..stopped] + [order[stopped]];
    }
  }

  /** The first `k` paths are done, and the others as they were. */
  ghost predicate Partly(before: Path -> Cell, job: Job, order: seq<Path>, k: nat, after: Path -> Cell)
    requires k <= |order|
  {
    forall path :: after(path) == if path in order[..k] then job.ResultAt(before(path), path).0 else before(path)
  }

  lemma {:induction false} OneMorePath(before: Path -> Cell, job: Job, order: seq<Path>, k: nat, now: Path -> Cell, after: Path -> Cell, ok: bool)
    requires Once(order) && k < |order| && Partly(before, job, order, k, now)
    requires (after(order[k]), ok) == Carry(now(order[k]), job.WantAt(order[k]), job.StepAt(before(order[k]), order[k]), job.TroubleAt(order[k]))
    requires forall path :: path != order[k] ==> after(path) == now(path)
    ensures ok == job.ResultAt(before(order[k]), order[k]).1
    ensures Partly(before, job, order, k + 1, after)
  {
    hide Decide, Carry;
    assert order[..k + 1] == order[..k] + [order[k]];
    assert order[k] !in order[..k];
  }

  class Agents {
    var nodes: map<Path, Node>
    var bases: map<Path, Content>
    var record: map<Path, Mark>

    constructor (nodes: map<Path, Node>)
      ensures this.nodes == nodes && bases == map[] && record == map[]
    {
      this.nodes, bases, record := nodes, map[], map[];
    }

    method KeepWant(files: map<Path, Mark>, path: Path, want: Want, trouble: Trouble) returns (kept: map<Path, Mark>, done: bool)
      modifies this`bases
      ensures var cell := CellOf(nodes, old(bases), files, path);
              && done == !KeepFails(cell, want, trouble)
              && CellOf(nodes, bases, kept, path) == (if done then Keep(cell, want) else cell)
      ensures Beside(path, nodes, old(bases), files, nodes, bases, kept)
    {
      kept := files;
      if want.WantFile? && Lookup(bases, path) != Some(want.content) {
        if trouble.BaseFails? {
          return kept, false;
        }
        bases := bases[path := want.content];
      }
      kept := kept[path := want.ToMark()];
      done := true;
    }

    /** Carries out one planned step; `files` is the record as it is being rewritten. */
    method CarryOut(files: map<Path, Mark>, path: Path, want: Option<Want>, step: Step, trouble: Trouble) returns (kept: map<Path, Mark>, done: bool)
      modifies this`nodes, this`bases
      ensures (CellOf(nodes, bases, kept, path), done) == Carry(CellOf(old(nodes), old(bases), files, path), want, step, trouble)
      ensures Beside(path, old(nodes), old(bases), files, nodes, bases, kept)
    {
      kept, done := files, true;
      match step {
        case Same =>
          if want.Some? {
            kept, done := KeepWant(files, path, want.value, trouble);
          }
        case New =>
          if want.Some? {
            done := Write(path, want.value, trouble);
            if done {
              kept, done := KeepWant(files, path, want.value, trouble);
            }
          }
        case Update =>
          if want.Some? {
            done := Write(path, want.value, trouble);
            if done {
              kept, done := KeepWant(files, path, want.value, trouble);
            }
          }
        case Merged(content) =>
          if want.Some? {
            if trouble.WriteFails? {
              return files, false;
            }
            nodes := nodes[path := File(content, true)];
            kept, done := KeepWant(files, path, want.value, trouble);
          }
        case Theirs =>
          kept := files - {path};
          bases := bases - {path};
        case Drop =>
          nodes := nodes - {path};
          kept := files - {path};
          bases := bases - {path};
        case Conflict =>
        case Yours =>
        case Nothing =>
      }
    }

    method Plan(job: Job, order: seq<Path>) returns (plan: seq<Step>)
      ensures Planned(Cells(nodes, bases, record), job, order, plan)
    {
      plan := [];
      for i := 0 to |order|
        invariant |plan| == i && forall k :: 0 <= k < i ==> plan[k] == job.StepAt(CellOf(nodes, bases, record, order[k]), order[k])
      {
        plan := plan + [job.StepAt(CellOf(nodes, bases, record, order[i]), order[i])];
      }
    }

    /** Carries a plan out until something fails; `files` is the rewritten record. */
    method CarryPlan(job: Job, order: seq<Path>, plan: seq<Step>) returns (files: map<Path, Mark>, stopped: nat, report: Report)
      requires Once(order) && Planned(Cells(nodes, bases, record), job, order, plan)
      modifies this`nodes, this`bases
      ensures StoppedAt(Cells(old(nodes), old(bases), old(record)), job, order, stopped)
      ensures Partly(Cells(old(nodes), old(bases), old(record)), job, order, if stopped < |order| then stopped + 1 else stopped, Cells(nodes, bases, files))
      ensures report == ReportOf(Cells(old(nodes), old(bases), old(record)), job, order[..stopped])
    {
      ghost var before := Cells(nodes, bases, record);
      files, report, stopped := record, Report([], [], []), 0;
      hide Decide, Carry, Synced, AddTo, CellOf;
      while stopped < |order|
        invariant stopped <= |order|
        invariant forall k :: 0 <= k < stopped ==> job.ResultAt(before(order[k]), order[k]).1
        invariant Partly(before, job, order, stopped, Cells(nodes, bases, files))
        invariant report == ReportOf(before, job, order[..stopped])
      {
        var path := order[stopped];
        ghost var now := Cells(nodes, bases, files);
        var ok;
        files, ok := CarryOut(files, path, job.WantAt(path), plan[stopped], job.TroubleAt(path));
        OneMorePath(before, job, order, stopped, now, Cells(nodes, bases, files), ok);
        if !ok {
          return;
        }
        assert order[..stopped + 1][..stopped] == order[..stopped];
        report := AddTo(report, path, plan[stopped]);
        stopped := stopped + 1;
      }
    }

    /**
     Plans for every path, then carries the plan out. `order` is the order the two sorted
     maps are walked in; `stopped` is how far it got. Only a whole run saves the record.
     */
    method Sync(job: Job, order: seq<Path>) returns (done: bool, stopped: nat, report: Report)
      requires Once(order) && forall path :: path in order <==> path in record || path in job.wanted
      modifies this
      ensures StoppedAt(Cells(old(nodes), old(bases), old(record)), job, order, stopped)
      ensures done <==> stopped == |order| && !job.settingsFail
      ensures forall path :: CellOf(nodes, bases, record, path) == Outcome(job, order, stopped, CellOf(old(nodes), old(bases), old(record), path), path)
      ensures done ==> report == ReportOf(Cells(old(nodes), old(bases), old(record)), job, order)
    {
      var plan := Plan(job, order);
      var files;
      files, stopped, report := CarryPlan(job, order, plan);
      done := stopped == |order| && !job.settingsFail;
      OutcomeIs(Cells(old(nodes), old(bases), old(record)), job, order, stopped, Cells(nodes, bases, files));
      hide Outcome, Decide, Carry, Synced, StoppedAt, ReportOf;
      if done {
        record := files;
        assert order[..stopped] == order;
      }
      forall path
        ensures CellOf(nodes, bases, record, path) == Outcome(job, order, stopped, CellOf(old(nodes), old(bases), old(record), path), path)
      {
        assert Cells(old(nodes), old(bases), old(record))(path) == CellOf(old(nodes), old(bases), old(record), path);
        assert Cells(nodes, bases, files)(path) == CellOf(nodes, bases, files, path);
      }
    }

    /** Takes the skills away again: what is still as installed goes, what isn't stays. */
    method Remove(order: seq<Path>) returns (kept: seq<Path>)
      requires Once(order) && forall path :: path in order <==> path in record
      modifies this
      ensures forall path :: CellOf(nodes, bases, record, path) == Removed(CellOf(old(nodes), old(bases), old(record), path))
      ensures forall path :: path in kept <==> path in old(record) && Lookup(nodes, path).Some?
    {
      var files := record;
      record, kept := map[], [];
      for i := 0 to |order|
        invariant record == map[]
        invariant forall path :: path in order[..i] ==>
                    CellOf(nodes, bases, record, path) == Removed(CellOf(old(nodes), old(bases), old(record), path))
        invariant forall path :: path !in order[..i] ==> Lookup(nodes, path) == Lookup(old(nodes), path) && Lookup(bases, path) == Lookup(old(bases), path)
        invariant forall path :: path in kept <==> path in order[..i] && Lookup(nodes, path).Some?
      {
        var path := order[i];
        assert order[..i + 1] == order[..i] + [path];
        assert path !in order[..i];
        if Current(Lookup(nodes, path)) == Some(files[path]) {
          nodes := nodes - {path};
        } else if path in nodes {
          kept := kept + [path];
        }
        bases := bases - {path};
      }
      assert order[..|order|] == order;
    }

    method Write(path: Path, want: Want, trouble: Trouble) returns (done: bool)
      modifies this`nodes
      ensures done == !trouble.WriteFails?
      ensures Lookup(nodes, path) == if done then Some(want.Written()) else if trouble.removed then None else Lookup(old(nodes), path)
      ensures forall other :: other != path ==> Lookup(nodes, other) == Lookup(old(nodes), other)
    {
      if trouble.WriteFails? {
        if trouble.removed {
          nodes := nodes - {path};
        }
        return false;
      }
      nodes := nodes[path := want.Written()];
      done := true;
    }
  }

  // Edits

  predicate Unreadable(node: Option<Node>) {
    node.Some? && node.value.File? && !node.value.readable
  }

  /** Something is there that is neither what was installed nor what is shipped. */
  predicate Edited(cell: Cell, want: Option<Want>) {
    && cell.node.Some?
    && (cell.recorded.Some? ==> Current(cell.node) != cell.recorded)
    && (want.Some? ==> Current(cell.node) != Some(want.value.ToMark()))
  }

  /** It is as it was, or the clean merge of it with what is shipped, over the base copy. */
  predicate EditKept(cell: Cell, want: Option<Want>, merge: Merge, after: Option<Node>) {
    || after == cell.node
    || (&& want.Some? && want.value.WantFile? && cell.base.Some? && Reading(cell.node).Some?
        && var merged := merge(Reading(cell.node).value, cell.base.value, want.value.content);
           merged.Some? && after == Some(File(merged.value, true)))
  }

  predicate Reached(order: seq<Path>, stopped: nat, path: Path)
    requires stopped <= |order|
  {
    path in order[..stopped] || (stopped < |order| && path == order[stopped])
  }

  /**
   Without force, however far the sync got and whatever failed, an edit is lost exactly when
   it is in a shipped path's file that can't be read and the write or the removal before it
   was done.
   */
  lemma {:induction false} EditIsKeptIff(job: Job, order: seq<Path>, stopped: nat, cell: Cell, path: Path)
    requires !job.force && stopped <= |order| && Edited(cell, job.WantAt(path))
    ensures EditKept(cell, job.WantAt(path), job.merge, Outcome(job, order, stopped, cell, path).node) <==>
            !(Reached(order, stopped, path) && path in job.wanted && Unreadable(cell.node) && job.TroubleAt(path) != WriteFails(false))
  {
  }

  /** One that is lost: a file the user made unreadable stands where a skill is shipped. */
  lemma {:induction false} UnreadableEditIsLost(merge: Merge)
    ensures var cell := Cell(Some(File("mine", false)), None, None);
            var job := Job(map["a" := WantFile("new")], false, merge, map[], false);
            var after := Outcome(job, ["a"], 1, cell, "a");
            && Edited(cell, job.WantAt("a")) && after.node == Some(File("new", true))
            && !EditKept(cell, job.WantAt("a"), merge, after.node)
  {
    assert ["a"][..1] == ["a"];
  }

  /** With force, a folder in the way still isn't written over. */
  lemma {:induction false} FolderIsNeverReplaced(job: Job, order: seq<Path>, stopped: nat, cell: Cell, path: Path)
    requires stopped <= |order| && cell.node == Some(Folder) && cell.recorded != Some(OfFolder)
    ensures Outcome(job, order, stopped, cell, path).node == cell.node
  {
  }

  // What a whole sync installs

  /** What is shipped stands there, and the record and the base copy name it. */
  predicate Installed(cell: Cell, want: Want) {
    && Current(cell.node) == Some(want.ToMark()) && cell.recorded == Some(want.ToMark())
    && (want.WantFile? ==> cell.base == Some(want.content))
  }

  /** The edit can be merged, with this outcome: it is in a file that was installed and has been shipped anew since. */
  function MergeOf(cell: Cell, want: Want, merge: Merge): Option<Content> {
    if want.WantFile? && cell.recorded.Some? && cell.base.Some? && Reading(cell.node).Some?
    then merge(Reading(cell.node).value, cell.base.value, want.content)
    else None
  }

  /** Whether the path is written over: nothing that can be read stands there, or it is as installed, or force is used and no folder is in the way. */
  predicate WrittenOver(cell: Cell, want: Want, force: bool) {
    !Edited(cell, Some(want)) || Unreadable(cell.node) || (force && cell.node != Some(Folder))
  }

  /** The user edited what is shipped still, and force isn't used. */
  predicate LeftAlone(cell: Cell, want: Want, force: bool) {
    cell.recorded == Some(want.ToMark()) && !force
  }

  /**
   A whole sync installs a shipped path if and only if nobody edited it, or the edit can't be
   read, or it is forced and no folder is in the way, or the merge happens to be what is shipped.
   */
  lemma {:induction false} ShippedIsInstalledIff(job: Job, order: seq<Path>, cell: Cell, path: Path)
    requires path in order && path in job.wanted && job.ResultAt(cell, path).1 && !job.settingsFail
    ensures var want, after := job.wanted[path], Outcome(job, order, |order|, cell, path);
            Installed(after, want) <==>
            || WrittenOver(cell, want, job.force)
            || (want.WantFile? && !LeftAlone(cell, want, job.force) && MergeOf(cell, want, job.merge) == Some(want.content))
  {
    assert order[..|order|] == order;
  }

  /** And then a node that was there already stays, while any other is replaced by a new one. */
  lemma {:induction false} WrittenOverIsNew(job: Job, order: seq<Path>, cell: Cell, path: Path)
    requires path in order && path in job.wanted && job.ResultAt(cell, path).1 && !job.settingsFail
    requires WrittenOver(cell, job.wanted[path], job.force)
    ensures var want, after := job.wanted[path], Outcome(job, order, |order|, cell, path);
            after.node == if Current(cell.node) == Some(want.ToMark()) then cell.node else Some(want.Written())
  {
    assert order[..|order|] == order;
  }

  /**
   What becomes of an edit in a shipped path that isn't written over: it is left alone where
   what is shipped hasn't changed; else merged where that goes cleanly, and then recorded; kept
   as a conflict, to be resolved, where it doesn't; and else kept and given up.
   */
  lemma {:induction false} EditedShippedPath(job: Job, order: seq<Path>, cell: Cell, path: Path)
    requires path in order && path in job.wanted && job.ResultAt(cell, path).1 && !job.settingsFail
    requires !WrittenOver(cell, job.wanted[path], job.force)
    ensures var want, after := job.wanted[path], Outcome(job, order, |order|, cell, path);
            var merged := MergeOf(cell, want, job.merge);
            if LeftAlone(cell, want, job.force) then after == cell
            else if merged.Some? then after == Cell(Some(File(merged.value, true)), Some(want.content), Some(want.ToMark()))
            else if want.WantFile? && cell.recorded.Some? && cell.base.Some? && Reading(cell.node).Some? then after == cell
            else after == Cell(cell.node, None, None)
  {
    assert order[..|order|] == order;
  }

  /** A path no longer shipped is gone exactly when it still is as installed; either way it is recorded no more. */
  lemma {:induction false} UnshippedIsGoneIff(job: Job, order: seq<Path>, cell: Cell, path: Path)
    requires path in order && path !in job.wanted && cell.recorded.Some? && !job.settingsFail
    ensures Outcome(job, order, |order|, cell, path) == Cell(if Current(cell.node) == cell.recorded then None else cell.node, None, None)
  {
    assert order[..|order|] == order;
  }

  /** A path that is neither shipped nor recorded is left alone however far the sync gets. */
  lemma {:induction false} OtherPathsStay(job: Job, order: seq<Path>, stopped: nat, cell: Cell, path: Path)
    requires stopped <= |order| && path !in job.wanted && cell.recorded.None?
    ensures Outcome(job, order, stopped, cell, path) == cell
  {
  }

  lemma {:induction false} ReportHas(cells: Path -> Cell, job: Job, order: seq<Path>, path: Path)
    ensures var report := ReportOf(cells, job, order);
            var step := job.StepAt(cells(path), path);
            && (path in report.written <==> path in order && Writes(step))
            && (path in report.conflicts <==> path in order && step.Conflict?)
            && (path in report.kept <==> path in order && step.Theirs?)
  {
    if order != [] {
      var most, last := order[..|order| - 1], order[|order| - 1];
      ReportHas(cells, job, most, path);
      assert order == most + [last];
      hide Decide;
    }
  }

  /**
   What the report of a whole sync says of a path: written exactly when its node was replaced,
   merged or removed; a conflict exactly when an edit can't be merged; kept exactly when what
   stands there isn't Kanna's and is no longer recorded.
   */
  lemma {:induction false} ReportSaysWhatWasDone(cells: Path -> Cell, job: Job, order: seq<Path>, path: Path)
    requires path in order && job.ResultAt(cells(path), path).1 && !job.settingsFail
    ensures var cell, report, after := cells(path), ReportOf(cells, job, order), Outcome(job, order, |order|, cells(path), path);
            && (path in job.wanted ==>
                  var want := job.wanted[path];
                  var edited := !WrittenOver(cell, want, job.force) && !LeftAlone(cell, want, job.force);
                  && (path in report.written <==> if edited then MergeOf(cell, want, job.merge).Some? else WrittenOver(cell, want, job.force) && Current(cell.node) != Some(want.ToMark()))
                  && (path in report.conflicts <==> edited && after == cell && cell.recorded.Some?)
                  && (path in report.kept <==> edited && after.recorded.None?))
            && (path !in job.wanted ==>
                  && path !in report.conflicts
                  && (path in report.written <==> cell.recorded.Some? && Current(cell.node) == cell.recorded)
                  && (path in report.kept <==> cell.recorded.Some? && Current(cell.node) != cell.recorded))
  {
    ReportHas(cells, job, order, path);
    assert order[..|order|] == order;
  }

  // The record and the base copies

  /** The record of a file names the content of its base copy. */
  predicate NamesBase(cell: Cell) {
    cell.recorded.Some? && cell.recorded.value.OfFile? ==> cell.base == Some(cell.recorded.value.content)
  }

  /** The base copy is replaced by another content, or dropped. */
  predicate BaseMoves(cell: Cell, want: Option<Want>, step: Step) {
    && cell.recorded.Some? && cell.recorded.value.OfFile?
    && (|| step.Theirs? || step.Drop?
        || ((step.Same? || step.New? || step.Update? || step.Merged?) && want.Some? && want.value.WantFile? && want.value.content != cell.recorded.value.content))
  }

  /**
   What happens to a path over time: the user changes it, a whole sync, a sync that stopped,
   having reached the path or not, a conflict resolved by hand, a removal.
   */
  datatype Happening =
    | Changed(node: Option<Node>)
    | WholeSync(want: Option<Want>, force: bool, merge: Merge)
    | StoppedSync(want: Option<Want>, force: bool, merge: Merge, trouble: Trouble, reached: bool)
    | Resolved(content: Content)
    | TakenAway

  function Happens(cell: Cell, h: Happening): Cell {
    match h
    case Changed(node) => cell.(node := node)
    case WholeSync(want, force, merge) => Synced(cell, want, force, merge, NoTrouble).0
    case StoppedSync(want, force, merge, trouble, reached) =>
      if reached then Synced(cell, want, force, merge, trouble).0.(recorded := cell.recorded) else cell
    case Resolved(content) => cell.(base := Some(content), recorded := Some(OfFile(content)))
    case TakenAway => Removed(cell)
  }

  function Life(happenings: seq<Happening>, first: Option<Node>): Cell {
    if happenings == [] then Cell(first, None, None)
    else Happens(Life(happenings[..|happenings| - 1], first), happenings[|happenings| - 1])
  }

  /** The path was done, and its base copy moved, in a sync that stopped later. */
  predicate Breaks(cell: Cell, h: Happening) {
    && h.StoppedSync? && h.reached && Synced(cell, h.want, h.force, h.merge, h.trouble).1
    && BaseMoves(cell, h.want, Decide(cell, h.want, h.force, h.merge))
  }

  /** The record and the base copy are made anew together, or the base copy becomes what the record says. */
  predicate Mends(cell: Cell, h: Happening) {
    match h
    case Changed(_) => false
    case WholeSync(want, force, merge) =>
      var step := Decide(cell, want, force, merge);
      !step.Yours? && !step.Conflict?
    case StoppedSync(want, force, merge, trouble, reached) =>
      var step := Decide(cell, want, force, merge);
      && reached && Synced(cell, want, force, merge, trouble).1
      && (step.Same? || step.New? || step.Update? || step.Merged?)
      && want.Some? && want.value.WantFile? && cell.recorded == Some(OfFile(want.value.content))
    case Resolved(_) => true
    case TakenAway => true
  }

  lemma {:induction false} NamesBaseStep(cell: Cell, h: Happening)
    ensures NamesBase(Happens(cell, h)) <==> Mends(cell, h) || (NamesBase(cell) && !Breaks(cell, h))
  {
  }

  predicate BreaksAt(happenings: seq<Happening>, first: Option<Node>, i: nat) {
    i < |happenings| && Breaks(Life(happenings[..i], first), happenings[i])
  }

  predicate MendsAt(happenings: seq<Happening>, first: Option<Node>, j: nat) {
    j < |happenings| && Mends(Life(happenings[..j], first), happenings[j])
  }

  /** Every break before `n` was mended before `n`. */
  ghost predicate AllMended(happenings: seq<Happening>, first: Option<Node>, n: nat) {
    forall i: nat :: i < n && BreaksAt(happenings, first, i) ==> exists j: nat :: i < j < n && MendsAt(happenings, first, j)
  }

  lemma {:induction false} NamesBaseAt(happenings: seq<Happening>, first: Option<Node>, n: nat)
    requires n <= |happenings|
    ensures NamesBase(Life(happenings[..n], first)) <==> AllMended(happenings, first, n)
  {
    if n > 0 {
      NamesBaseAt(happenings, first, n - 1);
      assert happenings[..n][..n - 1] == happenings[..n - 1];
      NamesBaseStep(Life(happenings[..n - 1], first), happenings[n - 1]);
      assert BreaksAt(happenings, first, n - 1) <==> Breaks(Life(happenings[..n - 1], first), happenings[n - 1]);
      assert MendsAt(happenings, first, n - 1) <==> Mends(Life(happenings[..n - 1], first), happenings[n - 1]);
      hide Breaks, Mends, NamesBase, Happens, BreaksAt, MendsAt;
      MendedOneMore(happenings, first, n);
    }
  }

  lemma {:induction false} NotBoth(happenings: seq<Happening>, first: Option<Node>, n: nat)
    ensures !(BreaksAt(happenings, first, n) && MendsAt(happenings, first, n))
  {
  }

  lemma {:induction false} MendedOneMore(happenings: seq<Happening>, first: Option<Node>, n: nat)
    requires 0 < n <= |happenings|
    ensures AllMended(happenings, first, n) <==>
            MendsAt(happenings, first, n - 1) || (AllMended(happenings, first, n - 1) && !BreaksAt(happenings, first, n - 1))
  {
    NotBoth(happenings, first, n - 1);
    hide BreaksAt, MendsAt;
    if AllMended(happenings, first, n) && !MendsAt(happenings, first, n - 1) {
      forall i: nat | i < n - 1 && BreaksAt(happenings, first, i) ensures exists j: nat :: i < j < n - 1 && MendsAt(happenings, first, j) {
        var j: nat :| i < j < n && MendsAt(happenings, first, j);
      }
    }
  }

  /**
   Over every life the record names its base copy's content if and only if every stopped
   sync that moved the base copy was followed by something that mends that.
   */
  lemma {:induction false} RecordNamesItsBaseIff(happenings: seq<Happening>, first: Option<Node>)
    ensures NamesBase(Life(happenings, first)) <==>
            forall i: nat :: BreaksAt(happenings, first, i) ==> exists j: nat :: i < j && MendsAt(happenings, first, j)
  {
    NamesBaseAt(happenings, first, |happenings|);
    assert happenings[..|happenings|] == happenings;
  }

  /** So where no sync stopped, it always does. */
  lemma {:induction false} RecordNamesItsBase(happenings: seq<Happening>, first: Option<Node>)
    requires forall h <- happenings :: !h.StoppedSync?
    ensures NamesBase(Life(happenings, first))
  {
    RecordNamesItsBaseIff(happenings, first);
    forall i: nat ensures !BreaksAt(happenings, first, i) {
      if i < |happenings| {
        assert happenings[i] in happenings;
      }
    }
  }

  /**
   A sync that stops halfway leaves the old record beside new base copies: it stops naming
   them for exactly the paths that were done and whose base copy moved.
   */
  lemma {:induction false} StoppedSyncNamesBaseIff(job: Job, order: seq<Path>, stopped: nat, cell: Cell, path: Path)
    requires Once(order) && stopped <= |order| && NamesBase(cell)
    requires path in order[..stopped] ==> job.ResultAt(cell, path).1
    requires stopped < |order| && path == order[stopped] ==> !job.ResultAt(cell, path).1
    ensures NamesBase(Outcome(job, order, stopped, cell, path)) <==>
            || (stopped == |order| && !job.settingsFail)
            || path !in order[..stopped]
            || !BaseMoves(cell, job.WantAt(path), job.StepAt(cell, path))
  {
  }

  /** One such path: an update was written and kept, then a later path failed. */
  lemma {:induction false} StoppedSyncForgets(merge: Merge)
    ensures var cell := Cell(Some(File("old", true)), Some("old"), Some(OfFile("old")));
            var job := Job(map["a" := WantFile("new"), "b" := WantFile("x")], false, merge, map["b" := WriteFails(false)], false);
            var after := Outcome(job, ["a", "b"], 1, cell, "a");
            NamesBase(cell) && !NamesBase(after) && after == Cell(Some(File("new", true)), Some("new"), Some(OfFile("old")))
  {
    assert ["a", "b"][..1] == ["a"];
  }

  /** Merging what is shipped over itself gives back the user's text. */
  ghost predicate KeepsMine(merge: Merge) {
    forall mine, base :: merge(mine, base, base) == Some(mine)
  }

  /** Syncing again, with nothing failing this time, makes the record name its base copies again. */
  lemma {:induction false} RetryHeals(job: Job, order: seq<Path>, stopped: nat, cell: Cell, path: Path)
    requires Once(order) && stopped <= |order| && NamesBase(cell) && KeepsMine(job.merge)
    requires path in order[..stopped] ==> job.ResultAt(cell, path).1
    requires stopped < |order| && path == order[stopped] ==> !job.ResultAt(cell, path).1
    ensures NamesBase(Synced(Outcome(job, order, stopped, cell, path), job.WantAt(path), job.force, job.merge, NoTrouble).0)
  {
  }

  // Again

  predicate Writes(step: Step) {
    step.New? || step.Update? || step.Merged? || step.Drop?
  }

  /** Syncing a path again changes nothing about it, and says the same of it as far as it is still shipped. */
  lemma {:induction false} AgainIsTheSame(cell: Cell, want: Option<Want>, force: bool, merge: Merge, trouble: Trouble, later: Trouble)
    requires Synced(cell, want, force, merge, trouble).1
    ensures var after := Synced(cell, want, force, merge, trouble).0;
            var step, again := Decide(cell, want, force, merge), Decide(after, want, false, merge);
            && !Writes(again)
            && Synced(after, want, false, merge, later) == (after, true)
            && (again.Conflict? <==> step.Conflict?)
            && (again.Theirs? <==> step.Theirs? && want.Some?)
  {
  }

  /** The report of a second sync: nothing written, the same conflicts, and of the kept files those still shipped. */
  lemma {:induction false} SecondSyncRepeats(cells: Path -> Cell, job: Job, order: seq<Path>, later: map<Path, Trouble>)
    requires forall path <- order :: job.ResultAt(cells(path), path).1
    ensures var after := (path: Path) => job.ResultAt(cells(path), path).0;
            var first, second := ReportOf(cells, job, order), ReportOf(after, job.(force := false, trouble := later), order);
            && second.written == []
            && second.conflicts == first.conflicts
            && second.kept == Filter(ShippedIn(job.wanted), first.kept)
  {
    if order != [] {
      var most, path := order[..|order| - 1], order[|order| - 1];
      assert path in order && forall p <- most :: p in order;
      SecondSyncRepeats(cells, job, most, later);
      var after := (path: Path) => job.ResultAt(cells(path), path).0;
      AgainIsTheSame(cells(path), job.WantAt(path), job.force, job.merge, job.TroubleAt(path), NoTrouble);
      RepeatsOne(job.wanted, ReportOf(cells, job, most), ReportOf(after, job.(force := false, trouble := later), most), path,
                 job.StepAt(cells(path), path), Decide(after(path), job.WantAt(path), false, job.merge));
    }
  }

  function ShippedIn(wanted: map<Path, Want>): Path -> bool {
    path => path in wanted
  }

  lemma {:induction false} RepeatsOne(wanted: map<Path, Want>, first: Report, second: Report, path: Path, step: Step, again: Step)
    requires second.written == [] && second.conflicts == first.conflicts && second.kept == Filter(ShippedIn(wanted), first.kept)
    requires !Writes(again) && (again.Conflict? <==> step.Conflict?) && (again.Theirs? <==> step.Theirs? && path in wanted)
    ensures var f, s := AddTo(first, path, step), AddTo(second, path, again);
            s.written == [] && s.conflicts == f.conflicts && s.kept == Filter(ShippedIn(wanted), f.kept)
  {
    assert (first.kept + [path])[..|first.kept|] == first.kept;
    assert second.kept + [] == second.kept;
  }

  /**
   Removing right after a first, unforced sync gives a path back as it was, except where
   what is shipped was already there, or an unreadable file was.
   */
  lemma {:induction false} RemoveUndoesFirstSyncIff(cell: Cell, want: Option<Want>, merge: Merge)
    requires cell.recorded.None? && cell.base.None?
    ensures Removed(Synced(cell, want, false, merge, NoTrouble).0) == cell <==>
            !(want.Some? && cell.node.Some? && (Current(cell.node) == Some(want.value.ToMark()) || Unreadable(cell.node)))
  {
  }
}
