/**
 Giving old tasks their new IDs, and taking a saved backlog into the task database. The
 two tables are sequences in the order their rows were inserted. Randomness is a list of
 draws: one is used up for each ID made, and an empty list is a random source that can't
 be read.
 */
module Renumber {
  import opened Prelude

  type Draw = n: nat | n < 0x1_0000_0000

  datatype Value = Null | Text(text: string) | List(items: seq<Value>) | Scalar

  type Doc = map<string, Value>

  datatype Place = Shelf | Desk | Done

  datatype Task = Task(id: string, repo: string, place: Place, terminal: Option<string>, madeAt: real, doc: Doc)

  datatype Event = Event(task: string, at: real, what: string, from: Option<Place>, to: Option<Place>, actor: Option<string>, doc: Doc)

  /** `nextTask` is whether the old counter is still kept. */
  datatype Db = Db(tasks: seq<Task>, events: seq<Event>, nextTask: bool)

  datatype Pair = Pair(before: string, given: string)

  // IDs

  const TASK: string := "task-"

  predicate IsHex(c: char) {
    '0' <= c <= '9' || 'a' <= c <= 'f'
  }

  predicate IsTaskId(id: string) {
    |id| == |TASK| + 8 && id[..|TASK|] == TASK && forall c <- id[|TASK|..] :: IsHex(c)
  }

  predicate IsDigit(c: char) {
    '0' <= c <= '9'
  }

  /** The old form: a "t" and a number. */
  predicate Legacy(id: string) {
    |id| > 1 && id[0] == 't' && forall c <- id[1..] :: IsDigit(c)
  }

  function HexDigit(n: nat): char
    requires n < 16
  {
    "0123456789abcdef"[n]
  }

  function Hex(n: nat, width: nat): (s: string)
    ensures |s| == width && forall c <- s :: IsHex(c)
  {
    if width == 0 then "" else Hex(n / 16, width - 1) + [HexDigit(n % 16)]
  }

  function RandomId(n: Draw): (id: string)
    ensures IsTaskId(id)
  {
    var id := TASK + Hex(n, 8);
    assert id[|TASK|..] == Hex(n, 8);
    id
  }

  lemma {:induction false} SecondLetter(id: string)
    requires IsTaskId(id)
    ensures id[1] == 'a'
  {
    assert id[1] == id[..|TASK|][1];
  }

  lemma {:induction false} LegacyIsNoTaskId(id: string)
    requires Legacy(id)
    ensures !IsTaskId(id)
  {
    assert id[1] in id[1..];
    if IsTaskId(id) {
      SecondLetter(id);
    }
  }

  /** The last component of a path, if it names something. */
  function FileName(path: string): Option<string>
    decreases |path|
  {
    if path == "" then None
    else
      var start := NameStart(path);
      var name := path[start..];
      if name == "" then FileName(path[..|path| - 1])
      else if name == "." then FileName(path[..start])
      else if name == ".." then None
      else Some(name)
  }

  function NameStart(path: string): (start: nat)
    ensures start <= |path| && '/' !in path[start..] && (start > 0 ==> path[start - 1] == '/')
  {
    if path == "" || path[|path| - 1] == '/' then |path|
    else
      var start := NameStart(path[..|path| - 1]);
      assert path[start..] == path[..|path| - 1][start..] + [path[|path| - 1]];
      start
  }

  // Renaming, one ID at a time and all at once

  function Rename(names: map<string, string>, id: string): string {
    if id in names then names[id] else id
  }

  function RenameTasks(names: map<string, string>, tasks: seq<Task>): seq<Task> {
    seq(|tasks|, i requires 0 <= i < |tasks| => tasks[i].(id := Rename(names, tasks[i].id)))
  }

  function RenameEvents(names: map<string, string>, events: seq<Event>): seq<Event> {
    seq(|events|, i requires 0 <= i < |events| => events[i].(task := Rename(names, events[i].task)))
  }

  /** A blocker list in the new IDs: what has no new ID and isn't one is dropped. */
  function Followed(names: map<string, string>, after: seq<Value>): seq<Value> {
    if after == [] then []
    else
      var last := after[|after| - 1];
      Followed(names, after[..|after| - 1])
      + if last.Text? && last.text in names then [Text(names[last.text])]
        else if last.Text? && IsTaskId(last.text) then [last]
        else []
  }

  function FollowDoc(names: map<string, string>, doc: Doc): Doc {
    if "after" in doc && doc["after"].List? then doc["after" := List(Followed(names, doc["after"].items))] else doc
  }

  function FollowTasks(names: map<string, string>, tasks: seq<Task>): seq<Task> {
    seq(|tasks|, i requires 0 <= i < |tasks| => tasks[i].(doc := FollowDoc(names, tasks[i].doc)))
  }

  function FollowEvents(names: map<string, string>, events: seq<Event>): seq<Event> {
    seq(|events|, i requires 0 <= i < |events| => events[i].(doc := FollowDoc(names, events[i].doc)))
  }

  // Choosing the new IDs

  /** A folder the query can't read as text fails the whole run. */
  predicate BadFolder(t: Task) {
    "folder" in t.doc && t.doc["folder"].Scalar?
  }

  /** The name of the task's folder. A folder that isn't text comes as JSON, whose last name is never a task ID. */
  function FolderName(t: Task): Option<string> {
    if "folder" in t.doc && t.doc["folder"].Text? then FileName(t.doc["folder"].text) else None
  }

  function InsertByTime(t: Task, sorted: seq<Task>): seq<Task> {
    if sorted == [] || sorted[|sorted| - 1].madeAt <= t.madeAt then sorted + [t]
    else InsertByTime(t, sorted[..|sorted| - 1]) + [sorted[|sorted| - 1]]
  }

  /** By the time they were made, and those of one time in the order they were inserted. */
  function ByTime(tasks: seq<Task>): seq<Task> {
    if tasks == [] then [] else InsertByTime(tasks[|tasks| - 1], ByTime(tasks[..|tasks| - 1]))
  }

  function IdsOf(tasks: seq<Task>): set<string> {
    set t | t in tasks :: t.id
  }

  function TaskIds(tasks: seq<Task>): set<string> {
    set t | t in tasks && IsTaskId(t.id) :: t.id
  }

  function Old(): Task -> bool {
    (t: Task) => !IsTaskId(t.id)
  }

  /** The tasks to give new IDs, in turn. */
  function Todo(tasks: seq<Task>): seq<Task> {
    Filter(Old(), ByTime(tasks))
  }

  /** Draws until an ID isn't taken. */
  function DrawFree(taken: set<string>, draws: seq<Draw>): Option<(string, seq<Draw>)> {
    if draws == [] then None
    else if RandomId(draws[0]) !in taken then Some((RandomId(draws[0]), draws[1..]))
    else DrawFree(taken, draws[1..])
  }

  function Choose(t: Task, taken: set<string>, draws: seq<Draw>): Option<(string, seq<Draw>)> {
    var named := FolderName(t);
    if named.Some? && IsTaskId(named.value) && named.value !in taken then Some((named.value, draws))
    else DrawFree(taken, draws)
  }

  function Assign(todo: seq<Task>, taken: set<string>, draws: seq<Draw>): Option<seq<Pair>> {
    if todo == [] then Some([])
    else
      var chosen := Choose(todo[0], taken, draws);
      if chosen.None? then None
      else After([Pair(todo[0].id, chosen.value.0)], Assign(todo[1..], taken + {chosen.value.0}, chosen.value.1))
  }

  function After(pairs: seq<Pair>, rest: Option<seq<Pair>>): Option<seq<Pair>> {
    if rest.None? then None else Some(pairs + rest.value)
  }

  function Names(pairs: seq<Pair>): map<string, string> {
    if pairs == [] then map[]
    else Names(pairs[..|pairs| - 1])[pairs[|pairs| - 1].before := pairs[|pairs| - 1].given]
  }

  function RenumberedEvent(pair: Pair, now: real): Event {
    Event(pair.given, now, "renumbered", None, None, Some("daemon"), map["from" := Text(pair.before)])
  }

  function Logged(pairs: seq<Pair>, now: real): seq<Event> {
    seq(|pairs|, i requires 0 <= i < |pairs| => RenumberedEvent(pairs[i], now))
  }

  /** Renumbering as one simultaneous renaming. */
  function Renumbered(db: Db, draws: seq<Draw>, now: real): Result<Db, string> {
    if exists t <- db.tasks :: BadFolder(t) then Err("not text")
    else
      var pairs := Assign(Todo(db.tasks), TaskIds(db.tasks), draws);
      if pairs.None? then Err("can't read /dev/urandom")
      else if pairs.value == [] then Ok(db)
      else
        var names := Names(pairs.value);
        Ok(Db(FollowTasks(names, RenameTasks(names, db.tasks)),
              FollowEvents(names, RenameEvents(names, db.events) + Logged(pairs.value, now)),
              false))
  }

  // Import

  /** A task of a saved backlog; `held` and `pane` are the terminal while it is shelved or running. */
  datatype Saved = Saved(texts: map<string, string>, madeAt: Option<real>, held: Option<string>, pane: Option<string>)

  /** A saved backlog's two lists. */
  datatype Backlog = Backlog(tasks: seq<Saved>, running: seq<Saved>)

  function TextOf(s: Saved, key: string): Option<string> {
    if key in s.texts && s.texts[key] != "" then Some(s.texts[key]) else None
  }

  const KEPT_TEXTS: set<string> := {"name", "message", "by", "agent", "folder", "session"}

  function RowFromSaved(s: Saved, place: Place): Option<Task> {
    var id, repo := TextOf(s, "id"), TextOf(s, "repo");
    if id.None? || !Legacy(id.value) || repo.None? then None
    else
      var pane := if place == Desk then s.pane else s.held;
      Some(Task(id.value, repo.value, place,
                if pane == Some("") then None else pane,
                if s.madeAt.Some? then s.madeAt.value else 0.0,
                map key | key in KEPT_TEXTS && TextOf(s, key).Some? :: Text(TextOf(s, key).value)))
  }

  /** The backlog's rows, shelved ones first; what isn't a task of the old form is passed over. */
  function RowsOf(saved: seq<Saved>, place: Place): seq<Task> {
    if saved == [] then []
    else
      var last := RowFromSaved(saved[|saved| - 1], place);
      RowsOf(saved[..|saved| - 1], place) + if last.Some? then [last.value] else []
  }

  predicate WasRenumbered(events: seq<Event>, id: string) {
    exists e <- events :: e.what == "renumbered" && "from" in e.doc && e.doc["from"] == Text(id)
  }

  function MadeEvents(t: Task, now: real): seq<Event> {
    var maker := if "by" in t.doc && t.doc["by"].Text? then Some(t.doc["by"].text) else None;
    [Event(t.id, t.madeAt, "made", None, Some(Shelf), maker, map[])]
    + if t.place == Desk then [Event(t.id, now, "imported", Some(Shelf), Some(Desk), Some("daemon"), map[])] else []
  }

  /** Whether a row is new to the database. */
  predicate IsNew(db: Db, t: Task) {
    !WasRenumbered(db.events, t.id) && t.id !in IdsOf(db.tasks)
  }

  function Insert(db: Db, rows: seq<Task>, now: real): Db {
    if rows == [] then db
    else
      var before, t := Insert(db, rows[..|rows| - 1], now), rows[|rows| - 1];
      if IsNew(before, t) then before.(tasks := before.tasks + [t], events := before.events + MadeEvents(t, now)) else before
  }

  function Imported(db: Db, saved: Backlog, draws: seq<Draw>, now: real): Result<Db, string> {
    Renumbered(Insert(db, RowsOf(saved.tasks, Shelf) + RowsOf(saved.running, Desk), now), draws, now)
  }

  // What choosing gives

  lemma {:induction false} LastOfMultiset(tasks: seq<Task>)
    requires tasks != []
    ensures multiset(tasks) == multiset(tasks[..|tasks| - 1]) + multiset{tasks[|tasks| - 1]}
  {
    assert tasks == tasks[..|tasks| - 1] + [tasks[|tasks| - 1]];
  }

  lemma {:induction false} InsertByTimeHas(t: Task, sorted: seq<Task>)
    ensures multiset(InsertByTime(t, sorted)) == multiset(sorted) + multiset{t}
  {
    if sorted != [] && sorted[|sorted| - 1].madeAt > t.madeAt {
      InsertByTimeHas(t, sorted[..|sorted| - 1]);
      LastOfMultiset(sorted);
    }
  }

  lemma {:induction false} ByTimeHas(tasks: seq<Task>)
    ensures multiset(ByTime(tasks)) == multiset(tasks)
  {
    if tasks != [] {
      hide InsertByTime;
      var most, last := tasks[..|tasks| - 1], tasks[|tasks| - 1];
      ByTimeHas(most);
      InsertByTimeHas(last, ByTime(most));
      LastOfMultiset(tasks);
    }
  }

  predicate Distinct(tasks: seq<Task>) {
    forall i, j :: 0 <= i < j < |tasks| ==> tasks[i].id != tasks[j].id
  }

  lemma {:induction false} DistinctMore(tasks: seq<Task>, last: Task)
    requires Distinct(tasks) && last.id !in IdsOf(tasks)
    ensures Distinct(tasks + [last])
  {
    forall i | 0 <= i < |tasks| ensures tasks[i].id != last.id {
      assert tasks[i] in tasks;
    }
  }

  lemma {:induction false} InsertByTimeIds(t: Task, sorted: seq<Task>)
    ensures IdsOf(InsertByTime(t, sorted)) == IdsOf(sorted) + {t.id}
  {
    InsertByTimeHas(t, sorted);
    var inserted := InsertByTime(t, sorted);
    forall x ensures x in inserted <==> x in sorted || x == t {
      assert x in inserted <==> x in multiset(inserted);
    }
  }

  lemma {:induction false} InsertByTimeDistinct(t: Task, sorted: seq<Task>)
    requires Distinct(sorted) && t.id !in IdsOf(sorted)
    ensures Distinct(InsertByTime(t, sorted))
  {
    if sorted != [] && sorted[|sorted| - 1].madeAt > t.madeAt {
      var most, last := sorted[..|sorted| - 1], sorted[|sorted| - 1];
      assert last in sorted && last.id in IdsOf(sorted);
      forall x <- most ensures x in sorted && x.id != last.id {
        var i :| 0 <= i < |most| && most[i] == x;
        assert sorted[i] == x;
      }
      assert t.id !in IdsOf(most) && last.id !in IdsOf(most);
      InsertByTimeDistinct(t, most);
      InsertByTimeIds(t, most);
      hide IdsOf, Distinct;
      DistinctMore(InsertByTime(t, most), last);
    } else {
      DistinctMore(sorted, t);
    }
  }

  lemma {:induction false} ByTimeDistinct(tasks: seq<Task>)
    requires Distinct(tasks)
    ensures Distinct(ByTime(tasks))
  {
    if tasks != [] {
      var most, last := tasks[..|tasks| - 1], tasks[|tasks| - 1];
      ByTimeDistinct(most);
      ByTimeHas(most);
      forall t | t in ByTime(most) ensures t.id != last.id {
        assert t in multiset(most);
      }
      InsertByTimeDistinct(last, ByTime(most));
    }
  }

  lemma {:induction false} FilterDistinct(keep: Task -> bool, tasks: seq<Task>)
    requires Distinct(tasks)
    ensures Distinct(Filter(keep, tasks))
  {
    if tasks != [] {
      var most, last := tasks[..|tasks| - 1], tasks[|tasks| - 1];
      FilterDistinct(keep, most);
      FilterOnly(keep, most);
      var kept := Filter(keep, most);
      forall i | 0 <= i < |kept| ensures kept[i].id != last.id {
        assert kept[i] in most;
        var k :| 0 <= k < |most| && most[k] == kept[i];
        assert tasks[k] == kept[i];
      }
    }
  }

  /** The tasks to rename are those without a task ID, each once. */
  lemma {:induction false} TodoIsTheOldOnes(tasks: seq<Task>)
    ensures forall t :: t in Todo(tasks) <==> t in tasks && !IsTaskId(t.id)
    ensures Distinct(tasks) ==> Distinct(Todo(tasks))
  {
    ByTimeHas(tasks);
    FilterOnly(Old(), ByTime(tasks));
    forall t: Task ensures t in Todo(tasks) <==> t in tasks && !IsTaskId(t.id) {
      assert t in ByTime(tasks) <==> t in multiset(ByTime(tasks));
      if t in tasks && !IsTaskId(t.id) {
        FilterKeeps(Old(), ByTime(tasks), t);
      }
    }
    if Distinct(tasks) {
      ByTimeDistinct(tasks);
      FilterDistinct(Old(), ByTime(tasks));
    }
  }

  lemma {:induction false} NothingTodo(tasks: seq<Task>)
    requires forall t <- tasks :: IsTaskId(t.id)
    ensures Todo(tasks) == []
  {
    ByTimeHas(tasks);
    forall t <- ByTime(tasks) ensures t in tasks {
      assert t in multiset(ByTime(tasks));
    }
    FilterNone(Old(), ByTime(tasks));
  }

  lemma {:induction false} DrawnIsFree(taken: set<string>, draws: seq<Draw>)
    ensures var d := DrawFree(taken, draws); d.Some? ==> IsTaskId(d.value.0) && d.value.0 !in taken
  {
    if draws != [] && RandomId(draws[0]) in taken {
      DrawnIsFree(taken, draws[1..]);
    }
  }

  predicate Assigned(todo: seq<Task>, taken: set<string>, pairs: seq<Pair>) {
    && |pairs| == |todo|
    && (forall i :: 0 <= i < |pairs| ==> pairs[i].before == todo[i].id && IsTaskId(pairs[i].given) && pairs[i].given !in taken)
    && forall i, j :: 0 <= i < j < |pairs| ==> pairs[i].given != pairs[j].given
  }

  lemma {:induction false} AssignGives(todo: seq<Task>, taken: set<string>, draws: seq<Draw>)
    requires Assign(todo, taken, draws).Some?
    ensures Assigned(todo, taken, Assign(todo, taken, draws).value)
  {
    if todo != [] {
      DrawnIsFree(taken, draws);
      var chosen := Choose(todo[0], taken, draws).value;
      AssignGives(todo[1..], taken + {chosen.0}, chosen.1);
      var rest := Assign(todo[1..], taken + {chosen.0}, chosen.1).value;
      var pairs := Assign(todo, taken, draws).value;
      assert pairs == [Pair(todo[0].id, chosen.0)] + rest;
    }
  }

  /** Tasks whose folders are named by different free task IDs take those, and nothing is drawn. */
  lemma {:induction false} FoldersNameTheTasks(todo: seq<Task>, taken: set<string>, draws: seq<Draw>)
    requires forall i :: 0 <= i < |todo| ==> FolderName(todo[i]).Some? && IsTaskId(FolderName(todo[i]).value) && FolderName(todo[i]).value !in taken
    requires forall i, j :: 0 <= i < j < |todo| ==> FolderName(todo[i]) != FolderName(todo[j])
    ensures var pairs := Assign(todo, taken, draws);
            && pairs.Some? && |pairs.value| == |todo|
            && forall i :: 0 <= i < |todo| ==> Some(pairs.value[i].given) == FolderName(todo[i])
  {
    if todo != [] {
      hide FolderName, IsTaskId, DrawFree;
      var name, rest := FolderName(todo[0]).value, todo[1..];
      assert forall i :: 0 <= i < |rest| ==> rest[i] == todo[i + 1];
      FoldersNameTheTasks(rest, taken + {name}, draws);
      assert Choose(todo[0], taken, draws) == Some((name, draws));
    }
  }

  /** The folder's name is a task ID that is neither taken nor given to a task before. */
  ghost predicate NameIsFree(t: Task, taken: set<string>, earlier: seq<Pair>) {
    FolderName(t).Some? && IsTaskId(FolderName(t).value) && FolderName(t).value !in taken && forall k :: 0 <= k < |earlier| ==> earlier[k].given != FolderName(t).value
  }

  lemma {:induction false} DrawnFromDraws(taken: set<string>, draws: seq<Draw>)
    requires DrawFree(taken, draws).Some?
    ensures exists d :: d in draws && DrawFree(taken, draws).value.0 == RandomId(d)
    ensures forall d | d in DrawFree(taken, draws).value.1 :: d in draws
  {
    hide RandomId;
    if RandomId(draws[0]) !in taken {
      assert draws[0] in draws;
    } else {
      DrawnFromDraws(taken, draws[1..]);
    }
  }

  /** A task gets its folder's name for an ID exactly when that is free, and else one that was drawn. */
  lemma {:induction false} FolderNamesTheTaskIf(todo: seq<Task>, taken: set<string>, draws: seq<Draw>, pairs: seq<Pair>, i: nat)
    requires Assign(todo, taken, draws) == Some(pairs) && i < |todo|
    ensures |pairs| == |todo|
    ensures if NameIsFree(todo[i], taken, pairs[..i]) then Some(pairs[i].given) == FolderName(todo[i])
            else exists d :: d in draws && pairs[i].given == RandomId(d)
  {
    hide FolderName, IsTaskId, DrawFree, RandomId;
    var chosen := Choose(todo[0], taken, draws).value;
    var rest := Assign(todo[1..], taken + {chosen.0}, chosen.1).value;
    assert pairs == [Pair(todo[0].id, chosen.0)] + rest;
    if !NameIsFree(todo[0], taken, []) {
      DrawnFromDraws(taken, draws);
    }
    if i == 0 {
      LengthsMatch(todo, taken, draws);
      assert pairs[..0] == [];
    } else {
      FolderNamesTheTaskIf(todo[1..], taken + {chosen.0}, chosen.1, rest, i - 1);
      assert todo[1..][i - 1] == todo[i] && pairs[i] == rest[i - 1];
      FreeLater(todo[i], taken, pairs[0], rest[..i - 1]);
      assert pairs[..i] == [pairs[0]] + rest[..i - 1];
    }
  }

  lemma {:induction false} LengthsMatch(todo: seq<Task>, taken: set<string>, draws: seq<Draw>)
    requires Assign(todo, taken, draws).Some?
    ensures |Assign(todo, taken, draws).value| == |todo|
  {
    if todo != [] {
      var chosen := Choose(todo[0], taken, draws).value;
      hide Choose;
      LengthsMatch(todo[1..], taken + {chosen.0}, chosen.1);
    }
  }

  lemma {:induction false} FreeLater(t: Task, taken: set<string>, first: Pair, more: seq<Pair>)
    ensures NameIsFree(t, taken, [first] + more) <==> NameIsFree(t, taken + {first.given}, more)
  {
    hide FolderName, IsTaskId;
    var all := [first] + more;
    assert all[0] == first && forall k :: 0 <= k < |more| ==> all[k + 1] == more[k];
  }

  // The renaming

  predicate KeysApart(pairs: seq<Pair>) {
    forall i, j :: 0 <= i < j < |pairs| ==> pairs[i].before != pairs[j].before
  }

  lemma {:induction false} NamesAt(pairs: seq<Pair>, i: nat)
    requires KeysApart(pairs) && i < |pairs|
    ensures pairs[i].before in Names(pairs) && Names(pairs)[pairs[i].before] == pairs[i].given
  {
    if i < |pairs| - 1 {
      NamesAt(pairs[..|pairs| - 1], i);
    }
  }

  lemma {:induction false} NamedBy(pairs: seq<Pair>, id: string) returns (i: nat)
    requires id in Names(pairs)
    ensures i < |pairs| && pairs[i].before == id && pairs[i].given == Names(pairs)[id]
  {
    if pairs[|pairs| - 1].before == id {
      i := |pairs| - 1;
    } else {
      i := NamedBy(pairs[..|pairs| - 1], id);
    }
  }

  /** A renaming that gives every old ID of `tasks` an own new one, and touches no new ID. */
  predicate Renaming(names: map<string, string>, tasks: seq<Task>) {
    && (forall t <- tasks :: t.id in names <==> !IsTaskId(t.id))
    && (forall id <- names :: IsTaskId(names[id]) && !IsTaskId(id) && names[id] !in IdsOf(tasks))
    && forall a, b :: a in names && b in names && a != b ==> names[a] != names[b]
  }

  lemma {:induction false} AssignedIsRenaming(tasks: seq<Task>, pairs: seq<Pair>)
    requires Distinct(tasks) && Assigned(Todo(tasks), TaskIds(tasks), pairs)
    ensures Renaming(Names(pairs), tasks) && KeysApart(pairs)
    ensures forall i :: 0 <= i < |pairs| ==> exists t <- tasks :: t.id == pairs[i].before
  {
    var names, todo := Names(pairs), Todo(tasks);
    TodoIsTheOldOnes(tasks);
    assert KeysApart(pairs);
    forall i | 0 <= i < |pairs| ensures !IsTaskId(pairs[i].before) && exists t <- tasks :: t.id == pairs[i].before {
      assert todo[i] in todo && todo[i] in tasks;
    }
    forall t <- tasks ensures t.id in names <==> !IsTaskId(t.id) {
      if !IsTaskId(t.id) {
        assert t in todo;
        var i :| 0 <= i < |todo| && todo[i] == t;
        NamesAt(pairs, i);
      } else if t.id in names {
        var i := NamedBy(pairs, t.id);
      }
    }
    forall id <- names ensures IsTaskId(names[id]) && !IsTaskId(id) && names[id] !in IdsOf(tasks) {
      var i := NamedBy(pairs, id);
    }
    forall a, b | a in names && b in names && a != b ensures names[a] != names[b] {
      var i := NamedBy(pairs, a);
      var j := NamedBy(pairs, b);
      assert i < j || j < i;
    }
  }

  lemma {:induction false} RenamedDistinct(names: map<string, string>, tasks: seq<Task>)
    requires Distinct(tasks) && Renaming(names, tasks)
    ensures Distinct(RenameTasks(names, tasks)) && forall t <- RenameTasks(names, tasks) :: IsTaskId(t.id)
  {
    var renamed := RenameTasks(names, tasks);
    forall i | 0 <= i < |tasks| ensures IsTaskId(renamed[i].id) {
      assert tasks[i] in tasks;
    }
    forall i, j | 0 <= i < j < |tasks| ensures renamed[i].id != renamed[j].id {
      assert tasks[i] in tasks && tasks[j] in tasks;
      assert tasks[i].id in IdsOf(tasks) && tasks[j].id in IdsOf(tasks);
    }
  }

  // Main results

  /** The database with `names` put through it. */
  function Rewritten(names: map<string, string>, pairs: seq<Pair>, db: Db, now: real): Db {
    Db(FollowTasks(names, RenameTasks(names, db.tasks)),
       FollowEvents(names, RenameEvents(names, db.events) + Logged(pairs, now)),
       false)
  }

  /** What renumbering did, as a renaming and the pairs it was made of. */
  lemma {:induction false} RenumberedHow(db: Db, draws: seq<Draw>, now: real) returns (names: map<string, string>, pairs: seq<Pair>)
    requires Distinct(db.tasks) && Renumbered(db, draws, now).Ok?
    ensures Renaming(names, db.tasks) && names == Names(pairs) && KeysApart(pairs)
    ensures forall i :: 0 <= i < |pairs| ==> exists t <- db.tasks :: t.id == pairs[i].before
    ensures pairs == [] <==> forall t <- db.tasks :: IsTaskId(t.id)
    ensures Renumbered(db, draws, now).value ==
            if pairs == [] then db else Rewritten(names, pairs, db, now)
  {
    pairs := Assign(Todo(db.tasks), TaskIds(db.tasks), draws).value;
    names := Names(pairs);
    AssignGives(Todo(db.tasks), TaskIds(db.tasks), draws);
    AssignedIsRenaming(db.tasks, pairs);
    TodoIsTheOldOnes(db.tasks);
    if pairs == [] {
      assert Todo(db.tasks) == [];
    } else {
      assert Todo(db.tasks)[0] in Todo(db.tasks);
    }
  }

  predicate SameButBlockers(a: Doc, b: Doc) {
    b - {"after"} == a - {"after"} && ("after" in a <==> "after" in b)
  }

  /** The same task but for its blockers and, unless it had a new one, its ID. */
  predicate SameTask(a: Task, b: Task) {
    && (IsTaskId(a.id) ==> b.id == a.id)
    && b.(id := a.id, doc := a.doc) == a
    && SameButBlockers(a.doc, b.doc)
  }

  /** The same event but for its blockers and the ID of the task it names. */
  predicate SameEvent(a: Event, b: Event) {
    && b.(task := a.task, doc := a.doc) == a
    && SameButBlockers(a.doc, b.doc)
  }

  /** No task is lost or confused with another: each row stays, all but its ID and blockers, and the new IDs differ. */
  lemma {:induction false} EveryTaskStays(db: Db, draws: seq<Draw>, now: real)
    requires Distinct(db.tasks) && Renumbered(db, draws, now).Ok?
    ensures var after := Renumbered(db, draws, now).value;
            && |after.tasks| == |db.tasks|
            && Distinct(after.tasks)
            && (forall t <- after.tasks :: IsTaskId(t.id))
            && forall i :: 0 <= i < |db.tasks| ==> SameTask(db.tasks[i], after.tasks[i])
  {
    var names, pairs := RenumberedHow(db, draws, now);
    if pairs != [] {
      hide Renumbered;
      RewrittenTasks(names, pairs, db, now);
    }
  }

  lemma {:induction false} RewrittenTasks(names: map<string, string>, pairs: seq<Pair>, db: Db, now: real)
    requires Distinct(db.tasks) && Renaming(names, db.tasks)
    ensures var after := Rewritten(names, pairs, db, now);
            && |after.tasks| == |db.tasks|
            && Distinct(after.tasks)
            && (forall t <- after.tasks :: IsTaskId(t.id))
            && forall i :: 0 <= i < |db.tasks| ==> SameTask(db.tasks[i], after.tasks[i])
  {
    var renamed, after := RenameTasks(names, db.tasks), Rewritten(names, pairs, db, now);
    RenamedDistinct(names, db.tasks);
    forall i | 0 <= i < |db.tasks| ensures after.tasks[i].id == renamed[i].id && IsTaskId(after.tasks[i].id) && SameTask(db.tasks[i], after.tasks[i]) {
      assert db.tasks[i] in db.tasks && renamed[i] in renamed;
    }
  }

  /** No event is lost or changed but for the task it names and its blockers; a 'renumbered' one still says from what. */
  lemma {:induction false} EveryEventStays(db: Db, draws: seq<Draw>, now: real)
    requires Distinct(db.tasks) && Renumbered(db, draws, now).Ok?
    ensures var after := Renumbered(db, draws, now).value;
            && |after.events| >= |db.events|
            && forall i :: 0 <= i < |db.events| ==> SameEvent(db.events[i], after.events[i])
  {
    var names, pairs := RenumberedHow(db, draws, now);
    hide Renumbered;
    RewrittenEvents(names, pairs, db, now);
  }

  lemma {:induction false} RewrittenEvents(names: map<string, string>, pairs: seq<Pair>, db: Db, now: real)
    ensures var after := Rewritten(names, pairs, db, now);
            && |after.events| >= |db.events|
            && forall i :: 0 <= i < |db.events| ==> SameEvent(db.events[i], after.events[i])
  {
  }

  /** Each event names the task it named before, in the same row. */
  lemma {:induction false} EventsFollowTheirTasks(db: Db, draws: seq<Draw>, now: real, i: nat, j: nat)
    requires Distinct(db.tasks) && Renumbered(db, draws, now).Ok?
    requires i < |db.events| && j < |db.tasks| && db.events[i].task == db.tasks[j].id
    ensures var after := Renumbered(db, draws, now).value;
            i < |after.events| && j < |after.tasks| && after.events[i].task == after.tasks[j].id
  {
    var names, pairs := RenumberedHow(db, draws, now);
  }

  /** The events it adds each record one task's renaming, under its new ID. */
  lemma {:induction false} AddedEventsRecordRenamings(db: Db, draws: seq<Draw>, now: real, k: nat) returns (j: nat)
    requires Distinct(db.tasks) && Renumbered(db, draws, now).Ok?
    requires |db.events| <= k < |Renumbered(db, draws, now).value.events|
    ensures var after := Renumbered(db, draws, now).value;
            && j < |db.tasks| == |after.tasks| && !IsTaskId(db.tasks[j].id)
            && after.events[k] == Event(after.tasks[j].id, now, "renumbered", None, None, Some("daemon"), map["from" := Text(db.tasks[j].id)])
  {
    var names, pairs := RenumberedHow(db, draws, now);
    hide Renumbered, Rewritten, Names, KeysApart, Renaming, IsTaskId, Distinct;
    RewrittenCount(names, pairs, db, now);
    j := AddedBy(names, pairs, db, now, k - |db.events|);
  }

  lemma {:induction false} RewrittenCount(names: map<string, string>, pairs: seq<Pair>, db: Db, now: real)
    ensures |Rewritten(names, pairs, db, now).events| == |db.events| + |pairs|
  {
    hide Names;
  }

  lemma {:induction false} LoggedAt(names: map<string, string>, events: seq<Event>, pairs: seq<Pair>, now: real, i: nat)
    requires i < |pairs|
    ensures var after := FollowEvents(names, RenameEvents(names, events) + Logged(pairs, now));
            |after| == |events| + |pairs| && after[|events| + i] == RenumberedEvent(pairs[i], now)
  {
  }

  lemma {:induction false} AddedBy(names: map<string, string>, pairs: seq<Pair>, db: Db, now: real, i: nat) returns (j: nat)
    requires i < |pairs| && names == Names(pairs) && KeysApart(pairs) && Renaming(names, db.tasks)
    requires exists t <- db.tasks :: t.id == pairs[i].before
    ensures var after := Rewritten(names, pairs, db, now);
            && j < |db.tasks| == |after.tasks| && !IsTaskId(db.tasks[j].id) && |after.events| == |db.events| + |pairs|
            && after.events[|db.events| + i] == RenumberedEvent(Pair(db.tasks[j].id, after.tasks[j].id), now)
  {
    NamesAt(pairs, i);
    var t :| t in db.tasks && t.id == pairs[i].before;
    j :| 0 <= j < |db.tasks| && db.tasks[j] == t;
    LoggedAt(names, db.events, pairs, now, i);
    hide Names, KeysApart, FollowEvents, RenameEvents, Logged, IsTaskId;
  }

  predicate EventsNameTasks(db: Db) {
    forall e <- db.events :: e.task in IdsOf(db.tasks)
  }

  /** The foreign key from events to tasks still holds. */
  lemma {:induction false} EventsStillNameTasks(db: Db, draws: seq<Draw>, now: real)
    requires Distinct(db.tasks) && EventsNameTasks(db) && Renumbered(db, draws, now).Ok?
    ensures EventsNameTasks(Renumbered(db, draws, now).value)
  {
    EveryTaskStays(db, draws, now);
    var after := Renumbered(db, draws, now).value;
    forall e <- after.events ensures e.task in IdsOf(after.tasks) {
      var k :| 0 <= k < |after.events| && after.events[k] == e;
      if k < |db.events| {
        assert db.events[k] in db.events;
        var t :| t in db.tasks && t.id == db.events[k].task;
        var j :| 0 <= j < |db.tasks| && db.tasks[j] == t;
        EventsFollowTheirTasks(db, draws, now, k, j);
        assert after.tasks[j] in after.tasks;
      } else {
        var j := AddedEventsRecordRenamings(db, draws, now, k);
        assert after.tasks[j] in after.tasks;
      }
    }
  }

  lemma {:induction false} RecordedStays(events: seq<Event>, after: seq<Event>, id: string)
    requires WasRenumbered(events, id) && |events| <= |after|
    requires forall i :: 0 <= i < |events| ==> SameEvent(events[i], after[i])
    ensures WasRenumbered(after, id)
  {
    var e :| e in events && e.what == "renumbered" && "from" in e.doc && e.doc["from"] == Text(id);
    var i :| 0 <= i < |events| && events[i] == e;
    assert SameEvent(e, after[i]);
    assert "from" in after[i].doc - {"after"};
    assert (after[i].doc - {"after"})["from"] == (e.doc - {"after"})["from"];
    assert after[i] in after;
  }

  lemma {:induction false} RecordedBy(names: map<string, string>, events: seq<Event>, pairs: seq<Pair>, now: real, i: nat)
    requires i < |pairs|
    ensures WasRenumbered(FollowEvents(names, events + Logged(pairs, now)), pairs[i].before)
  {
    var after := FollowEvents(names, events + Logged(pairs, now));
    var e := after[|events| + i];
    assert e == RenumberedEvent(pairs[i], now);
    assert e in after;
  }

  /** Every old task has a 'renumbered' event from its old ID, and earlier ones stay. */
  lemma {:induction false} OldIdsAreRemembered(db: Db, draws: seq<Draw>, now: real, id: string)
    requires Distinct(db.tasks) && Renumbered(db, draws, now).Ok?
    requires WasRenumbered(db.events, id) || (id in IdsOf(db.tasks) && !IsTaskId(id))
    ensures WasRenumbered(Renumbered(db, draws, now).value.events, id)
  {
    if WasRenumbered(db.events, id) {
      EveryEventStays(db, draws, now);
      RecordedStays(db.events, Renumbered(db, draws, now).value.events, id);
    } else {
      var names, pairs := RenumberedHow(db, draws, now);
      var t :| t in db.tasks && t.id == id;
      var i := NamedBy(pairs, id);
      RecordedBy(names, RenameEvents(names, db.events), pairs, now, i);
    }
  }

  /** A second run changes nothing, whatever it could draw. */
  lemma {:induction false} SecondRunChangesNothing(db: Db, draws: seq<Draw>, now: real, more: seq<Draw>, later: real)
    requires Distinct(db.tasks) && Renumbered(db, draws, now).Ok?
    ensures var after := Renumbered(db, draws, now).value; Renumbered(after, more, later) == Ok(after)
  {
    var after := Renumbered(db, draws, now).value;
    EveryTaskStays(db, draws, now);
    NothingTodo(after.tasks);
    forall t <- after.tasks ensures !BadFolder(t) {
      var i :| 0 <= i < |after.tasks| && after.tasks[i] == t;
      assert db.tasks[i] in db.tasks;
      assert SameTask(db.tasks[i], after.tasks[i]);
      assert "folder" in t.doc <==> "folder" in t.doc - {"after"};
    }
  }

  // Blockers

  predicate OnlyTaskIds(after: seq<Value>) {
    forall v <- after :: v.Text? && IsTaskId(v.text)
  }

  lemma {:induction false} FollowedLength(names: map<string, string>, after: seq<Value>)
    ensures |Followed(names, after)| <= |after|
  {
    if after != [] {
      FollowedLength(names, after[..|after| - 1]);
    }
  }

  lemma {:induction false} SameWithLast(a: seq<Value>, x: seq<Value>, most: seq<Value>, last: Value)
    requires |a| <= |most| && |x| <= 1
    ensures a + x == most + [last] <==> a == most && x == [last]
  {
    if a + x == most + [last] {
      assert |a| == |most| && |x| == 1;
      assert a == (a + x)[..|a|] && most == (most + [last])[..|most|];
      assert x[0] == (a + x)[|a|];
    }
  }

  lemma {:induction false} FollowedSameIff(after: seq<Value>)
    ensures Followed(map[], after) == after <==> OnlyTaskIds(after)
  {
    if after != [] {
      var most, last := after[..|after| - 1], after[|after| - 1];
      var kept := last.Text? && IsTaskId(last.text);
      FollowedSameIff(most);
      FollowedLength(map[], most);
      assert after == most + [last];
      SameWithLast(Followed(map[], most), if kept then [last] else [], most, last);
      OnlyWithLast(most, last);
      hide OnlyTaskIds, IsTaskId;
    }
  }

  lemma {:induction false} OnlyWithLast(most: seq<Value>, last: Value)
    ensures OnlyTaskIds(most + [last]) <==> OnlyTaskIds(most) && last.Text? && IsTaskId(last.text)
  {
    hide IsTaskId;
    assert last in most + [last];
    assert forall v :: v in most + [last] <==> v in most || v == last;
  }

  /** A blocker list whose every entry names a task keeps its length and order, each entry naming the same task. */
  lemma {:induction false} BlockersFollowTheirTasks(names: map<string, string>, tasks: seq<Task>, after: seq<Value>, of: seq<nat>)
    requires Renaming(names, tasks) && |of| == |after|
    requires forall k :: 0 <= k < |after| ==> of[k] < |tasks| && after[k] == Text(tasks[of[k]].id)
    ensures |Followed(names, after)| == |after|
    ensures forall k :: 0 <= k < |after| ==> Followed(names, after)[k] == Text(RenameTasks(names, tasks)[of[k]].id)
  {
    if after != [] {
      var n := |after| - 1;
      BlockersFollowTheirTasks(names, tasks, after[..n], of[..n]);
      assert tasks[of[n]] in tasks;
    }
  }

  /** An entry is dropped exactly when it is no text, or neither was renamed nor is a task ID. */
  lemma {:induction false} UnknownBlockersAreDropped(names: map<string, string>, after: seq<Value>)
    ensures Followed(names, after) == Renamings(names, Filter(Known(names), after))
  {
    if after != [] {
      var n := |after| - 1;
      UnknownBlockersAreDropped(names, after[..n]);
      var before := Filter(Known(names), after[..n]);
      if Known(names)(after[n]) {
        assert Renamings(names, before + [after[n]]) == Renamings(names, before) + [Text(Rename(names, after[n].text))];
      } else {
        assert Filter(Known(names), after) == before;
      }
    }
  }

  function Known(names: map<string, string>): Value -> bool {
    (v: Value) => v.Text? && (v.text in names || IsTaskId(v.text))
  }

  function Renamings(names: map<string, string>, list: seq<Value>): seq<Value> {
    seq(|list|, i requires 0 <= i < |list| => if list[i].Text? then Text(Rename(names, list[i].text)) else list[i])
  }

  function Blockers(doc: Doc): seq<Value> {
    if "after" in doc && doc["after"].List? then doc["after"].items else []
  }

  /** Every blocker list of `after`, tasks' and events', is that of `db` in the new IDs. */
  predicate BlockersMapped(names: map<string, string>, db: Db, after: Db)
    requires |after.tasks| == |db.tasks| && |after.events| >= |db.events|
  {
    && (forall i :: 0 <= i < |db.tasks| ==> Blockers(after.tasks[i].doc) == Followed(names, Blockers(db.tasks[i].doc)))
    && forall i :: 0 <= i < |db.events| ==> Blockers(after.events[i].doc) == Followed(names, Blockers(db.events[i].doc))
  }

  /** All blocker lists name tasks by new IDs only. */
  predicate BlockersAreNew(db: Db) {
    && (forall i :: 0 <= i < |db.tasks| ==> OnlyTaskIds(Blockers(db.tasks[i].doc)))
    && forall i :: 0 <= i < |db.events| ==> OnlyTaskIds(Blockers(db.events[i].doc))
  }

  /**
   Every blocker list ends up mapped exactly when some task was renamed or no list held
   anything but task IDs: with nothing to rename, the lists are never looked at.
   */
  lemma {:induction false} BlockersAreMappedIff(db: Db, draws: seq<Draw>, now: real) returns (names: map<string, string>)
    requires Distinct(db.tasks) && Renumbered(db, draws, now).Ok?
    ensures Renaming(names, db.tasks)
    ensures var after := Renumbered(db, draws, now).value;
            && |after.tasks| == |db.tasks| && |after.events| >= |db.events|
            && (forall i :: 0 <= i < |db.tasks| ==> after.tasks[i].id == Rename(names, db.tasks[i].id))
            && (BlockersMapped(names, db, after) <==> (exists t <- db.tasks :: !IsTaskId(t.id)) || BlockersAreNew(db))
  {
    var pairs;
    names, pairs := RenumberedHow(db, draws, now);
    if pairs == [] {
      hide Renumbered;
      UnmappedIff(db);
      forall i | 0 <= i < |db.tasks| ensures db.tasks[i].id == Rename(names, db.tasks[i].id) {
        assert db.tasks[i] in db.tasks;
      }
    } else {
      hide Renumbered;
      RewrittenIsMapped(names, pairs, db, now);
    }
  }

  /** A list that stays as it was: its task has a new ID already, so nothing is renamed, and its blocker an old one. */
  lemma {:induction false} OldBlockersStay(now: real)
    ensures var t := Task(RandomId(0), "r", Shelf, None, 0.0, map["after" := List([Text("t9")])]);
            var db := Db([t], [], false);
            && Renumbered(db, [], now) == Ok(db)
            && Followed(map[], Blockers(t.doc)) == [] != Blockers(t.doc)
  {
    OldBlockerIsDropped();
    hide Followed, IsTaskId;
    var t := Task(RandomId(0), "r", Shelf, None, 0.0, map["after" := List([Text("t9")])]);
    NothingTodo([t]);
    hide Todo, TaskIds, Renaming;
  }

  lemma {:induction false} OldBlockerIsDropped()
    ensures Followed(map[], [Text("t9")]) == []
  {
    var list := [Text("t9")];
    LegacyIsNoTaskId("t9");
    assert list[..0] == [];
    hide IsTaskId;
    assert Followed(map[], list) == Followed(map[], list[..0]) + [];
  }

  lemma {:induction false} UnmappedIff(db: Db)
    ensures BlockersMapped(map[], db, db) <==> BlockersAreNew(db)
  {
    forall list ensures Followed(map[], list) == list <==> OnlyTaskIds(list) {
      FollowedSameIff(list);
    }
  }

  lemma {:induction false} RewrittenIsMapped(names: map<string, string>, pairs: seq<Pair>, db: Db, now: real)
    ensures var after := Rewritten(names, pairs, db, now);
            && |after.tasks| == |db.tasks| && |after.events| >= |db.events|
            && BlockersMapped(names, db, after)
            && forall i :: 0 <= i < |db.tasks| ==> after.tasks[i].id == Rename(names, db.tasks[i].id)
  {
  }

  // Import

  lemma {:induction false} RowsAreLegacy(saved: seq<Saved>, place: Place)
    ensures forall t <- RowsOf(saved, place) :: Legacy(t.id)
  {
    if saved != [] {
      RowsAreLegacy(saved[..|saved| - 1], place);
    }
  }

  lemma {:induction false} InsertKnows(db: Db, rows: seq<Task>, now: real)
    requires Distinct(db.tasks)
    ensures var after := Insert(db, rows, now);
            && Distinct(after.tasks)
            && |db.tasks| <= |after.tasks| && after.tasks[..|db.tasks|] == db.tasks
            && |db.events| <= |after.events| && after.events[..|db.events|] == db.events
            && (EventsNameTasks(db) ==> EventsNameTasks(after))
            && forall t <- rows :: WasRenumbered(after.events, t.id) || t.id in IdsOf(after.tasks)
  {
    if rows != [] {
      var most, t := rows[..|rows| - 1], rows[|rows| - 1];
      InsertKnows(db, most, now);
      var before, after := Insert(db, most, now), Insert(db, rows, now);
      assert rows == most + [t];
      if IsNew(before, t) {
        InsertOne(before, t, now);
        forall r <- most ensures WasRenumbered(after.events, r.id) || r.id in IdsOf(after.tasks) {
          if WasRenumbered(before.events, r.id) {
            WasRenumberedStays(before.events, MadeEvents(t, now), r.id);
          }
        }
      }
    }
  }

  lemma {:induction false} WasRenumberedStays(events: seq<Event>, more: seq<Event>, id: string)
    requires WasRenumbered(events, id)
    ensures WasRenumbered(events + more, id)
  {
    var e :| e in events && e.what == "renumbered" && "from" in e.doc && e.doc["from"] == Text(id);
    assert e in events + more;
  }

  lemma {:induction false} InsertOne(db: Db, t: Task, now: real)
    requires Distinct(db.tasks) && t.id !in IdsOf(db.tasks)
    ensures Distinct(db.tasks + [t])
    ensures IdsOf(db.tasks + [t]) == IdsOf(db.tasks) + {t.id}
    ensures EventsNameTasks(db) ==> forall e <- db.events + MadeEvents(t, now) :: e.task in IdsOf(db.tasks + [t])
  {
    forall i | 0 <= i < |db.tasks| ensures db.tasks[i].id != t.id {
      assert db.tasks[i] in db.tasks;
    }
    assert forall x :: x in db.tasks + [t] <==> x in db.tasks || x == t;
    forall e <- db.events + MadeEvents(t, now) ensures EventsNameTasks(db) ==> e.task in IdsOf(db.tasks + [t]) {
      assert e in db.events || e in MadeEvents(t, now);
    }
  }

  lemma {:induction false} KnownRowsAddNothing(db: Db, rows: seq<Task>, now: real)
    requires forall t <- rows :: !IsNew(db, t)
    ensures Insert(db, rows, now) == db
  {
    if rows != [] {
      assert rows[|rows| - 1] in rows;
      KnownRowsAddNothing(db, rows[..|rows| - 1], now);
    }
  }

  /** Importing keeps every task and event there was, and every event names a task. */
  lemma {:induction false} ImportKeepsWhatWasThere(db: Db, saved: Backlog, draws: seq<Draw>, now: real)
    requires Distinct(db.tasks) && EventsNameTasks(db) && Imported(db, saved, draws, now).Ok?
    ensures var after := Imported(db, saved, draws, now).value;
            && Distinct(after.tasks) && EventsNameTasks(after) && (forall t <- after.tasks :: IsTaskId(t.id))
            && |after.tasks| >= |db.tasks| && |after.events| >= |db.events|
            && (forall i :: 0 <= i < |db.tasks| ==> SameTask(db.tasks[i], after.tasks[i]))
            && (forall i :: 0 <= i < |db.events| ==> SameEvent(db.events[i], after.events[i]))
            && (forall i, j :: 0 <= i < |db.events| && 0 <= j < |db.tasks| && db.events[i].task == db.tasks[j].id ==> after.events[i].task == after.tasks[j].id)
  {
    var rows := RowsOf(saved.tasks, Shelf) + RowsOf(saved.running, Desk);
    var mid := Insert(db, rows, now);
    InsertKnows(db, rows, now);
    assert forall i :: 0 <= i < |db.tasks| ==> mid.tasks[i] == mid.tasks[..|db.tasks|][i];
    assert forall i :: 0 <= i < |db.events| ==> mid.events[i] == mid.events[..|db.events|][i];
    EveryTaskStays(mid, draws, now);
    EveryEventStays(mid, draws, now);
    EventsStillNameTasks(mid, draws, now);
    var after := Imported(db, saved, draws, now).value;
    forall i, j | 0 <= i < |db.events| && 0 <= j < |db.tasks| && db.events[i].task == db.tasks[j].id
      ensures after.events[i].task == after.tasks[j].id
    {
      EventsFollowTheirTasks(mid, draws, now, i, j);
    }
  }

  /** Importing a backlog again changes nothing, in any later state that still has its events and distinct new IDs. */
  lemma {:induction false} ImportingAgainAddsNothing(db: Db, saved: Backlog, draws: seq<Draw>, now: real, later: Db, more: seq<Draw>, nextNow: real)
    requires Distinct(db.tasks) && Imported(db, saved, draws, now).Ok?
    requires forall e <- Imported(db, saved, draws, now).value.events :: e in later.events
    requires forall t <- later.tasks :: IsTaskId(t.id) && !BadFolder(t)
    ensures Imported(later, saved, more, nextNow) == Ok(later)
  {
    var rows := RowsOf(saved.tasks, Shelf) + RowsOf(saved.running, Desk);
    var mid, after := Insert(db, rows, now), Imported(db, saved, draws, now).value;
    InsertKnows(db, rows, now);
    RowsAreLegacy(saved.tasks, Shelf);
    RowsAreLegacy(saved.running, Desk);
    forall t <- rows ensures !IsNew(later, t) {
      assert t in RowsOf(saved.tasks, Shelf) || t in RowsOf(saved.running, Desk);
      LegacyIsNoTaskId(t.id);
      OldIdsAreRemembered(mid, draws, now, t.id);
      var e :| e in after.events && e.what == "renumbered" && "from" in e.doc && e.doc["from"] == Text(t.id);
      assert e in later.events;
    }
    KnownRowsAddNothing(later, rows, nextNow);
    NothingTodo(later.tasks);
  }

  /** In particular right after the first import. */
  lemma {:induction false} ImportingTwiceIsImportingOnce(db: Db, saved: Backlog, draws: seq<Draw>, now: real, more: seq<Draw>, later: real)
    requires Distinct(db.tasks) && Imported(db, saved, draws, now).Ok?
    ensures Imported(Imported(db, saved, draws, now).value, saved, more, later) == Imported(db, saved, draws, now)
  {
    var rows := RowsOf(saved.tasks, Shelf) + RowsOf(saved.running, Desk);
    var mid := Insert(db, rows, now);
    InsertKnows(db, rows, now);
    EveryTaskStays(mid, draws, now);
    SecondRunChangesNothing(mid, draws, now, more, later);
    ImportingAgainAddsNothing(db, saved, draws, now, Imported(db, saved, draws, now).value, more, later);
  }

  // A task's story

  function OfTask(id: string): Event -> bool {
    (e: Event) => e.task == id
  }

  lemma {:induction false} FollowedFilter(names: map<string, string>, events: seq<Event>, id: string)
    ensures Filter(OfTask(id), FollowEvents(names, events)) == FollowEvents(names, Filter(OfTask(id), events))
  {
    if events != [] {
      var n := |events| - 1;
      FollowedFilter(names, events[..n], id);
      assert FollowEvents(names, events)[..n] == FollowEvents(names, events[..n]);
      var most := Filter(OfTask(id), events[..n]);
      assert FollowEvents(names, most + [events[n]]) == FollowEvents(names, most) + [FollowEvents(names, events)[n]];
      hide FollowDoc;
    }
  }

  lemma {:induction false} RenameOneMore(names: map<string, string>, events: seq<Event>, e: Event)
    ensures RenameEvents(names, events + [e]) == RenameEvents(names, events) + [e.(task := Rename(names, e.task))]
  {
    hide Rename;
  }

  lemma {:induction false} FilterOneMore(id: string, events: seq<Event>, e: Event)
    ensures Filter(OfTask(id), events + [e]) == Filter(OfTask(id), events) + if e.task == id then [e] else []
  {
    assert (events + [e])[..|events|] == events;
  }

  lemma {:induction false} RenamedFilter(names: map<string, string>, events: seq<Event>, id: string)
    requires forall e <- events :: Rename(names, e.task) == Rename(names, id) ==> e.task == id
    ensures Filter(OfTask(Rename(names, id)), RenameEvents(names, events)) == RenameEvents(names, Filter(OfTask(id), events))
  {
    if events != [] {
      var most, last := events[..|events| - 1], events[|events| - 1];
      assert events == most + [last];
      assert last in events && forall e <- most :: e in events;
      hide RenameEvents, Rename, Filter;
      RenamedFilter(names, most, id);
      RenameOneMore(names, most, last);
      FilterOneMore(id, most, last);
      FilterOneMore(Rename(names, id), RenameEvents(names, most), last.(task := Rename(names, last.task)));
      RenameOneMore(names, Filter(OfTask(id), most), last);
    }
  }

  lemma {:induction false} LoggedFilter(pairs: seq<Pair>, id: string, now: real, k: nat)
    requires k < |pairs| && forall i :: 0 <= i < |pairs| ==> (pairs[i].given == id <==> i == k)
    ensures Filter(OfTask(id), Logged(pairs, now)) == [RenumberedEvent(pairs[k], now)]
  {
    var n := |pairs| - 1;
    assert Logged(pairs, now)[..n] == Logged(pairs[..n], now);
    if k == n {
      FilterNone(OfTask(id), Logged(pairs[..n], now));
    } else {
      LoggedFilter(pairs[..n], id, now, k);
    }
  }

  lemma {:induction false} StoryInParts(names: map<string, string>, pairs: seq<Pair>, events: seq<Event>, id: string, now: real)
    requires forall e <- events :: Rename(names, e.task) == Rename(names, id) ==> e.task == id
    ensures Filter(OfTask(Rename(names, id)), FollowEvents(names, RenameEvents(names, events) + Logged(pairs, now)))
         == FollowEvents(names, RenameEvents(names, Filter(OfTask(id), events)) + Filter(OfTask(Rename(names, id)), Logged(pairs, now)))
  {
    FollowedFilter(names, RenameEvents(names, events) + Logged(pairs, now), Rename(names, id));
    FilterConcat(OfTask(Rename(names, id)), RenameEvents(names, events), Logged(pairs, now));
    RenamedFilter(names, events, id);
    hide FollowEvents, RenameEvents, Logged, Rename;
  }

  /** Renaming keeps tasks apart. */
  lemma {:induction false} RenamesApart(names: map<string, string>, tasks: seq<Task>, a: string, b: string)
    requires Renaming(names, tasks) && a in IdsOf(tasks) && b in IdsOf(tasks) && Rename(names, a) == Rename(names, b)
    ensures a == b
  {
  }

  lemma {:induction false} LoggedOf(names: map<string, string>, pairs: seq<Pair>, tasks: seq<Task>, t: Task, now: real)
    requires Renaming(names, tasks) && names == Names(pairs) && KeysApart(pairs) && t in tasks
    ensures Filter(OfTask(Rename(names, t.id)), Logged(pairs, now))
         == if IsTaskId(t.id) then [] else [RenumberedEvent(Pair(t.id, Rename(names, t.id)), now)]
  {
    var id := Rename(names, t.id);
    if IsTaskId(t.id) {
      assert t.id in IdsOf(tasks);
      forall e <- Logged(pairs, now) ensures !OfTask(id)(e) {
        var i :| 0 <= i < |pairs| && e == RenumberedEvent(pairs[i], now);
        NamesAt(pairs, i);
      }
      FilterNone(OfTask(id), Logged(pairs, now));
    } else {
      var k := NamedBy(pairs, t.id);
      forall i | 0 <= i < |pairs| ensures pairs[i].given == id <==> i == k {
        NamesAt(pairs, i);
      }
      LoggedFilter(pairs, id, now, k);
    }
  }

  /** An event as renumbering leaves it: of the task's new ID, and the same but for blockers. */
  ghost predicate StoryFollows(before: seq<Event>, after: seq<Event>, id: string) {
    |after| == |before| && forall k :: 0 <= k < |before| ==> SameEvent(before[k], after[k]) && after[k].task == id
  }

  lemma {:induction false} FollowedStory(names: map<string, string>, before: seq<Event>, was: string)
    requires forall e <- before :: e.task == was
    ensures StoryFollows(before, FollowEvents(names, RenameEvents(names, before)), Rename(names, was))
  {
    forall k | 0 <= k < |before|
      ensures var e := FollowEvents(names, RenameEvents(names, before))[k]; SameEvent(before[k], e) && e.task == Rename(names, was)
    {
      assert before[k] in before;
    }
  }

  /**
   The events that name a task after renumbering are those that named it before, in their
   order, and then, if it was given a new ID, one that says which it had.
   */
  lemma {:induction false} EachTaskKeepsItsStory(db: Db, draws: seq<Draw>, now: real, j: nat) returns (story: seq<Event>)
    requires Distinct(db.tasks) && EventsNameTasks(db) && Renumbered(db, draws, now).Ok? && j < |db.tasks|
    ensures j < |Renumbered(db, draws, now).value.tasks|
    ensures var after, t := Renumbered(db, draws, now).value, db.tasks[j];
            var id := after.tasks[j].id;
            && StoryFollows(Filter(OfTask(t.id), db.events), story, id)
            && Filter(OfTask(id), after.events) == story + if IsTaskId(t.id) then [] else [Event(id, now, "renumbered", None, None, Some("daemon"), map["from" := Text(t.id)])]
  {
    var names, pairs := RenumberedHow(db, draws, now);
    hide Renumbered, Filter, StoryFollows, Rewritten, Renaming, Names, KeysApart, EventsNameTasks, Distinct, IsTaskId;
    if pairs == [] {
      assert db.tasks[j] in db.tasks;
      story := Filter(OfTask(db.tasks[j].id), db.events);
      SameStory(db.events, db.tasks[j].id);
    } else {
      story := StoryRewritten(names, pairs, db, now, j);
    }
  }

  lemma {:induction false} SameStory(events: seq<Event>, id: string)
    ensures StoryFollows(Filter(OfTask(id), events), Filter(OfTask(id), events), id)
    ensures Filter(OfTask(id), events) + [] == Filter(OfTask(id), events)
  {
    FilterOnly(OfTask(id), events);
    var story := Filter(OfTask(id), events);
    forall k | 0 <= k < |story| ensures SameEvent(story[k], story[k]) && story[k].task == id {
      assert story[k] in story;
    }
  }

  lemma {:induction false} StoryRewritten(names: map<string, string>, pairs: seq<Pair>, db: Db, now: real, j: nat) returns (story: seq<Event>)
    requires Renaming(names, db.tasks) && names == Names(pairs) && KeysApart(pairs) && EventsNameTasks(db) && j < |db.tasks|
    ensures var after, t := Rewritten(names, pairs, db, now), db.tasks[j];
            && |after.tasks| == |db.tasks|
            && var id := after.tasks[j].id;
               && StoryFollows(Filter(OfTask(t.id), db.events), story, id)
               && Filter(OfTask(id), after.events) == story + if IsTaskId(t.id) then [] else [RenumberedEvent(Pair(t.id, id), now)]
  {
    var t := db.tasks[j];
    assert t in db.tasks;
    var before := Filter(OfTask(t.id), db.events);
    FilterOnly(OfTask(t.id), db.events);
    story := FollowEvents(names, RenameEvents(names, before));
    StoryOfOne(names, pairs, db, now, t);
    FollowedStory(names, before, t.id);
    RewrittenIsMapped(names, pairs, db, now);
    hide Filter, StoryFollows, Renaming, Names, KeysApart, EventsNameTasks, IsTaskId, FollowEvents, RenameEvents, Rewritten, BlockersMapped;
  }

  lemma {:induction false} StoryOfOne(names: map<string, string>, pairs: seq<Pair>, db: Db, now: real, t: Task)
    requires Renaming(names, db.tasks) && names == Names(pairs) && KeysApart(pairs) && t in db.tasks && EventsNameTasks(db)
    ensures Filter(OfTask(Rename(names, t.id)), Rewritten(names, pairs, db, now).events)
         == FollowEvents(names, RenameEvents(names, Filter(OfTask(t.id), db.events)))
            + if IsTaskId(t.id) then [] else [RenumberedEvent(Pair(t.id, Rename(names, t.id)), now)]
  {
    var id := Rename(names, t.id);
    assert t.id in IdsOf(db.tasks);
    forall e <- db.events ensures Rename(names, e.task) == id ==> e.task == t.id {
      if Rename(names, e.task) == id {
        RenamesApart(names, db.tasks, e.task, t.id);
      }
    }
    StoryInParts(names, pairs, db.events, t.id, now);
    LoggedOf(names, pairs, db.tasks, t, now);
    hide Renaming, Names, KeysApart, Filter;
    FollowedConcat(names, RenameEvents(names, Filter(OfTask(t.id), db.events)), Filter(OfTask(id), Logged(pairs, now)));
  }

  lemma {:induction false} FollowedConcat(names: map<string, string>, events: seq<Event>, logged: seq<Event>)
    requires forall e <- logged :: "after" !in e.doc
    ensures FollowEvents(names, events + logged) == FollowEvents(names, events) + logged
  {
    forall i | 0 <= i < |logged| ensures "after" !in logged[i].doc {
      assert logged[i] in logged;
    }
  }

  // In which order

  /** Older, or as old and inserted before. */
  ghost predicate ComesFirst(tasks: seq<Task>, a: Task, b: Task) {
    a.madeAt < b.madeAt || (a.madeAt == b.madeAt && exists i, j :: 0 <= i < j < |tasks| && tasks[i] == a && tasks[j] == b)
  }

  ghost predicate OldestFirst(tasks: seq<Task>, list: seq<Task>) {
    forall i, j :: 0 <= i < j < |list| ==> ComesFirst(tasks, list[i], list[j])
  }

  lemma {:induction false} StillFirst(tasks: seq<Task>, t: Task, a: Task, b: Task)
    ensures ComesFirst(tasks, a, b) ==> ComesFirst(tasks + [t], a, b)
    ensures a in tasks && a.madeAt <= t.madeAt ==> ComesFirst(tasks + [t], a, t)
  {
    var more := tasks + [t];
    if ComesFirst(tasks, a, b) && a.madeAt == b.madeAt {
      var i, j :| 0 <= i < j < |tasks| && tasks[i] == a && tasks[j] == b;
      assert more[i] == a && more[j] == b;
    }
    if a in tasks {
      var i :| 0 <= i < |tasks| && tasks[i] == a;
      assert more[i] == a && more[|tasks|] == t;
    }
  }

  lemma {:induction false} InsertKeepsOldest(tasks: seq<Task>, t: Task, sorted: seq<Task>)
    requires OldestFirst(tasks, sorted) && forall x <- sorted :: x in tasks
    ensures OldestFirst(tasks + [t], InsertByTime(t, sorted)) && forall x :: x in InsertByTime(t, sorted) <==> x in sorted || x == t
  {
    forall a, b {
      StillFirst(tasks, t, a, b);
    }
    if sorted != [] {
      var most, last := sorted[..|sorted| - 1], sorted[|sorted| - 1];
      assert sorted == most + [last] && last in sorted;
      hide ComesFirst;
      if last.madeAt <= t.madeAt {
        LastIsYoungest(tasks, sorted, t);
      } else {
        InsertKeepsOldest(tasks, t, most);
        var inner := InsertByTime(t, most);
        forall i | 0 <= i < |inner| ensures ComesFirst(tasks + [t], inner[i], last) {
          assert inner[i] in inner;
          YoungerIsAfter(tasks, sorted, t, inner[i]);
        }
      }
    }
  }

  lemma {:induction false} LastIsYoungest(tasks: seq<Task>, sorted: seq<Task>, t: Task)
    requires OldestFirst(tasks, sorted) && sorted != [] && sorted[|sorted| - 1].madeAt <= t.madeAt && forall x <- sorted :: x in tasks
    ensures OldestFirst(tasks + [t], sorted + [t])
  {
    var all, n := sorted + [t], |sorted| - 1;
    forall i, j | 0 <= i < j < |all| ensures ComesFirst(tasks + [t], all[i], all[j]) {
      assert sorted[i] in sorted;
      if i < n {
        assert ComesFirst(tasks, sorted[i], sorted[n]);
      }
      StillFirst(tasks, t, all[i], all[j]);
    }
  }

  lemma {:induction false} YoungerIsAfter(tasks: seq<Task>, sorted: seq<Task>, t: Task, x: Task)
    requires OldestFirst(tasks, sorted) && sorted != [] && sorted[|sorted| - 1].madeAt > t.madeAt && (x in sorted[..|sorted| - 1] || x == t)
    ensures ComesFirst(tasks + [t], x, sorted[|sorted| - 1])
  {
    if x != t {
      var n := |sorted| - 1;
      var i :| 0 <= i < n && sorted[..n][i] == x;
      assert ComesFirst(tasks, sorted[i], sorted[n]);
      StillFirst(tasks, t, x, sorted[n]);
    }
  }

  lemma {:induction false} ByTimeIsOldestFirst(tasks: seq<Task>)
    ensures OldestFirst(tasks, ByTime(tasks)) && forall x :: x in ByTime(tasks) <==> x in tasks
  {
    if tasks != [] {
      var most, last := tasks[..|tasks| - 1], tasks[|tasks| - 1];
      ByTimeIsOldestFirst(most);
      InsertKeepsOldest(most, last, ByTime(most));
      assert tasks == most + [last];
    }
  }

  lemma {:induction false} FilterKeepsOldest(tasks: seq<Task>, keep: Task -> bool, list: seq<Task>)
    requires OldestFirst(tasks, list)
    ensures OldestFirst(tasks, Filter(keep, list))
  {
    if list != [] {
      var most, last := list[..|list| - 1], list[|list| - 1];
      FilterKeepsOldest(tasks, keep, most);
      FilterOnly(keep, most);
      var kept := Filter(keep, most);
      forall i | 0 <= i < |kept| ensures ComesFirst(tasks, kept[i], last) {
        assert kept[i] in most;
        var k :| 0 <= k < |most| && most[k] == kept[i];
        assert list[k] == kept[i];
      }
    }
  }

  /** The event says that the task in row `j` was given its new ID. */
  ghost predicate Records(db: Db, after: Db, now: real, k: nat, j: nat) {
    && k < |after.events| && j < |db.tasks| == |after.tasks|
    && after.events[k] == Event(after.tasks[j].id, now, "renumbered", None, None, Some("daemon"), map["from" := Text(db.tasks[j].id)])
  }

  lemma {:induction false} RecordsOne(db: Db, draws: seq<Draw>, now: real, after: Db, k: nat) returns (j: nat)
    requires Distinct(db.tasks) && Renumbered(db, draws, now) == Ok(after) && |db.events| <= k < |after.events|
    ensures Records(db, after, now, k, j)
  {
    j := AddedEventsRecordRenamings(db, draws, now, k);
    hide Renumbered, Distinct, IsTaskId;
  }

  lemma {:induction false} LoggedIs(db: Db, draws: seq<Draw>, now: real, after: Db, i: nat)
    requires Distinct(db.tasks) && Renumbered(db, draws, now) == Ok(after) && |db.events| + i < |after.events|
    ensures i < |Todo(db.tasks)| && "from" in after.events[|db.events| + i].doc && after.events[|db.events| + i].doc["from"] == Text(Todo(db.tasks)[i].id)
  {
    var todo := Todo(db.tasks);
    var pairs := Assign(todo, TaskIds(db.tasks), draws).value;
    AssignGives(todo, TaskIds(db.tasks), draws);
    hide Todo, TaskIds, Assign, Distinct, Names, IsTaskId, FollowTasks, RenameTasks;
    RewrittenCount(Names(pairs), pairs, db, now);
    if pairs != [] {
      LoggedAt(Names(pairs), db.events, pairs, now, i);
    }
  }

  lemma {:induction false} AddedFor(db: Db, draws: seq<Draw>, now: real, after: Db, i: nat) returns (j: nat)
    requires Distinct(db.tasks) && Renumbered(db, draws, now) == Ok(after) && |db.events| + i < |after.events|
    ensures Records(db, after, now, |db.events| + i, j) && i < |Todo(db.tasks)| && db.tasks[j] == Todo(db.tasks)[i]
  {
    j := RecordsOne(db, draws, now, after, |db.events| + i);
    LoggedIs(db, draws, now, after, i);
    TodoIsTheOldOnes(db.tasks);
    hide Renumbered, Todo, IsTaskId;
    var t := Todo(db.tasks)[i];
    assert t in Todo(db.tasks);
    var k :| 0 <= k < |db.tasks| && db.tasks[k] == t;
    assert k == j;
  }

  /** New IDs are given to the oldest tasks first, and of those as old to the ones inserted first. */
  lemma {:induction false} OldestAreRenumberedFirst(db: Db, draws: seq<Draw>, now: real, after: Db, k1: nat, k2: nat) returns (i: nat, j: nat)
    requires Distinct(db.tasks) && Renumbered(db, draws, now) == Ok(after) && |db.events| <= k1 < k2 < |after.events|
    ensures Records(db, after, now, k1, i) && Records(db, after, now, k2, j)
    ensures db.tasks[i].madeAt < db.tasks[j].madeAt || (db.tasks[i].madeAt == db.tasks[j].madeAt && i < j)
  {
    hide Renumbered, Todo, Distinct;
    i := AddedFor(db, draws, now, after, k1 - |db.events|);
    j := AddedFor(db, draws, now, after, k2 - |db.events|);
    TodoInOrder(db.tasks, k1 - |db.events|, k2 - |db.events|, i, j);
  }

  lemma {:induction false} TodoInOrder(tasks: seq<Task>, a: nat, b: nat, i: nat, j: nat)
    requires Distinct(tasks) && a < b < |Todo(tasks)| && i < |tasks| && j < |tasks| && tasks[i] == Todo(tasks)[a] && tasks[j] == Todo(tasks)[b]
    ensures tasks[i].madeAt < tasks[j].madeAt || (tasks[i].madeAt == tasks[j].madeAt && i < j)
  {
    ByTimeIsOldestFirst(tasks);
    FilterKeepsOldest(tasks, Old(), ByTime(tasks));
    assert ComesFirst(tasks, tasks[i], tasks[j]);
    if tasks[i].madeAt == tasks[j].madeAt {
      var x, y :| 0 <= x < y < |tasks| && tasks[x] == tasks[i] && tasks[y] == tasks[j];
      assert x == i && y == j;
    }
  }

  // What arrives of a backlog

  function Size(saved: Backlog): nat {
    |saved.tasks| + |saved.running|
  }

  /** The backlog's tasks, shelved ones first. */
  function SavedAt(saved: Backlog, i: nat): Saved
    requires i < Size(saved)
  {
    if i < |saved.tasks| then saved.tasks[i] else saved.running[i - |saved.tasks|]
  }

  function PlaceAt(saved: Backlog, i: nat): Place {
    if i < |saved.tasks| then Shelf else Desk
  }

  /** It is a task of the old form with this ID, and has a repo. */
  predicate HasId(s: Saved, id: string) {
    "id" in s.texts && s.texts["id"] == id && Legacy(id) && "repo" in s.texts && s.texts["repo"] != ""
  }

  ghost predicate Earlier(saved: Backlog, n: nat, id: string)
    requires n <= Size(saved)
  {
    exists j: nat :: j < n && HasId(SavedAt(saved, j), id)
  }

  /** The task is the first of the backlog with its ID, which the database has no task of and never renumbered. */
  ghost predicate Arrives(db: Db, saved: Backlog, i: nat, id: string)
    requires i < Size(saved)
  {
    HasId(SavedAt(saved, i), id) && !Earlier(saved, i, id) && id !in IdsOf(db.tasks) && !WasRenumbered(db.events, id)
  }

  ghost predicate Arrived(db: Db, saved: Backlog, i: nat)
    requires i < Size(saved)
  {
    exists id :: Arrives(db, saved, i, id)
  }

  /** How many of the first `n` arrive. */
  ghost function Arrivals(db: Db, saved: Backlog, n: nat): nat
    requires n <= Size(saved)
  {
    if n == 0 then 0 else Arrivals(db, saved, n - 1) + if Arrived(db, saved, n - 1) then 1 else 0
  }

  function Given(s: Saved, key: string): Option<string> {
    if key in s.texts && s.texts[key] != "" then Some(s.texts[key]) else None
  }

  /** The row has the saved task's repo, time, terminal and texts, in the place of its list. */
  ghost predicate RowFits(s: Saved, place: Place, t: Task) {
    && Given(s, "repo") == Some(t.repo) && t.place == place
    && t.terminal == (var pane := if place == Desk then s.pane else s.held; if pane == Some("") then None else pane)
    && t.madeAt == (if s.madeAt.Some? then s.madeAt.value else 0.0)
    && (forall key :: key in t.doc <==> key in KEPT_TEXTS && Given(s, key).Some?)
    && (forall key <- t.doc :: Given(s, key).Some? && t.doc[key] == Text(Given(s, key).value))
  }

  /** That it was made, by whom and when; and, if it runs, that it came to the Desk. */
  function Story(s: Saved, place: Place, id: string, now: real): seq<Event> {
    [Event(id, if s.madeAt.Some? then s.madeAt.value else 0.0, "made", None, Some(Shelf), Given(s, "by"), map[])]
    + if place == Desk then [Event(id, now, "imported", Some(Shelf), Some(Desk), Some("daemon"), map[])] else []
  }

  lemma {:induction false} RowOfSaved(s: Saved, place: Place, now: real)
    ensures RowFromSaved(s, place).Some? <==> exists id :: HasId(s, id)
    ensures RowFromSaved(s, place).Some? ==>
              var t := RowFromSaved(s, place).value;
              HasId(s, t.id) && RowFits(s, place, t) && (place != Done ==> MadeEvents(t, now) == Story(s, place, t.id, now))
  {
    if RowFromSaved(s, place).Some? {
      assert HasId(s, RowFromSaved(s, place).value.id);
    }
    if id :| HasId(s, id) {
      assert Legacy(id) && id != "";
    }
  }

  function RowsUpTo(saved: Backlog, n: nat): seq<Task>
    requires n <= Size(saved)
  {
    if n <= |saved.tasks| then RowsOf(saved.tasks[..n], Shelf)
    else RowsOf(saved.tasks, Shelf) + RowsOf(saved.running[..n - |saved.tasks|], Desk)
  }

  lemma {:induction false} RowsOfOneMore(list: seq<Saved>, n: nat, place: Place)
    requires n < |list|
    ensures var row := RowFromSaved(list[n], place);
            RowsOf(list[..n + 1], place) == RowsOf(list[..n], place) + if row.Some? then [row.value] else []
  {
    assert list[..n + 1][..n] == list[..n];
  }

  lemma {:induction false} RowsOneMore(saved: Backlog, n: nat)
    requires n < Size(saved)
    ensures var row := RowFromSaved(SavedAt(saved, n), PlaceAt(saved, n));
            RowsUpTo(saved, n + 1) == RowsUpTo(saved, n) + if row.Some? then [row.value] else []
  {
    var k := |saved.tasks|;
    if n < k {
      RowsOfOneMore(saved.tasks, n, Shelf);
    } else {
      RowsOfOneMore(saved.running, n - k, Desk);
      assert n == k ==> saved.running[..0] == [] && saved.tasks[..k] == saved.tasks;
      hide RowFromSaved;
      var more := RowsOf(saved.running[..n - k], Desk);
      assert n == k ==> RowsOf(saved.tasks, Shelf) + more == RowsOf(saved.tasks, Shelf);
    }
  }

  lemma {:induction false} AllRows(saved: Backlog)
    ensures RowsUpTo(saved, Size(saved)) == RowsOf(saved.tasks, Shelf) + RowsOf(saved.running, Desk)
  {
    assert saved.tasks[..|saved.tasks|] == saved.tasks && saved.running[..|saved.running|] == saved.running;
    if saved.running == [] {
      assert RowsOf(saved.tasks, Shelf) + RowsOf(saved.running, Desk) == RowsOf(saved.tasks, Shelf);
    }
  }

  ghost function InsertedUpTo(db: Db, saved: Backlog, now: real, n: nat): Db
    requires n <= Size(saved)
  {
    Insert(db, RowsUpTo(saved, n), now)
  }

  lemma {:induction false} InsertOneMore(db: Db, rows: seq<Task>, t: Task, now: real)
    ensures var before := Insert(db, rows, now);
            Insert(db, rows + [t], now) ==
            if IsNew(before, t) then before.(tasks := before.tasks + [t], events := before.events + MadeEvents(t, now)) else before
  {
    assert (rows + [t])[..|rows|] == rows;
  }

  lemma {:induction false} MadeIsNotRenumbered(events: seq<Event>, t: Task, now: real, id: string)
    ensures WasRenumbered(events + MadeEvents(t, now), id) <==> WasRenumbered(events, id)
  {
    var all := events + MadeEvents(t, now);
    forall e | e in all ensures e in events || e.what != "renumbered" {
      assert e in events || e in MadeEvents(t, now);
    }
    if WasRenumbered(events, id) {
      WasRenumberedStays(events, MadeEvents(t, now), id);
    }
  }

  /** The database knows of an ID once it or a task of the backlog has it. */
  ghost predicate KnowsIds(db: Db, saved: Backlog, n: nat, mid: Db)
    requires n <= Size(saved)
  {
    && (forall id :: WasRenumbered(mid.events, id) <==> WasRenumbered(db.events, id))
    && forall id :: !WasRenumbered(db.events, id) ==> (id in IdsOf(mid.tasks) <==> id in IdsOf(db.tasks) || Earlier(saved, n, id))
  }

  lemma {:induction false} EarlierOneMore(saved: Backlog, n: nat, id: string)
    requires n < Size(saved)
    ensures Earlier(saved, n + 1, id) <==> Earlier(saved, n, id) || HasId(SavedAt(saved, n), id)
  {
    if Earlier(saved, n + 1, id) {
      var j: nat :| j < n + 1 && HasId(SavedAt(saved, j), id);
    }
  }

  lemma {:induction false} OneId(s: Saved, a: string, b: string)
    requires HasId(s, a) && HasId(s, b)
    ensures a == b
  {
  }

  lemma {:induction false} ArrivesWhenNew(db: Db, saved: Backlog, now: real, n: nat, mid: Db)
    requires n < Size(saved) && KnowsIds(db, saved, n, mid)
    ensures var row := RowFromSaved(SavedAt(saved, n), PlaceAt(saved, n));
            && (Arrived(db, saved, n) <==> row.Some? && IsNew(mid, row.value))
            && (row.Some? ==> (Arrives(db, saved, n, row.value.id) <==> IsNew(mid, row.value)))
  {
    var s, place := SavedAt(saved, n), PlaceAt(saved, n);
    var row := RowFromSaved(s, place);
    RowOfSaved(s, place, now);
    hide RowFromSaved, WasRenumbered, IdsOf, RowFits, MadeEvents, Story;
    if Arrived(db, saved, n) {
      var id :| Arrives(db, saved, n, id);
      OneId(s, id, row.value.id);
    }
    if row.Some? {
      assert Arrives(db, saved, n, row.value.id) <==> IsNew(mid, row.value);
    }
  }

  lemma {:induction false} KnowsOneMore(db: Db, saved: Backlog, now: real, n: nat, mid: Db, next: Db)
    requires n < Size(saved) && KnowsIds(db, saved, n, mid) && Distinct(mid.tasks)
    requires var row := RowFromSaved(SavedAt(saved, n), PlaceAt(saved, n));
             next == if row.Some? && IsNew(mid, row.value)
                     then mid.(tasks := mid.tasks + [row.value], events := mid.events + MadeEvents(row.value, now)) else mid
    ensures KnowsIds(db, saved, n + 1, next) && Distinct(next.tasks)
  {
    var s, place := SavedAt(saved, n), PlaceAt(saved, n);
    var row := RowFromSaved(s, place);
    RowOfSaved(s, place, now);
    hide RowFromSaved, RowFits, Story;
    if row.Some? && IsNew(mid, row.value) {
      InsertOne(mid, row.value, now);
    }
    forall id ensures WasRenumbered(next.events, id) <==> WasRenumbered(db.events, id) {
      if row.Some? {
        MadeIsNotRenumbered(mid.events, row.value, now, id);
      }
    }
    hide WasRenumbered, MadeEvents, Distinct;
    forall id | !WasRenumbered(db.events, id) ensures id in IdsOf(next.tasks) <==> id in IdsOf(db.tasks) || Earlier(saved, n + 1, id) {
      EarlierOneMore(saved, n, id);
      if HasId(s, id) {
        OneId(s, id, row.value.id);
      }
    }
  }

  /** The database with the row of the next saved task, if it is one and new. */
  function WithNext(mid: Db, saved: Backlog, now: real, n: nat): Db
    requires n < Size(saved)
  {
    var row := RowFromSaved(SavedAt(saved, n), PlaceAt(saved, n));
    if row.Some? && IsNew(mid, row.value)
    then mid.(tasks := mid.tasks + [row.value], events := mid.events + MadeEvents(row.value, now)) else mid
  }

  lemma {:induction false} InsertedNext(db: Db, saved: Backlog, now: real, n: nat)
    requires n < Size(saved)
    ensures InsertedUpTo(db, saved, now, n + 1) == WithNext(InsertedUpTo(db, saved, now, n), saved, now, n)
  {
    var row := RowFromSaved(SavedAt(saved, n), PlaceAt(saved, n));
    hide RowFromSaved, RowsUpTo, Insert, IsNew, MadeEvents;
    RowsOneMore(saved, n);
    if row.Some? {
      InsertOneMore(db, RowsUpTo(saved, n), row.value, now);
    } else {
      assert RowsUpTo(saved, n) + [] == RowsUpTo(saved, n);
    }
  }

  lemma {:induction false} InsertedNone(db: Db, saved: Backlog, now: real)
    ensures InsertedUpTo(db, saved, now, 0) == db && KnowsIds(db, saved, 0, db)
  {
    assert saved.tasks[..0] == [];
    assert forall id :: !Earlier(saved, 0, id);
  }

  lemma {:induction false} InsertedKnows(db: Db, saved: Backlog, now: real, n: nat)
    requires n <= Size(saved) && Distinct(db.tasks)
    ensures var mid := InsertedUpTo(db, saved, now, n);
            KnowsIds(db, saved, n, mid) && Distinct(mid.tasks) && |mid.tasks| == |db.tasks| + Arrivals(db, saved, n)
  {
    hide RowFromSaved, KnowsIds, IsNew, Arrived, MadeEvents, Distinct, InsertedUpTo;
    if n == 0 {
      InsertedNone(db, saved, now);
    } else {
      InsertedKnows(db, saved, now, n - 1);
      var mid := InsertedUpTo(db, saved, now, n - 1);
      InsertedNext(db, saved, now, n - 1);
      ArrivesWhenNew(db, saved, now, n - 1, mid);
      KnowsOneMore(db, saved, now, n - 1, mid, WithNext(mid, saved, now, n - 1));
    }
  }

  /** What an arrived task's row and events are, and stay, while the rest of the backlog is inserted. */
  ghost predicate Stands(db: Db, s: Saved, place: Place, id: string, j: nat, now: real, mid: Db) {
    && j < |mid.tasks| && mid.tasks[j].id == id && RowFits(s, place, mid.tasks[j])
    && Filter(OfTask(id), mid.events) == Filter(OfTask(id), db.events) + Story(s, place, id, now)
  }

  lemma {:induction false} StoryStays(mid: Db, t: Task, now: real, id: string)
    ensures Filter(OfTask(id), mid.events + MadeEvents(t, now)) == Filter(OfTask(id), mid.events) + if t.id == id then MadeEvents(t, now) else []
  {
    FilterConcat(OfTask(id), mid.events, MadeEvents(t, now));
    if t.id == id {
      FilterAll(OfTask(id), MadeEvents(t, now));
    } else {
      FilterNone(OfTask(id), MadeEvents(t, now));
    }
  }

  lemma {:induction false} StandsStill(db: Db, saved: Backlog, now: real, n: nat, s: Saved, place: Place, id: string, j: nat, mid: Db)
    requires n < Size(saved) && Stands(db, s, place, id, j, now, mid)
    ensures Stands(db, s, place, id, j, now, WithNext(mid, saved, now, n))
  {
    var row := RowFromSaved(SavedAt(saved, n), PlaceAt(saved, n));
    hide RowFromSaved, RowFits, WasRenumbered, Story, Filter;
    if row.Some? && IsNew(mid, row.value) {
      assert mid.tasks[j] in mid.tasks && id in IdsOf(mid.tasks);
      StoryStays(mid, row.value, now, id);
      hide MadeEvents;
    }
  }

  /** It is not known yet, so nothing tells of it but what the database had before. */
  lemma {:induction false} NoStoryYet(db: Db, saved: Backlog, now: real, n: nat, id: string)
    requires n <= Size(saved) && Distinct(db.tasks) && !Earlier(saved, n, id)
    ensures Filter(OfTask(id), InsertedUpTo(db, saved, now, n).events) == Filter(OfTask(id), db.events)
  {
    hide RowFromSaved, MadeEvents, InsertedUpTo, Filter;
    if n == 0 {
      InsertedNone(db, saved, now);
    } else {
      EarlierOneMore(saved, n - 1, id);
      NoStoryYet(db, saved, now, n - 1, id);
      InsertedNext(db, saved, now, n - 1);
      var mid := InsertedUpTo(db, saved, now, n - 1);
      var s, place := SavedAt(saved, n - 1), PlaceAt(saved, n - 1);
      RowOfSaved(s, place, now);
      var row := RowFromSaved(s, place);
      if row.Some? {
        StoryStays(mid, row.value, now, id);
      }
      assert Filter(OfTask(id), mid.events) + [] == Filter(OfTask(id), mid.events);
    }
  }

  lemma {:induction false} StandsAt(db: Db, saved: Backlog, now: real, i: nat, id: string, n: nat)
    requires i < n <= Size(saved) && Distinct(db.tasks) && Arrives(db, saved, i, id)
    ensures Stands(db, SavedAt(saved, i), PlaceAt(saved, i), id, |db.tasks| + Arrivals(db, saved, i), now, InsertedUpTo(db, saved, now, n))
  {
    hide RowFromSaved, RowFits, WasRenumbered, Story, Filter, MadeEvents, KnowsIds, InsertedUpTo, Distinct;
    var s, place, mid := SavedAt(saved, i), PlaceAt(saved, i), InsertedUpTo(db, saved, now, n - 1);
    InsertedNext(db, saved, now, n - 1);
    if i < n - 1 {
      StandsAt(db, saved, now, i, id, n - 1);
      hide WithNext;
      StandsStill(db, saved, now, n - 1, s, place, id, |db.tasks| + Arrivals(db, saved, i), mid);
    } else {
      InsertedKnows(db, saved, now, i);
      ArrivesWhenNew(db, saved, now, i, mid);
      RowOfSaved(s, place, now);
      var t := RowFromSaved(s, place).value;
      OneId(s, id, t.id);
      NoStoryYet(db, saved, now, i, id);
      StoryStays(mid, t, now, id);
    }
  }

  /** The saved task is in row `j` under a new ID, and its events are its story and its renaming. */
  ghost predicate IsIn(db: Db, j: nat, s: Saved, place: Place, id: string, now: real) {
    && j < |db.tasks| && RowFits(s, place, db.tasks[j]) && IsTaskId(db.tasks[j].id)
    && Filter(OfTask(db.tasks[j].id), db.events) == Story(s, place, db.tasks[j].id, now) + [Event(db.tasks[j].id, now, "renumbered", None, None, Some("daemon"), map["from" := Text(id)])]
  }

  /**
   Each task of a backlog that is the first with its ID and new to the database arrives: it has
   one row, in the order they stand, with the place of its list and its own repo, time, terminal
   and texts, and the events that name it are that it was made, came to the Desk if it
   runs, and had its old ID.
   */
  lemma {:induction false} EachSavedTaskArrives(db: Db, saved: Backlog, draws: seq<Draw>, now: real, after: Db, i: nat, id: string)
    requires Distinct(db.tasks) && EventsNameTasks(db) && Imported(db, saved, draws, now) == Ok(after)
    requires i < Size(saved) && Arrives(db, saved, i, id)
    ensures IsIn(after, |db.tasks| + Arrivals(db, saved, i), SavedAt(saved, i), PlaceAt(saved, i), id, now)
  {
    hide *;
    var s, place, j := SavedAt(saved, i), PlaceAt(saved, i), |db.tasks| + Arrivals(db, saved, i);
    var mid := InsertedUpTo(db, saved, now, Size(saved));
    StandsAt(db, saved, now, i, id, Size(saved));
    ArrivesAnew(db, saved, i, id);
    ImportedIs(db, saved, draws, now);
    RenumberedArrival(db, mid, draws, now, s, place, id, j);
  }

  lemma {:induction false} ImportedIs(db: Db, saved: Backlog, draws: seq<Draw>, now: real)
    requires Distinct(db.tasks)
    ensures var mid := InsertedUpTo(db, saved, now, Size(saved));
            && Imported(db, saved, draws, now) == Renumbered(mid, draws, now)
            && Distinct(mid.tasks) && (EventsNameTasks(db) ==> EventsNameTasks(mid))
  {
    AllRows(saved);
    InsertKnows(db, RowsUpTo(saved, Size(saved)), now);
    hide Renumbered, Insert, RowsUpTo, Distinct, EventsNameTasks, WasRenumbered;
  }

  lemma {:induction false} RenumberedArrival(db: Db, mid: Db, draws: seq<Draw>, now: real, s: Saved, place: Place, id: string, j: nat)
    requires Stands(db, s, place, id, j, now, mid) && Filter(OfTask(id), db.events) == [] && !IsTaskId(id)
    requires Distinct(mid.tasks) && EventsNameTasks(mid) && Renumbered(mid, draws, now).Ok?
    ensures IsIn(Renumbered(mid, draws, now).value, j, s, place, id, now)
  {
    hide Renumbered, Distinct, EventsNameTasks, Filter, RowFits, Story, IsTaskId, StoryFollows;
    EveryTaskStays(mid, draws, now);
    var after := Renumbered(mid, draws, now).value;
    var story := EachTaskKeepsItsStory(mid, draws, now, j);
    assert [] + Story(s, place, id, now) == Story(s, place, id, now);
    assert SameTask(mid.tasks[j], after.tasks[j]) && after.tasks[j] in after.tasks;
    hide SameTask;
    SameRow(s, place, mid.tasks[j], after.tasks[j]);
    SameNewStory(s, place, id, after.tasks[j].id, now, story);
  }

  lemma {:induction false} ArrivesAnew(db: Db, saved: Backlog, i: nat, id: string)
    requires i < Size(saved) && Arrives(db, saved, i, id) && EventsNameTasks(db)
    ensures !IsTaskId(id) && Filter(OfTask(id), db.events) == []
  {
    LegacyIsNoTaskId(id);
    FilterNone(OfTask(id), db.events);
  }

  lemma {:induction false} SameRow(s: Saved, place: Place, t: Task, after: Task)
    requires RowFits(s, place, t) && SameTask(t, after)
    ensures RowFits(s, place, after)
  {
    assert "after" !in t.doc;
    assert after.doc == after.doc - {"after"} && t.doc == t.doc - {"after"};
  }

  lemma {:induction false} SameNewStory(s: Saved, place: Place, id: string, given: string, now: real, story: seq<Event>)
    requires StoryFollows(Story(s, place, id, now), story, given)
    ensures story == Story(s, place, given, now)
  {
    forall k | 0 <= k < |story| ensures story[k] == Story(s, place, given, now)[k] {
      var e := Story(s, place, id, now)[k];
      assert SameEvent(e, story[k]);
      assert story[k].doc == story[k].doc - {"after"} && e.doc - {"after"} == map[];
    }
  }

  /** And no other: there are as many new rows as tasks that arrive. */
  lemma {:induction false} OnlySavedTasksArrive(db: Db, saved: Backlog, draws: seq<Draw>, now: real)
    requires Distinct(db.tasks) && Imported(db, saved, draws, now).Ok?
    ensures |Imported(db, saved, draws, now).value.tasks| == |db.tasks| + Arrivals(db, saved, Size(saved))
  {
    InsertedKnows(db, saved, now, Size(saved));
    AllRows(saved);
    hide Insert, Renumbered, RowsUpTo;
    EveryTaskStays(InsertedUpTo(db, saved, now, Size(saved)), draws, now);
  }

  // The database as it is updated

  function UpdateTasks(tasks: seq<Task>, id: string, given: string): seq<Task> {
    seq(|tasks|, i requires 0 <= i < |tasks| => if tasks[i].id == id then tasks[i].(id := given) else tasks[i])
  }

  function UpdateEvents(events: seq<Event>, id: string, given: string): seq<Event> {
    seq(|events|, i requires 0 <= i < |events| => if events[i].task == id then events[i].(task := given) else events[i])
  }

  predicate Settled(names: map<string, string>, id: string) {
    id !in names && forall k <- names :: names[k] != id
  }

  lemma {:induction false} OneMoreTask(names: map<string, string>, tasks: seq<Task>, id: string, given: string)
    requires Settled(names, id)
    ensures UpdateTasks(RenameTasks(names, tasks), id, given) == RenameTasks(names[id := given], tasks)
  {
  }

  lemma {:induction false} OneMoreEvent(names: map<string, string>, events: seq<Event>, logged: seq<Event>, id: string, given: string)
    requires Settled(names, id) && forall e <- logged :: e.task != id
    ensures UpdateEvents(RenameEvents(names, events) + logged, id, given) == RenameEvents(names[id := given], events) + logged
  {
    var all := RenameEvents(names, events) + logged;
    forall i | 0 <= i < |all|
      ensures UpdateEvents(all, id, given)[i] == (RenameEvents(names[id := given], events) + logged)[i]
    {
      if i >= |events| {
        assert logged[i - |events|] in logged;
      }
    }
  }

  lemma {:induction false} LoggedMore(pairs: seq<Pair>, pair: Pair, now: real)
    ensures Logged(pairs + [pair], now) == Logged(pairs, now) + [RenumberedEvent(pair, now)]
    ensures Names(pairs + [pair]) == Names(pairs)[pair.before := pair.given]
  {
    assert (pairs + [pair])[..|pairs|] == pairs;
  }

  /** What the loop has given so far: new IDs to old ones, each old one once. */
  predicate Progress(pairs: seq<Pair>, todo: seq<Task>, i: nat) {
    && |pairs| == i <= |todo|
    && (forall k :: 0 <= k < i ==> pairs[k].before == todo[k].id && IsTaskId(pairs[k].given))
  }

  lemma {:induction false} NextIsSettled(pairs: seq<Pair>, todo: seq<Task>, i: nat)
    requires Progress(pairs, todo, i) && i < |todo| && Distinct(todo) && !IsTaskId(todo[i].id)
    ensures Settled(Names(pairs), todo[i].id)
  {
    forall id <- Names(pairs) ensures id != todo[i].id && Names(pairs)[id] != todo[i].id {
      var k := NamedBy(pairs, id);
    }
  }

  /** What remains to assign makes up the whole with what was given. */
  predicate Owing(todo: seq<Task>, taken0: set<string>, draws: seq<Draw>, given: seq<Pair>, i: nat, taken: set<string>, left: seq<Draw>) {
    i <= |todo| && Assign(todo, taken0, draws) == After(given, Assign(todo[i..], taken, left))
  }

  /** The tables so far are the old ones with the IDs given so far put through them at once. */
  predicate Partly(tasks0: seq<Task>, events0: seq<Event>, tasks: seq<Task>, events: seq<Event>, given: seq<Pair>, now: real) {
    && tasks == RenameTasks(Names(given), tasks0)
    && events == RenameEvents(Names(given), events0) + Logged(given, now)
  }

  lemma {:induction false} NothingGiven(tasks: seq<Task>, events: seq<Event>, todo: seq<Task>, taken: set<string>, draws: seq<Draw>, now: real)
    ensures Owing(todo, taken, draws, [], 0, taken, draws)
    ensures Partly(tasks, events, tasks, events, [], now)
    ensures Progress([], todo, 0)
  {
    assert todo[0..] == todo;
    var all := Assign(todo, taken, draws);
    if all.Some? {
      assert [] + all.value == all.value;
    }
    RenameNothing(tasks, events, now);
  }

  lemma {:induction false} OwingNext(todo: seq<Task>, taken0: set<string>, draws: seq<Draw>, given: seq<Pair>, i: nat, taken: set<string>, left: seq<Draw>)
    requires Owing(todo, taken0, draws, given, i, taken, left) && i < |todo|
    ensures var chosen := Choose(todo[i], taken, left);
            if chosen.None? then Assign(todo, taken0, draws).None?
            else Owing(todo, taken0, draws, given + [Pair(todo[i].id, chosen.value.0)], i + 1, taken + {chosen.value.0}, chosen.value.1)
  {
    assert todo[i..][0] == todo[i] && todo[i..][1..] == todo[i + 1..];
    var chosen := Choose(todo[i], taken, left);
    if chosen.Some? {
      var rest := Assign(todo[i + 1..], taken + {chosen.value.0}, chosen.value.1);
      if rest.Some? {
        ConcatAssoc(given, [Pair(todo[i].id, chosen.value.0)], rest.value);
      }
    }
  }

  /** Renaming one more ID after the others is renaming them all at once. */
  lemma {:induction false} OneMore(given: seq<Pair>, todo: seq<Task>, i: nat, tasks0: seq<Task>, events0: seq<Event>, tasks: seq<Task>, events: seq<Event>, id: string, now: real)
    requires Progress(given, todo, i) && i < |todo| && Distinct(todo) && !IsTaskId(todo[i].id) && IsTaskId(id)
    requires Partly(tasks0, events0, tasks, events, given, now)
    ensures var pair := Pair(todo[i].id, id);
            && Progress(given + [pair], todo, i + 1)
            && Partly(tasks0, events0, UpdateTasks(tasks, pair.before, id), UpdateEvents(events, pair.before, id) + [RenumberedEvent(pair, now)], given + [pair], now)
  {
    var pair := Pair(todo[i].id, id);
    NextIsSettled(given, todo, i);
    OneMoreTask(Names(given), tasks0, pair.before, id);
    OneMoreEvent(Names(given), events0, Logged(given, now), pair.before, id);
    LoggedMore(given, pair, now);
    ConcatAssoc(RenameEvents(Names(given + [pair]), events0), Logged(given, now), [RenumberedEvent(pair, now)]);
  }

  lemma {:induction false} AllGiven(todo: seq<Task>, taken0: set<string>, draws: seq<Draw>, given: seq<Pair>, taken: set<string>, left: seq<Draw>,
                                    tasks0: seq<Task>, events0: seq<Event>, tasks: seq<Task>, events: seq<Event>, now: real)
    requires Owing(todo, taken0, draws, given, |todo|, taken, left)
    requires Partly(tasks0, events0, tasks, events, given, now)
    ensures Assign(todo, taken0, draws) == Some(given)
    ensures tasks == RenameTasks(Names(given), tasks0)
    ensures events == RenameEvents(Names(given), events0) + Logged(given, now)
  {
    assert todo[|todo|..] == [] && given + [] == given;
  }

  class Store {
    var tasks: seq<Task>
    var events: seq<Event>
    var nextTask: bool

    ghost function Now(): Db
      reads this
    {
      Db(tasks, events, nextTask)
    }

    constructor ()
      ensures Now() == Db([], [], true)
    {
      tasks, events, nextTask := [], [], true;
    }

    /** Draws until an ID isn't taken; `left` is what remains to draw from. */
    static method DrawId(taken: set<string>, draws: seq<Draw>) returns (id: Option<string>, left: seq<Draw>)
      ensures id.None? <==> DrawFree(taken, draws).None?
      ensures id.Some? ==> DrawFree(taken, draws) == Some((id.value, left))
    {
      left := draws;
      while left != []
        invariant DrawFree(taken, left) == DrawFree(taken, draws)
      {
        var made := RandomId(left[0]);
        left := left[1..];
        if made !in taken {
          return Some(made), left;
        }
      }
      id := None;
    }

    /** The folder's name where it is a free task ID, else one drawn. */
    static method ChooseId(t: Task, taken: set<string>, draws: seq<Draw>) returns (id: Option<string>, left: seq<Draw>)
      ensures id.None? <==> Choose(t, taken, draws).None?
      ensures id.Some? ==> Choose(t, taken, draws) == Some((id.value, left)) && IsTaskId(id.value)
    {
      var named := FolderName(t);
      if named.Some? && IsTaskId(named.value) && named.value !in taken {
        return named, draws;
      }
      DrawnIsFree(taken, draws);
      id, left := DrawId(taken, draws);
    }

    /** Rewrites the blocker lists of both tables. */
    method Follow(names: map<string, string>)
      modifies this`tasks, this`events
      ensures tasks == FollowTasks(names, old(tasks)) && events == FollowEvents(names, old(events))
    {
      for i := 0 to |tasks|
        invariant |tasks| == |old(tasks)| && events == old(events)
        invariant forall k :: 0 <= k < i ==> tasks[k] == old(tasks)[k].(doc := FollowDoc(names, old(tasks)[k].doc))
        invariant forall k :: i <= k < |tasks| ==> tasks[k] == old(tasks)[k]
      {
        tasks := tasks[i := tasks[i].(doc := FollowDoc(names, tasks[i].doc))];
      }
      for i := 0 to |events|
        invariant |events| == |old(events)| && tasks == FollowTasks(names, old(tasks))
        invariant forall k :: 0 <= k < i ==> events[k] == old(events)[k].(doc := FollowDoc(names, old(events)[k].doc))
        invariant forall k :: i <= k < |events| ==> events[k] == old(events)[k]
      {
        events := events[i := events[i].(doc := FollowDoc(names, events[i].doc))];
      }
    }

    /** Gives the old tasks their new IDs, one update after another. */
    method GiveIds(draws: seq<Draw>, now: real) returns (pairs: Option<seq<Pair>>)
      requires Distinct(tasks)
      modifies this`tasks, this`events
      ensures pairs == Assign(Todo(old(tasks)), TaskIds(old(tasks)), draws)
      ensures pairs.Some? ==> tasks == RenameTasks(Names(pairs.value), old(tasks))
      ensures pairs.Some? ==> events == RenameEvents(Names(pairs.value), old(events)) + Logged(pairs.value, now)
    {
      var todo, taken, left := Todo(tasks), TaskIds(tasks), draws;
      var given: seq<Pair> := [];
      TodoIsTheOldOnes(tasks);
      NothingGiven(tasks, events, todo, taken, draws, now);
      hide Assign, Choose, Owing, Partly, UpdateTasks, UpdateEvents, Todo, TaskIds, Distinct, IsTaskId, Progress;
      for i := 0 to |todo|
        invariant Progress(given, todo, i)
        invariant Owing(todo, TaskIds(old(tasks)), draws, given, i, taken, left)
        invariant Partly(old(tasks), old(events), tasks, events, given, now)
      {
        var t := todo[i];
        assert t in todo;
        OwingNext(todo, TaskIds(old(tasks)), draws, given, i, taken, left);
        var chosen;
        chosen, left := ChooseId(t, taken, left);
        if chosen.None? {
          return None;
        }
        var id := chosen.value;
        taken := taken + {id};
        OneMore(given, todo, i, old(tasks), old(events), tasks, events, id, now);
        tasks := UpdateTasks(tasks, t.id, id);
        events := UpdateEvents(events, t.id, id) + [RenumberedEvent(Pair(t.id, id), now)];
        given := given + [Pair(t.id, id)];
      }
      AllGiven(todo, TaskIds(old(tasks)), draws, given, taken, left, old(tasks), old(events), tasks, events, now);
      pairs := Some(given);
    }

    /** On an error the caller's transaction is given up. */
    method Renumber(draws: seq<Draw>, now: real) returns (done: bool)
      requires Distinct(tasks)
      modifies this
      ensures done == Renumbered(old(Now()), draws, now).Ok?
      ensures done ==> Now() == Renumbered(old(Now()), draws, now).value
    {
      if exists t <- tasks :: BadFolder(t) {
        return false;
      }
      RenameNothing(tasks, events, now);
      var pairs := GiveIds(draws, now);
      if pairs.None? {
        return false;
      }
      if pairs.value != [] {
        Follow(Names(pairs.value));
        nextTask := false;
      }
      done := true;
    }

    /** Inserts the rows that are new, with their events. */
    method InsertRows(rows: seq<Task>, now: real) returns (added: nat)
      requires Distinct(tasks)
      modifies this`tasks, this`events
      ensures Now() == Insert(old(Now()), rows, now) && Distinct(tasks) && |tasks| == |old(tasks)| + added
    {
      added := 0;
      hide MadeEvents, WasRenumbered, Distinct;
      for i := 0 to |rows|
        invariant Now() == Insert(old(Now()), rows[..i], now)
        invariant Distinct(tasks)
        invariant |tasks| == |old(tasks)| + added
      {
        assert rows[..i + 1][..i] == rows[..i];
        var t := rows[i];
        if WasRenumbered(events, t.id) {
          continue;
        }
        if t.id !in IdsOf(tasks) {
          InsertOne(Now(), t, now);
          tasks := tasks + [t];
          events := events + MadeEvents(t, now);
          added := added + 1;
        }
      }
      assert rows[..|rows|] == rows;
    }

    /** Takes a backlog in. An error leaves the database as it was. */
    method Import(saved: Backlog, draws: seq<Draw>, now: real) returns (count: Option<nat>)
      requires Distinct(tasks)
      modifies this
      ensures count.None? <==> Imported(old(Now()), saved, draws, now).Err?
      ensures count.None? ==> Now() == old(Now())
      ensures count.Some? ==> Now() == Imported(old(Now()), saved, draws, now).value && count.value == Arrivals(old(Now()), saved, Size(saved))
    {
      var before, beforeEvents, beforeNext := tasks, events, nextTask;
      hide Renumbered, Insert, RowsOf;
      var added := InsertRows(RowsOf(saved.tasks, Shelf) + RowsOf(saved.running, Desk), now);
      ghost var mid := Now();
      var done := Renumber(draws, now);
      if !done {
        tasks, events, nextTask := before, beforeEvents, beforeNext;
        return None;
      }
      EveryTaskStays(mid, draws, now);
      OnlySavedTasksArrive(old(Now()), saved, draws, now);
      count := Some(added);
    }
  }

  lemma {:induction false} RenameNothing(tasks: seq<Task>, events: seq<Event>, now: real)
    ensures RenameTasks(Names([]), tasks) == tasks && RenameEvents(Names([]), events) + Logged([], now) == events
  {
  }
}
