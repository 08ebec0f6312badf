/**
 News of the Desk: changes to a repo's tasks are held back until they go quiet, then told
 together. A change that still waits to hear whether its branch was merged holds its repo's
 news longer. Times are in milliseconds.
 */
module News {
  import opened Prelude

  const QUIET: int := 2000
  const LONGEST: int := 10000
  const MERGE_WAIT: int := 30000

  datatype Merge = Pending | Unknown | Into(branch: string) | Not(branch: string)

  datatype What = Picked | Shelved | Ended(onDesk: bool)

  datatype Item = Item(repo: string, task: string, short: string, name: Option<string>, what: What, merge: Merge, at: int) {
    function Line(): string {
      var who := if name.Some? then short + " \"" + name.value + "\"" else short;
      match what
      case Picked => who + " moved to the Desk"
      case Shelved => who + " moved to the Shelf"
      case Ended(true) =>
        if merge.Into? then who + " merged into " + merge.branch + " and left the Desk"
        else if merge.Not? then who + " ended and left the Desk, not merged into " + merge.branch
        else who + " ended and left the Desk"
      case Ended(false) =>
        if merge.Into? then who + " merged into " + merge.branch + " and left the Shelf"
        else who + " was taken off the Shelf"
    }
  }

  // What is held

  function OfRepo(repo: string): Item -> bool {
    (i: Item) => i.repo == repo
  }

  function NotOfRepo(repo: string): Item -> bool {
    (i: Item) => i.repo != repo
  }

  function Burst(items: seq<Item>, repo: string): seq<Item> {
    Filter(OfRepo(repo), items)
  }

  function Latest(burst: seq<Item>): int
    requires burst != []
  {
    if |burst| == 1 then burst[0].at
    else
      var before, last := Latest(burst[..|burst| - 1]), burst[|burst| - 1].at;
      if last > before then last else before
  }

  function Least(a: int, b: int): int {
    if a <= b then a else b
  }

  predicate AnyPending(burst: seq<Item>) {
    exists i <- burst :: i.merge == Pending
  }

  function DueAt(items: seq<Item>, repo: string): Option<int> {
    var burst := Burst(items, repo);
    if burst == [] then None
    else if AnyPending(burst) then Some(burst[0].at + MERGE_WAIT)
    else Some(Least(Latest(burst) + QUIET, burst[0].at + LONGEST))
  }

  /** The repos with news, in the order of their first. */
  function Repos(items: seq<Item>): seq<string> {
    if items == [] then []
    else
      var before, repo := Repos(items[..|items| - 1]), items[|items| - 1].repo;
      if repo in before then before else before + [repo]
  }

  function Earliest(items: seq<Item>, repos: seq<string>): Option<int> {
    if repos == [] then None
    else
      var before, at := Earliest(items, repos[..|repos| - 1]), DueAt(items, repos[|repos| - 1]);
      if at.None? then before
      else if before.None? then at
      else Some(Least(before.value, at.value))
  }

  function Next(items: seq<Item>): Option<int> {
    Earliest(items, Repos(items))
  }

  function IsDue(items: seq<Item>, now: int): string -> bool {
    (repo: string) => DueAt(items, repo).Some? && DueAt(items, repo).value <= now
  }

  function DueRepos(items: seq<Item>, now: int): seq<string> {
    Filter(IsDue(items, now), Repos(items))
  }

  /** One repo's news, told together. */
  datatype Batch = Batch(repo: string, items: seq<Item>) {
    function Text(): string {
      Lines(items)
    }
  }

  function Lines(items: seq<Item>): string {
    if items == [] then ""
    else if |items| == 1 then items[0].Line()
    else Lines(items[..|items| - 1]) + "\n" + items[|items| - 1].Line()
  }

  function Batches(items: seq<Item>, repos: seq<string>): seq<Batch> {
    seq(|repos|, i requires 0 <= i < |repos| => Batch(repos[i], Burst(items, repos[i])))
  }

  function NotOf(repos: seq<string>): Item -> bool {
    (i: Item) => i.repo !in repos
  }

  function Told(items: seq<Item>, now: int): seq<Batch> {
    Batches(items, DueRepos(items, now))
  }

  function Left(items: seq<Item>, now: int): seq<Item> {
    Filter(NotOf(DueRepos(items, now)), items)
  }

  function Settle(items: seq<Item>, task: string, merge: Merge): seq<Item> {
    seq(|items|, i requires 0 <= i < |items| =>
      if items[i].task == task && items[i].merge == Pending then items[i].(merge := merge) else items[i])
  }

  /** The first `k` repos are told, and their items gone. */
  ghost predicate ToldSoFar(before: seq<Item>, due: seq<string>, k: nat, items: seq<Item>, told: seq<(string, string)>) {
    && Apart(due) && k <= |due|
    && items == Filter(NotOf(due[..k]), before)
    && told == Texts(Batches(before, due[..k]))
  }

  lemma {:induction false} NoneTold(items: seq<Item>, now: int)
    ensures ToldSoFar(items, DueRepos(items, now), 0, items, [])
  {
    var due := DueRepos(items, now);
    ReposAreApart(items);
    FilterApart(IsDue(items, now), Repos(items));
    FilterAll(NotOf(due[..0]), items);
  }

  lemma {:induction false} ToldNext(before: seq<Item>, due: seq<string>, k: nat, items: seq<Item>, told: seq<(string, string)>)
    requires ToldSoFar(before, due, k, items, told) && k < |due|
    ensures ToldSoFar(before, due, k + 1, Filter(NotOfRepo(due[k]), items), told + [(due[k], Lines(Burst(items, due[k])))])
  {
    var repo := due[k];
    assert due[..k + 1] == due[..k] + [repo];
    assert repo !in due[..k];
    BurstOfRest(before, due[..k], repo);
    RestOfRest(before, due[..k], repo);
    hide Filter, Lines;
    assert Texts(Batches(before, due[..k + 1])) == Texts(Batches(before, due[..k])) + [(repo, Lines(Burst(before, repo)))];
  }

  lemma {:induction false} AllTold(before: seq<Item>, now: int, items: seq<Item>, told: seq<(string, string)>)
    requires ToldSoFar(before, DueRepos(before, now), |DueRepos(before, now)|, items, told)
    ensures items == Left(before, now) && told == Texts(Told(before, now))
  {
    var due := DueRepos(before, now);
    assert due[..|due|] == due;
  }

  function Texts(batches: seq<Batch>): seq<(string, string)> {
    seq(|batches|, i requires 0 <= i < |batches| => (batches[i].repo, batches[i].Text()))
  }

  predicate Apart(repos: seq<string>) {
    forall i, j :: 0 <= i < j < |repos| ==> repos[i] != repos[j]
  }

  lemma {:induction false} FilterApart(keep: string -> bool, repos: seq<string>)
    requires Apart(repos)
    ensures Apart(Filter(keep, repos))
  {
    if repos != [] {
      var most := repos[..|repos| - 1];
      FilterApart(keep, most);
      FilterOnly(keep, most);
      var kept := Filter(keep, most);
      assert forall i :: 0 <= i < |kept| ==> kept[i] in most;
    }
  }

  /** Each repo with news once, and no other. */
  lemma {:induction false} ReposAreApart(items: seq<Item>)
    ensures Apart(Repos(items)) && forall repo :: repo in Repos(items) <==> exists i <- items :: i.repo == repo
  {
    if items != [] {
      ReposAreApart(items[..|items| - 1]);
      assert items == items[..|items| - 1] + [items[|items| - 1]];
    }
  }

  lemma {:induction false} BurstOfRest(items: seq<Item>, gone: seq<string>, repo: string)
    ensures Burst(Filter(NotOf(gone), items), repo) == if repo in gone then [] else Burst(items, repo)
  {
    if items != [] {
      var most, last := items[..|items| - 1], items[|items| - 1];
      BurstOfRest(most, gone, repo);
      FilterConcat(OfRepo(repo), Filter(NotOf(gone), most), if NotOf(gone)(last) then [last] else []);
      OneOf(OfRepo(repo), last);
    }
  }

  lemma {:induction false} OneOf(keep: Item -> bool, i: Item)
    ensures Filter(keep, [i]) == if keep(i) then [i] else []
  {
    assert [i][..0] == [];
  }

  lemma {:induction false} RestOfRest(items: seq<Item>, gone: seq<string>, repo: string)
    ensures Filter(NotOfRepo(repo), Filter(NotOf(gone), items)) == Filter(NotOf(gone + [repo]), items)
  {
    if items != [] {
      var most, last := items[..|items| - 1], items[|items| - 1];
      RestOfRest(most, gone, repo);
      FilterConcat(NotOfRepo(repo), Filter(NotOf(gone), most), if NotOf(gone)(last) then [last] else []);
      OneOf(NotOfRepo(repo), last);
    }
  }

  // When news is due

  lemma {:induction false} HasBurst(items: seq<Item>, repo: string)
    ensures DueAt(items, repo).Some? <==> repo in Repos(items)
  {
    ReposAreApart(items);
    if exists i <- items :: i.repo == repo {
      var i :| i in items && i.repo == repo;
      FilterKeeps(OfRepo(repo), items, i);
    } else {
      FilterNone(OfRepo(repo), items);
    }
  }

  lemma {:induction false} EarliestIs(items: seq<Item>, repos: seq<string>)
    ensures Earliest(items, repos).Some? <==> exists r <- repos :: DueAt(items, r).Some?
    ensures Earliest(items, repos).Some? ==> exists r <- repos :: DueAt(items, r) == Earliest(items, repos)
    ensures forall r <- repos :: DueAt(items, r).Some? ==> Earliest(items, repos).Some? && Earliest(items, repos).value <= DueAt(items, r).value
  {
    if repos != [] {
      var most, last := repos[..|repos| - 1], repos[|repos| - 1];
      EarliestIs(items, most);
      assert repos == most + [last];
      assert forall r :: r in repos <==> r in most || r == last;
    }
  }

  /** A call tells something exactly when the next time is at or before now. */
  lemma {:induction false} TellsIffNextIsDue(items: seq<Item>, now: int)
    ensures Told(items, now) != [] <==> Next(items).Some? && Next(items).value <= now
  {
    var repos := Repos(items);
    EarliestIs(items, repos);
    FilterOnly(IsDue(items, now), repos);
    if Next(items).Some? && Next(items).value <= now {
      var r :| r in repos && DueAt(items, r) == Earliest(items, repos);
      FilterKeeps(IsDue(items, now), repos, r);
    }
    if Told(items, now) != [] {
      assert DueRepos(items, now)[0] in DueRepos(items, now);
    }
  }

  /** And it leaves nothing due. */
  lemma {:induction false} NothingDueIsLeft(items: seq<Item>, now: int)
    ensures Next(Left(items, now)).Some? ==> Next(Left(items, now)).value > now
  {
    var left, due := Left(items, now), DueRepos(items, now);
    EarliestIs(left, Repos(left));
    hide Filter, Repos, Earliest;
    if Next(left).Some? {
      var r :| r in Repos(left) && DueAt(left, r) == Next(left);
      BurstOfRest(items, due, r);
      assert DueAt(left, r) == DueAt(items, r);
      HasBurst(items, r);
      if DueAt(items, r).value <= now {
        FilterKeeps(IsDue(items, now), Repos(items), r);
      }
    }
  }

  // Runs

  datatype Event = Add(item: Item) | Merged(task: string, merge: Merge) | Due(now: int)

  /** What is held, with all that was added and all that was told so far. */
  datatype State = State(items: seq<Item>, added: seq<Item>, told: seq<Batch>)

  function Do(s: State, e: Event): State {
    match e
    case Add(item) => s.(items := s.items + [item], added := s.added + [item])
    case Merged(task, merge) => s.(items := Settle(s.items, task, merge))
    case Due(now) => s.(items := Left(s.items, now), told := s.told + Told(s.items, now))
  }

  function Run(events: seq<Event>): State {
    if events == [] then State([], [], []) else Do(Run(events[..|events| - 1]), events[|events| - 1])
  }

  /** Items by all but what became of their merge, which is learnt while they are held. */
  function Bare(items: seq<Item>): seq<Item> {
    seq(|items|, i requires 0 <= i < |items| => items[i].(merge := Unknown))
  }

  /** All items told of a repo, in the order they were told. */
  function ToldOf(told: seq<Batch>, repo: string): seq<Item> {
    if told == [] then []
    else ToldOf(told[..|told| - 1], repo) + if told[|told| - 1].repo == repo then told[|told| - 1].items else []
  }

  lemma {:induction false} ToldOfConcat(a: seq<Batch>, b: seq<Batch>, repo: string)
    ensures ToldOf(a + b, repo) == ToldOf(a, repo) + ToldOf(b, repo)
  {
    if b == [] {
      assert a + b == a;
    } else {
      assert (a + b)[..|a + b| - 1] == a + b[..|b| - 1];
      ToldOfConcat(a, b[..|b| - 1], repo);
    }
  }

  lemma {:induction false} OneMoreBatch(items: seq<Item>, most: seq<string>, last: string, repo: string)
    ensures ToldOf(Batches(items, most + [last]), repo) == ToldOf(Batches(items, most), repo) + if last == repo then Burst(items, last) else []
  {
    hide Burst;
    var batches := Batches(items, most + [last]);
    assert batches[..|most|] == Batches(items, most) && batches[|most|] == Batch(last, Burst(items, last));
  }

  lemma {:induction false} LastStandsApart(repos: seq<string>)
    requires Apart(repos) && repos != []
    ensures var most, last := repos[..|repos| - 1], repos[|repos| - 1];
            repos == most + [last] && Apart(most) && last !in most && forall repo :: repo in repos <==> repo in most || repo == last
  {
    var most, last := repos[..|repos| - 1], repos[|repos| - 1];
    assert repos == most + [last];
  }

  lemma {:induction false} BatchesOf(items: seq<Item>, repos: seq<string>, repo: string)
    requires Apart(repos)
    ensures ToldOf(Batches(items, repos), repo) == if repo in repos then Burst(items, repo) else []
  {
    if repos == [] {
      assert Batches(items, repos) == [];
    } else {
      hide Burst, ToldOf, Batches;
      var most, last := repos[..|repos| - 1], repos[|repos| - 1];
      LastStandsApart(repos);
      hide Apart;
      BatchesOf(items, most, repo);
      OneMoreBatch(items, most, last, repo);
    }
  }

  lemma {:induction false} BareBurst(items: seq<Item>, repo: string)
    ensures Bare(Burst(items, repo)) == Burst(Bare(items), repo)
  {
    if items != [] {
      var n := |items| - 1;
      BareBurst(items[..n], repo);
      assert Bare(items)[..n] == Bare(items[..n]);
    }
  }

  lemma {:induction false} BareConcat(a: seq<Item>, b: seq<Item>)
    ensures Bare(a + b) == Bare(a) + Bare(b)
  {
  }

  predicate Accounted(s: State, repo: string) {
    Bare(Burst(s.added, repo)) == Bare(ToldOf(s.told, repo)) + Bare(Burst(s.items, repo))
  }

  lemma {:induction false} AddKeeps(s: State, item: Item, repo: string)
    requires Accounted(s, repo)
    ensures Accounted(Do(s, Add(item)), repo)
  {
    var more := if OfRepo(repo)(item) then [item] else [];
    FilterConcat(OfRepo(repo), s.added, [item]);
    FilterConcat(OfRepo(repo), s.items, [item]);
    OneOf(OfRepo(repo), item);
    hide Filter, Bare, ToldOf;
    BareConcat(Burst(s.added, repo), more);
    BareConcat(Burst(s.items, repo), more);
    ConcatAssoc(Bare(ToldOf(s.told, repo)), Bare(Burst(s.items, repo)), Bare(more));
  }

  lemma {:induction false} MergedKeeps(s: State, task: string, merge: Merge, repo: string)
    requires Accounted(s, repo)
    ensures Accounted(Do(s, Merged(task, merge)), repo)
  {
    BareBurst(s.items, repo);
    BareBurst(Settle(s.items, task, merge), repo);
    assert Bare(Settle(s.items, task, merge)) == Bare(s.items);
  }

  lemma {:induction false} DueKeeps(s: State, now: int, repo: string)
    requires Accounted(s, repo)
    ensures Accounted(Do(s, Due(now)), repo)
  {
    var due := DueRepos(s.items, now);
    ReposAreApart(s.items);
    FilterApart(IsDue(s.items, now), Repos(s.items));
    ToldOfConcat(s.told, Told(s.items, now), repo);
    BatchesOf(s.items, due, repo);
    BurstOfRest(s.items, due, repo);
    Moves(Bare(Burst(s.added, repo)), ToldOf(s.told, repo), Burst(s.items, repo), repo in due);
    hide Filter, Bare, ToldOf, Repos, IsDue;
  }

  lemma {:induction false} Moves(added: seq<Item>, earlier: seq<Item>, burst: seq<Item>, due: bool)
    requires added == Bare(earlier) + Bare(burst)
    ensures added == Bare(earlier + if due then burst else []) + Bare(if due then [] else burst)
  {
    BareConcat(earlier, if due then burst else []);
  }

  /** Every item added was told once or is still held: of each repo, in the order they were added. */
  lemma {:induction false} EachItemIsToldOnce(events: seq<Event>, repo: string)
    ensures Accounted(Run(events), repo)
  {
    if events != [] {
      var before := Run(events[..|events| - 1]);
      EachItemIsToldOnce(events[..|events| - 1], repo);
      match events[|events| - 1] {
        case Add(item) => AddKeeps(before, item, repo);
        case Merged(task, merge) => MergedKeeps(before, task, merge, repo);
        case Due(now) => DueKeeps(before, now, repo);
      }
    }
  }

  /** The item, once the merge of a task is known. */
  function Heard(item: Item, task: string, merge: Merge): Item {
    if item.task == task && item.merge.Pending? then item.(merge := merge) else item
  }

  function HeardFrom(items: seq<Item>, n: nat, task: string, merge: Merge): seq<Item> {
    seq(|items|, i requires 0 <= i < |items| => if i < n then items[i] else Heard(items[i], task, merge))
  }

  /** The items added of a repo, each with what was heard of its merge before it was told. */
  function Learnt(events: seq<Event>, repo: string): seq<Item> {
    if events == [] then []
    else
      var most := events[..|events| - 1];
      var before := Learnt(most, repo);
      match events[|events| - 1]
      case Add(item) => before + if item.repo == repo then [item] else []
      case Merged(task, merge) => HeardFrom(before, |ToldOf(Run(most).told, repo)|, task, merge)
      case Due(_) => before
  }

  lemma {:induction false} SettledBurst(items: seq<Item>, task: string, merge: Merge, repo: string)
    ensures Burst(Settle(items, task, merge), repo) == HeardFrom(Burst(items, repo), 0, task, merge)
  {
    if items != [] {
      var most, last := items[..|items| - 1], items[|items| - 1];
      SettledBurst(most, task, merge, repo);
      var settled := Settle(items, task, merge);
      assert settled[..|most|] == Settle(most, task, merge);
      assert settled[|most|] == Heard(last, task, merge);
      var burst := Burst(most, repo);
      assert HeardFrom(burst + [last], 0, task, merge) == HeardFrom(burst, 0, task, merge) + [Heard(last, task, merge)];
    }
  }

  lemma {:induction false} HeardInParts(a: seq<Item>, b: seq<Item>, task: string, merge: Merge)
    ensures HeardFrom(a + b, |a|, task, merge) == a + HeardFrom(b, 0, task, merge)
  {
  }

  /** What becomes of the told and the held items of a repo at once. */
  lemma {:induction false} TellingMoves(s: State, now: int, repo: string)
    ensures var next := Do(s, Due(now)); ToldOf(next.told, repo) + Burst(next.items, repo) == ToldOf(s.told, repo) + Burst(s.items, repo)
  {
    var due := DueRepos(s.items, now);
    ReposAreApart(s.items);
    FilterApart(IsDue(s.items, now), Repos(s.items));
    ToldOfConcat(s.told, Told(s.items, now), repo);
    BatchesOf(s.items, due, repo);
    BurstOfRest(s.items, due, repo);
    hide Filter, ToldOf, Repos, IsDue, Burst, DueRepos, Batches;
    MovesOver(ToldOf(s.told, repo), Burst(s.items, repo), repo in due);
  }

  lemma {:induction false} MovesOver(told: seq<Item>, burst: seq<Item>, due: bool)
    ensures told + (if due then burst else []) + (if due then [] else burst) == told + burst
  {
  }

  /**
   Of each repo, in every run, the items told and then those held are those added, in their order, each
   saying of its merge what was first heard of its task's after it was added and before it was told.
   */
  lemma {:induction false} ItemsSayWhatWasHeard(events: seq<Event>, repo: string)
    ensures ToldOf(Run(events).told, repo) + Burst(Run(events).items, repo) == Learnt(events, repo)
  {
    if events != [] {
      var most, last := events[..|events| - 1], events[|events| - 1];
      var before := Run(most);
      ItemsSayWhatWasHeard(most, repo);
      match last {
        case Add(item) =>
          FilterConcat(OfRepo(repo), before.items, [item]);
          OneOf(OfRepo(repo), item);
          ConcatAssoc(ToldOf(before.told, repo), Burst(before.items, repo), if item.repo == repo then [item] else []);
        case Merged(task, merge) =>
          SettledBurst(before.items, task, merge, repo);
          HeardInParts(ToldOf(before.told, repo), Burst(before.items, repo), task, merge);
          hide HeardFrom, Settle;
        case Due(now) =>
          TellingMoves(before, now, repo);
      }
      hide Filter;
    }
  }

  // What a text holds

  /** The lines of a text, between its line feeds. */
  function SplitLines(text: string): seq<string> {
    if text == "" then [""]
    else
      var before := SplitLines(text[..|text| - 1]);
      var c := text[|text| - 1];
      if c == '\n' then before + [""]
      else if before == [] then [[c]]
      else before[..|before| - 1] + [before[|before| - 1] + [c]]
  }

  lemma {:induction false} SplitAfter(text: string, line: string)
    requires '\n' !in line
    ensures SplitLines(text) != [] && SplitLines(text + "\n" + line) == SplitLines(text) + [line]
  {
    SplitSome(text);
    if line == "" {
      assert (text + "\n" + line)[..|text| + 1] == text + "\n" && (text + "\n")[..|text|] == text;
      assert text + "\n" + line == text + "\n";
    } else {
      var most, c := line[..|line| - 1], line[|line| - 1];
      SplitAfter(text, most);
      var all := text + "\n" + line;
      assert all[..|all| - 1] == text + "\n" + most && all[|all| - 1] == c;
      assert c in line && most + [c] == line;
      var before := SplitLines(text + "\n" + most);
      assert before[..|before| - 1] == SplitLines(text);
    }
  }

  lemma {:induction false} SplitSome(text: string)
    ensures SplitLines(text) != []
  {
  }

  lemma {:induction false} OneLine(line: string)
    requires '\n' !in line
    ensures SplitLines(line) == [line]
  {
    if line != "" {
      var most, c := line[..|line| - 1], line[|line| - 1];
      OneLine(most);
      assert c in line && most + [c] == line;
    }
  }

  function LinesOf(items: seq<Item>): seq<string> {
    seq(|items|, i requires 0 <= i < |items| => items[i].Line())
  }

  ghost predicate Unbroken(lines: seq<string>) {
    forall i :: 0 <= i < |lines| ==> '\n' !in lines[i]
  }

  function Joined(lines: seq<string>): string {
    if lines == [] then "" else if |lines| == 1 then lines[0] else Joined(lines[..|lines| - 1]) + "\n" + lines[|lines| - 1]
  }

  lemma {:induction false} JoinedSplits(lines: seq<string>)
    requires lines != [] && Unbroken(lines)
    ensures SplitLines(Joined(lines)) == lines
  {
    var most, last := lines[..|lines| - 1], lines[|lines| - 1];
    assert lines == most + [last];
    hide SplitLines;
    if most == [] {
      OneLine(last);
    } else {
      JoinedSplits(most);
      SplitAfter(Joined(most), last);
    }
  }

  lemma {:induction false} TextIsJoined(items: seq<Item>)
    ensures Lines(items) == Joined(LinesOf(items))
  {
    hide Item.Line;
    if |items| > 1 {
      TextIsJoined(items[..|items| - 1]);
      assert LinesOf(items)[..|items| - 1] == LinesOf(items[..|items| - 1]);
    }
  }

  /** A repo's text has a line for each of its items, in their order, and no other, where no name or branch breaks a line. */
  lemma {:induction false} TextHasEachLine(items: seq<Item>)
    requires items != [] && Unbroken(LinesOf(items))
    ensures SplitLines(Lines(items)) == LinesOf(items)
  {
    assert LinesOf(items) != [];
    hide *;
    TextIsJoined(items);
    JoinedSplits(LinesOf(items));
  }

  // The news as the daemon holds it

  class News {
    var items: seq<Item>
    ghost var added: seq<Item>
    ghost var told: seq<Batch>

    ghost function Now(): State
      reads this
    {
      State(items, added, told)
    }

    /** Every item added was told once or is held, each repo's in the order they were added. */
    ghost predicate Valid()
      reads this
    {
      forall repo :: Accounted(Now(), repo)
    }

    constructor ()
      ensures Valid() && Now() == Run([])
    {
      items, added, told := [], [], [];
    }

    /** The item is held, after all others of its repo. */
    method Add(item: Item)
      requires Valid()
      modifies this`items, this`added
      ensures Valid() && Now() == Do(old(Now()), Event.Add(item))
    {
      ghost var next := Do(Now(), Event.Add(item));
      forall repo ensures Accounted(next, repo) {
        AddKeeps(Now(), item, repo);
      }
      hide Accounted;
      items := items + [item];
      added := added + [item];
      assert Now() == next;
    }

    method Merged(task: string, merge: Merge)
      requires Valid()
      modifies this`items
      ensures items == Settle(old(items), task, merge) && Valid() && Now() == Do(old(Now()), Event.Merged(task, merge))
    {
      ghost var next := Do(Now(), Event.Merged(task, merge));
      forall repo ensures Accounted(next, repo) {
        MergedKeeps(Now(), task, merge, repo);
      }
      hide Accounted;
      for i := 0 to |items|
        invariant |items| == |old(items)|
        invariant forall k :: 0 <= k < i ==> items[k] == Settle(old(items), task, merge)[k]
        invariant forall k :: i <= k < |items| ==> items[k] == old(items)[k]
      {
        if items[i].task == task && items[i].merge == Pending {
          items := items[i := items[i].(merge := merge)];
        }
      }
      assert items == Settle(old(items), task, merge);
      assert Now() == next;
    }

    method ReposOf() returns (repos: seq<string>)
      ensures repos == Repos(items)
    {
      repos := [];
      for i := 0 to |items|
        invariant repos == Repos(items[..i])
      {
        assert items[..i + 1][..i] == items[..i];
        if items[i].repo !in repos {
          repos := repos + [items[i].repo];
        }
      }
      assert items[..|items|] == items;
    }

    method Due(now: int) returns (texts: seq<(string, string)>)
      requires Valid()
      modifies this`items, this`told
      ensures items == Left(old(items), now) && Valid() && Now() == Do(old(Now()), Event.Due(now))
      ensures texts == Texts(Told(old(items), now))
    {
      ghost var next := Do(Now(), Event.Due(now));
      forall repo ensures Accounted(next, repo) {
        DueKeeps(Now(), now, repo);
      }
      hide Accounted;
      var repos := ReposOf();
      var due := Filter(IsDue(items, now), repos);
      texts := [];
      NoneTold(items, now);
      hide Filter, Repos, Burst, Lines, ToldSoFar, Left, Told, Texts;
      for k := 0 to |due|
        invariant told == old(told)
        invariant ToldSoFar(old(items), due, k, items, texts)
      {
        ToldNext(old(items), due, k, items, texts);
        texts := texts + [(due[k], Lines(Burst(items, due[k])))];
        items := Filter(NotOfRepo(due[k]), items);
      }
      AllTold(old(items), now, items, texts);
      told := told + Told(old(items), now);
      assert Now() == next;
    }
  }

  // Time

  predicate InTime(items: seq<Item>) {
    forall i, j :: 0 <= i < j < |items| ==> items[i].at <= items[j].at
  }

  /** The items of a run are added in the order of their times. */
  predicate AddedInTime(events: seq<Event>) {
    InTime(Run(events).added)
  }

  lemma {:induction false} FilterInTime(keep: Item -> bool, items: seq<Item>)
    requires InTime(items)
    ensures InTime(Filter(keep, items))
  {
    if items != [] {
      var most := items[..|items| - 1];
      FilterInTime(keep, most);
      FilterOnly(keep, most);
      var kept := Filter(keep, most);
      assert forall i :: 0 <= i < |kept| ==> kept[i] in most;
    }
  }

  /** The latest time of a burst is one of its items', and no item's is later. */
  lemma {:induction false} LatestIsOne(burst: seq<Item>)
    requires burst != []
    ensures (exists i <- burst :: i.at == Latest(burst)) && forall i <- burst :: i.at <= Latest(burst)
  {
    var most, last := burst[..|burst| - 1], burst[|burst| - 1];
    assert burst == most + [last];
    assert last in burst;
    if |burst| > 1 {
      LatestIsOne(most);
      var i :| i in most && i.at == Latest(most);
      assert i in burst;
    }
  }

  /**
   When a repo's news is due: with a merge pending, once its first item is thirty seconds
   old; else once all its items are two seconds old, or the first is ten. So it is due once
   its first item is thirty seconds old in any case.
   */
  lemma {:induction false} DueIff(items: seq<Item>, repo: string, now: int)
    requires Burst(items, repo) != []
    ensures var burst := Burst(items, repo);
            DueAt(items, repo).value <= now <==>
            if AnyPending(burst) then burst[0].at + MERGE_WAIT <= now
            else (forall i <- burst :: i.at + QUIET <= now) || burst[0].at + LONGEST <= now
    ensures Burst(items, repo)[0].at + MERGE_WAIT <= now ==> DueAt(items, repo).value <= now
  {
    LatestIsOne(Burst(items, repo));
  }

  lemma {:induction false} NoneOverstaysNow(items: seq<Item>, now: int)
    requires InTime(items)
    ensures forall i <- Left(items, now) :: now < i.at + MERGE_WAIT
  {
    var due := DueRepos(items, now);
    FilterOnly(NotOf(due), items);
    forall i <- Left(items, now) ensures now < i.at + MERGE_WAIT {
      var burst := Burst(items, i.repo);
      FilterKeeps(OfRepo(i.repo), items, i);
      FilterInTime(OfRepo(i.repo), items);
      assert burst[0].at <= i.at by {
        var k :| 0 <= k < |burst| && burst[k] == i;
      }
      HasBurst(items, i.repo);
      if now >= i.at + MERGE_WAIT {
        FilterKeeps(IsDue(items, now), Repos(items), i.repo);
      }
    }
  }

  lemma {:induction false} SettleInTime(items: seq<Item>, task: string, merge: Merge)
    requires InTime(items)
    ensures InTime(Settle(items, task, merge))
  {
  }

  predicate HeldInTime(s: State) {
    InTime(s.items) && (s.items != [] ==> s.added != [] && s.items[|s.items| - 1].at <= s.added[|s.added| - 1].at)
  }

  lemma {:induction false} HeldThroughAdd(s: State, item: Item)
    requires HeldInTime(s) && InTime(s.added + [item])
    ensures HeldInTime(Do(s, Add(item)))
  {
    var added := s.added + [item];
    assert s.added != [] ==> added[|s.added| - 1].at <= added[|s.added|].at;
    assert InTime(s.items + [item]);
  }

  lemma {:induction false} HeldThroughDue(s: State, now: int)
    requires HeldInTime(s)
    ensures HeldInTime(Do(s, Due(now)))
  {
    var keep, left := NotOf(DueRepos(s.items, now)), Left(s.items, now);
    FilterInTime(keep, s.items);
    FilterOnly(keep, s.items);
    if left != [] {
      assert left[|left| - 1] in left;
    }
  }

  lemma {:induction false} HeldStaysInTime(events: seq<Event>)
    requires AddedInTime(events)
    ensures HeldInTime(Run(events))
  {
    if events != [] {
      var before, e := Run(events[..|events| - 1]), events[|events| - 1];
      assert AddedInTime(events[..|events| - 1]) by {
        if e.Add? {
          assert before.added == Run(events).added[..|before.added|];
        }
      }
      HeldStaysInTime(events[..|events| - 1]);
      match e {
        case Add(item) =>
          HeldThroughAdd(before, item);
        case Merged(task, merge) =>
          SettleInTime(before.items, task, merge);
        case Due(now) =>
          HeldThroughDue(before, now);
      }
    }
  }

  /** With items added in the order of time, none is held past a call thirty seconds or more after it. */
  lemma {:induction false} NoneOverstays(events: seq<Event>, now: int)
    requires AddedInTime(events)
    ensures forall i <- Run(events + [Due(now)]).items :: now < i.at + MERGE_WAIT
  {
    assert (events + [Due(now)])[..|events|] == events;
    HeldStaysInTime(events);
    NoneOverstaysNow(Run(events).items, now);
  }

  /**
   That order is needed: without it an item can wait for one added before it with a later
   time. The daemon stamps each item with the present as it adds it (tasks.rs, where items
   are made), so it makes no such run; this only shows what the hypothesis is for.
   */
  lemma {:induction false} OutOfOrderOverstays()
    ensures var late := Item("r", "a", "a", None, Ended(true), Pending, MERGE_WAIT);
            var early := Item("r", "b", "b", None, Picked, Unknown, 0);
            var run := Run([Add(late), Add(early), Due(MERGE_WAIT)]);
            early in run.items && early.at + MERGE_WAIT <= MERGE_WAIT
  {
    var late := Item("r", "a", "a", None, Ended(true), Pending, MERGE_WAIT);
    var early := Item("r", "b", "b", None, Picked, Unknown, 0);
    var events := [Add(late), Add(early), Due(MERGE_WAIT)];
    assert events[..2] == [Add(late), Add(early)] && events[..2][..1] == [Add(late)] && events[..2][..1][..0] == [];
    assert Run([Add(late)]).items == [late];
    assert Run(events[..2]).items == [late, early];
    PendingHolds(late, early);
    hide Left;
  }

  lemma {:induction false} PendingHolds(late: Item, early: Item)
    requires late.repo == early.repo && late.merge == Pending && late.at > 0
    ensures early in Left([late, early], MERGE_WAIT)
  {
    var held, repo := [late, early], late.repo;
    FilterAll(OfRepo(repo), held);
    assert held[0] in held && AnyPending(held);
    assert DueAt(held, repo) == Some(late.at + MERGE_WAIT);
    var due := DueRepos(held, MERGE_WAIT);
    FilterOnly(IsDue(held, MERGE_WAIT), Repos(held));
    assert repo !in due;
    FilterKeeps(NotOf(due), held, early);
  }
}
