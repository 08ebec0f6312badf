/**
 Diff subscriptions: views that show the same diff share one watch, whose worker loads the
 diff with the files any of them shows. A watch is known by an ID made from its folder and
 arguments; which ID that is doesn't matter here.
 */
module Diffs {
  import opened Prelude

  type View = string
  type Id = string
  type Diff = string

  /** `sent` is the last set of files the watch's worker was told to show; a new worker shows none. */
  datatype Watch = Watch(views: map<View, set<string>>, show: set<string>, sent: set<string>, diff: Option<Diff>, serial: nat, updating: bool)

  /** What a view last received of a diff. */
  datatype Copy = Copy(id: Id, serial: nat, diff: Option<Diff>)

  /** The watches, and what each view last received. */
  datatype State = State(watches: map<Id, Watch>, copies: map<View, Copy>)

  datatype Event =
    | Subscribe(view: View, id: Id)
    | Show(view: View, files: set<string>)
    | Leave(gone: set<View>)
    | Updating(id: Id)
    | Loaded(id: Id, diff: Diff)

  // What a subscription asks for

  datatype Args = NoArgs | ArgList(items: seq<Option<string>>) | NotAList

  /** The folder and the arguments of a diff, or why there is none. */
  function Asked(path: Option<string>, args: Args): Result<(string, seq<string>), string> {
    if path.None? || path.value == "" then Err("a diff needs the folder it's in (path)")
    else match args
      case NoArgs => Ok((path.value, []))
      case NotAList => Err("a diff's args are a list")
      case ArgList(items) =>
        if exists i <- items :: i.None? then Err("a diff's args are strings")
        else Ok((path.value, Texts(items)))
  }

  function Texts(items: seq<Option<string>>): seq<string> {
    seq(|items|, k requires 0 <= k < |items| => if items[k].Some? then items[k].value else "")
  }

  /** A diff is asked for exactly by a folder that is named and arguments that are strings, or none at all. */
  lemma {:induction false} AskedIff(path: Option<string>, args: Args, folder: string, texts: seq<string>)
    ensures Asked(path, args) == Ok((folder, texts)) <==>
            && path == Some(folder) && folder != ""
            && ((args.NoArgs? && texts == [])
                || (args.ArgList? && |args.items| == |texts| && forall k :: 0 <= k < |texts| ==> args.items[k] == Some(texts[k])))
  {
    if args.ArgList? {
      assert Asked(path, args).Ok? ==> forall k :: 0 <= k < |args.items| ==> args.items[k] in args.items;
      if forall k :: 0 <= k < |args.items| ==> args.items[k].Some? {
        forall i <- args.items ensures i.Some? {
        }
        assert |args.items| == |texts| && (forall k :: 0 <= k < |texts| ==> args.items[k] == Some(texts[k])) <==> Texts(args.items) == texts;
      }
    }
  }

  // The steps

  function Union(views: map<View, set<string>>): set<string> {
    set view, file | view in views && file in views[view] :: file
  }

  const STARTED: Watch := Watch(map[], {}, {}, None, 0, true)

  function Reshow(w: Watch): Watch {
    if Union(w.views) == w.show then w else w.(show := Union(w.views), sent := Union(w.views), updating := true)
  }

  function Leaving(w: Watch, gone: set<View>): Watch {
    var left := w.(views := w.views - gone);
    if left.views != w.views && left.views != map[] then Reshow(left) else left
  }

  function WatchesWithout(watches: map<Id, Watch>, gone: set<View>): map<Id, Watch> {
    map id | id in watches && watches[id].views - gone != map[] :: Leaving(watches[id], gone)
  }

  function CopyOf(id: Id, w: Watch): Copy {
    Copy(id, w.serial, w.diff)
  }

  function SubscribeTo(watches: map<Id, Watch>, view: View, id: Id): map<Id, Watch> {
    if id in watches && view in watches[id].views then watches
    else
      var rest := WatchesWithout(watches, {view});
      var w := if id in rest then rest[id] else STARTED;
      rest[id := w.(views := w.views[view := {}])]
  }

  /** The watch a view is in, if any. */
  predicate In(watches: map<Id, Watch>, view: View, id: Id) {
    id in watches && view in watches[id].views
  }

  function LoadedIn(w: Watch, diff: Diff): Watch {
    if w.diff == Some(diff) then w.(updating := false) else w.(updating := false, serial := w.serial + 1, diff := Some(diff))
  }

  function Showing(watches: map<Id, Watch>, view: View, files: set<string>): map<Id, Watch> {
    map id | id in watches ::
      var w := watches[id];
      if view in w.views then Reshow(w.(views := w.views[view := files])) else w
  }

  function Sent(copies: map<View, Copy>, views: set<View>, copy: Copy): map<View, Copy> {
    copies + map view | view in views :: copy
  }

  function Do(s: State, e: Event): State {
    match e
    case Subscribe(view, id) =>
      var after := SubscribeTo(s.watches, view, id);
      State(after, s.copies[view := CopyOf(id, after[id])])
    case Show(view, files) => s.(watches := Showing(s.watches, view, files))
    case Leave(gone) => s.(watches := WatchesWithout(s.watches, gone))
    case Updating(id) =>
      if id in s.watches then s.(watches := s.watches[id := s.watches[id].(updating := true)]) else s
    case Loaded(id, diff) =>
      if id !in s.watches then s
      else
        var w := LoadedIn(s.watches[id], diff);
        State(s.watches[id := w],
              if w.serial == s.watches[id].serial then s.copies else Sent(s.copies, w.views.Keys, CopyOf(id, w)))
  }

  function Run(events: seq<Event>): State {
    if events == [] then State(map[], map[]) else Do(Run(events[..|events| - 1]), events[|events| - 1])
  }

  // What every step keeps

  /** A watch has views, shows what any of them does, and its worker knows. */
  predicate Sound(w: Watch) {
    w.views != map[] && w.show == Union(w.views) && w.sent == w.show
  }

  /** Every view's copy is the watch's own. */
  predicate Agreed(id: Id, w: Watch, copies: map<View, Copy>) {
    forall view <- w.views :: view in copies && copies[view] == CopyOf(id, w)
  }

  ghost predicate OneWatchEach(watches: map<Id, Watch>) {
    forall a, b, view :: In(watches, view, a) && In(watches, view, b) ==> a == b
  }

  ghost predicate Inv(s: State) {
    && OneWatchEach(s.watches)
    && (forall id <- s.watches :: Sound(s.watches[id]))
    && forall id <- s.watches :: Agreed(id, s.watches[id], s.copies)
  }

  /** Leaving touches a watch's views and what it shows, not its diff. */
  lemma {:induction false} LeavingOnly(w: Watch, gone: set<View>)
    ensures Leaving(w, gone).views == w.views - gone && Leaving(w, gone).serial == w.serial && Leaving(w, gone).diff == w.diff
  {
  }

  lemma {:induction false} LeavingIsSound(w: Watch, gone: set<View>)
    requires Sound(w) && w.views - gone != map[]
    ensures Sound(Leaving(w, gone))
    ensures Leaving(w, gone).views == w.views - gone && Leaving(w, gone).serial == w.serial && Leaving(w, gone).diff == w.diff
  {
  }

  lemma {:induction false} LeaveKeepsInv(s: State, gone: set<View>)
    requires Inv(s)
    ensures Inv(Do(s, Leave(gone)))
    ensures forall view <- gone, id :: !In(WatchesWithout(s.watches, gone), view, id)
  {
    var after := WatchesWithout(s.watches, gone);
    forall id <- after ensures Sound(after[id]) && Agreed(id, after[id], s.copies) && after[id].views.Keys <= s.watches[id].views.Keys {
      LeavingIsSound(s.watches[id], gone);
    }
    forall a, b, view | In(after, view, a) && In(after, view, b) ensures a == b {
      assert In(s.watches, view, a) && In(s.watches, view, b);
    }
  }

  lemma {:induction false} UnionWithNone(views: map<View, set<string>>, view: View)
    requires view !in views
    ensures Union(views[view := {}]) == Union(views)
  {
    var more := views[view := {}];
    forall file ensures file in Union(more) <==> file in Union(views) {
      if file in Union(views) {
        var v :| v in views && file in views[v];
        assert v in more && file in more[v];
      }
      if file in Union(more) {
        var v :| v in more && file in more[v];
        assert v in views && file in views[v];
      }
    }
  }

  lemma {:induction false} JoinKeepsInv(s: State, view: View, id: Id)
    requires Inv(s) && forall other :: !In(s.watches, view, other)
    ensures var w := if id in s.watches then s.watches[id] else STARTED;
            var joined := w.(views := w.views[view := {}]);
            Inv(State(s.watches[id := joined], s.copies[view := CopyOf(id, joined)]))
  {
    var w := if id in s.watches then s.watches[id] else STARTED;
    var joined := w.(views := w.views[view := {}]);
    assert view !in w.views by {
      assert !In(s.watches, view, id);
    }
    UnionWithNone(w.views, view);
    var after, copies := s.watches[id := joined], s.copies[view := CopyOf(id, joined)];
    forall other <- after ensures Agreed(other, after[other], copies) {
      assert other != id ==> !In(s.watches, view, other);
    }
    forall a, b, v | In(after, v, a) && In(after, v, b) ensures a == b {
      if v != view {
        assert In(s.watches, v, a) && In(s.watches, v, b);
      } else {
        assert !In(s.watches, view, a) && !In(s.watches, view, b);
      }
    }
  }

  lemma {:induction false} SubscribeKeepsInv(s: State, view: View, id: Id)
    requires Inv(s)
    ensures Inv(Do(s, Subscribe(view, id)))
  {
    if id in s.watches && view in s.watches[id].views {
      assert Agreed(id, s.watches[id], s.copies);
      assert s.copies[view := CopyOf(id, s.watches[id])] == s.copies;
    } else {
      LeaveKeepsInv(s, {view});
      JoinKeepsInv(Do(s, Leave({view})), view, id);
    }
  }

  lemma {:induction false} ShowKeepsInv(s: State, view: View, files: set<string>)
    requires Inv(s)
    ensures Inv(Do(s, Show(view, files)))
  {
    var after := Showing(s.watches, view, files);
    forall id <- after ensures Sound(after[id]) && Agreed(id, after[id], s.copies) && after[id].views.Keys == s.watches[id].views.Keys {
      assert Sound(s.watches[id]) && Agreed(id, s.watches[id], s.copies);
    }
    forall a, b, v | In(after, v, a) && In(after, v, b) ensures a == b {
      assert In(s.watches, v, a) && In(s.watches, v, b);
    }
  }

  lemma {:induction false} LoadedKeepsInv(s: State, id: Id, diff: Diff)
    requires Inv(s) && id in s.watches
    ensures Inv(Do(s, Loaded(id, diff)))
  {
    var t := Do(s, Loaded(id, diff));
    forall other <- t.watches ensures Agreed(other, t.watches[other], t.copies) && t.watches[other].views == s.watches[other].views {
      assert Agreed(other, s.watches[other], s.copies);
      if other != id {
        forall view <- s.watches[other].views ensures view !in s.watches[id].views {
          assert In(s.watches, view, other);
          assert In(s.watches, view, id) ==> other == id;
        }
      }
    }
    forall a, b, v | In(t.watches, v, a) && In(t.watches, v, b) ensures a == b {
      assert In(s.watches, v, a) && In(s.watches, v, b);
    }
  }

  lemma {:induction false} UpdatingKeepsInv(s: State, id: Id)
    requires Inv(s) && id in s.watches
    ensures Inv(Do(s, Updating(id)))
  {
    var t := Do(s, Updating(id));
    forall a, b, v | In(t.watches, v, a) && In(t.watches, v, b) ensures a == b {
      assert In(s.watches, v, a) && In(s.watches, v, b);
    }
    forall other <- t.watches ensures Agreed(other, t.watches[other], t.copies) && Sound(t.watches[other]) {
      assert Agreed(other, s.watches[other], s.copies) && Sound(s.watches[other]);
    }
  }

  lemma {:induction false} StepKeepsInv(s: State, e: Event)
    requires Inv(s)
    ensures Inv(Do(s, e))
  {
    match e {
      case Subscribe(view, id) => SubscribeKeepsInv(s, view, id);
      case Show(view, files) => ShowKeepsInv(s, view, files);
      case Leave(gone) => LeaveKeepsInv(s, gone);
      case Updating(id) => if id in s.watches { UpdatingKeepsInv(s, id); }
      case Loaded(id, diff) => if id in s.watches { LoadedKeepsInv(s, id, diff); }
    }
  }

  lemma {:induction false} RunKeepsInv(events: seq<Event>)
    ensures Inv(Run(events))
  {
    if events != [] {
      RunKeepsInv(events[..|events| - 1]);
      StepKeepsInv(Run(events[..|events| - 1]), events[|events| - 1]);
    }
  }

  // Main results

  /** In every run each view is in at most one watch, and no watch is without views. */
  lemma {:induction false} ViewsAreInOneWatch(events: seq<Event>)
    ensures OneWatchEach(Run(events).watches)
    ensures forall id <- Run(events).watches :: Run(events).watches[id].views != map[]
  {
    RunKeepsInv(events);
  }

  /** What a watch shows, and its worker was last told, is what any of its views shows. */
  lemma {:induction false} WatchShowsTheUnion(events: seq<Event>, id: Id, file: string)
    requires id in Run(events).watches
    ensures var w := Run(events).watches[id];
            && w.sent == w.show
            && (file in w.show <==> exists view <- w.views :: file in w.views[view])
  {
    RunKeepsInv(events);
    assert Sound(Run(events).watches[id]);
  }

  /** Every subscribed view last received its watch's own serial and diff. */
  lemma {:induction false} CopiesAgree(events: seq<Event>, id: Id, view: View)
    requires In(Run(events).watches, view, id)
    ensures var s := Run(events);
            view in s.copies && s.copies[view] == Copy(id, s.watches[id].serial, s.watches[id].diff)
  {
    RunKeepsInv(events);
    assert Agreed(id, Run(events).watches[id], Run(events).copies);
  }

  // What the events alone say

  /** Where a view is: where it last subscribed, unless it has left since. */
  function PlaceOf(events: seq<Event>, view: View): Option<Id> {
    if events == [] then None
    else
      var most := events[..|events| - 1];
      match events[|events| - 1]
      case Subscribe(v, id) => if v == view then Some(id) else PlaceOf(most, view)
      case Leave(gone) => if view in gone then None else PlaceOf(most, view)
      case _ => PlaceOf(most, view)
  }

  /** The files it shows: those it last gave where it is, and none before it gives any. */
  function FilesOf(events: seq<Event>, view: View): set<string> {
    if events == [] then {}
    else
      var most := events[..|events| - 1];
      match events[|events| - 1]
      case Show(v, files) => if v == view && PlaceOf(most, view).Some? then files else FilesOf(most, view)
      case Subscribe(v, id) => if v == view && PlaceOf(most, view) != Some(id) then {} else FilesOf(most, view)
      case Leave(gone) => if view in gone then {} else FilesOf(most, view)
      case _ => FilesOf(most, view)
  }

  ghost predicate Seats(watches: map<Id, Watch>, view: View, place: Option<Id>, files: set<string>) {
    && (forall id :: In(watches, view, id) <==> place == Some(id))
    && forall id :: In(watches, view, id) ==> watches[id].views[view] == files
  }

  lemma {:induction false} ReshowKeepsViews(w: Watch)
    ensures Reshow(w).views == w.views && Reshow(w).diff == w.diff && Reshow(w).serial == w.serial
  {
  }

  lemma {:induction false} LeaveSeats(watches: map<Id, Watch>, gone: set<View>, view: View, place: Option<Id>, files: set<string>)
    requires Seats(watches, view, place, files)
    ensures Seats(WatchesWithout(watches, gone), view, if view in gone then None else place, files)
  {
    var after := WatchesWithout(watches, gone);
    forall id ensures In(after, view, id) <==> In(watches, view, id) && view !in gone {
      if id in watches {
        LeavingOnly(watches[id], gone);
        if view in watches[id].views && view !in gone {
          assert view in watches[id].views - gone;
        }
      }
    }
    forall id | In(after, view, id) ensures after[id].views[view] == files {
      LeavingOnly(watches[id], gone);
      assert In(watches, view, id);
    }
  }

  lemma {:induction false} SubscribeSeats(watches: map<Id, Watch>, who: View, at: Id, view: View, place: Option<Id>, files: set<string>)
    requires Seats(watches, view, place, files)
    ensures Seats(SubscribeTo(watches, who, at), view, if who == view then Some(at) else place, if who == view && place != Some(at) then {} else files)
  {
    if at in watches && who in watches[at].views {
      assert In(watches, who, at);
    } else {
      assert place == Some(at) && who == view ==> In(watches, view, at);
      var rest := WatchesWithout(watches, {who});
      LeaveSeats(watches, {who}, view, place, files);
      hide WatchesWithout;
      JoinSeats(rest, who, at, view, if view == who then None else place, files);
    }
  }

  lemma {:induction false} JoinSeats(rest: map<Id, Watch>, who: View, at: Id, view: View, place: Option<Id>, files: set<string>)
    requires Seats(rest, view, place, files) && (who == view ==> place.None?)
    ensures var w := if at in rest then rest[at] else STARTED;
            Seats(rest[at := w.(views := w.views[who := {}])], view, if who == view then Some(at) else place, if who == view then {} else files)
  {
    var w := if at in rest then rest[at] else STARTED;
    var after := rest[at := w.(views := w.views[who := {}])];
    forall id ensures In(after, view, id) <==> In(rest, view, id) || (who == view && id == at) {
    }
  }

  lemma {:induction false} ShowSeats(watches: map<Id, Watch>, who: View, given: set<string>, view: View, place: Option<Id>, files: set<string>)
    requires Seats(watches, view, place, files)
    ensures Seats(Showing(watches, who, given), view, place, if who == view && place.Some? then given else files)
  {
    var after := Showing(watches, who, given);
    forall id ensures In(after, view, id) <==> In(watches, view, id) {
    }
  }

  /**
   In every run a view is in exactly the watch it last subscribed to, until it leaves, and shows there
   exactly the files it last gave.
   */
  lemma {:induction false} ViewsShowWhatTheyGave(events: seq<Event>, view: View)
    ensures forall id :: In(Run(events).watches, view, id) <==> PlaceOf(events, view) == Some(id)
    ensures forall id :: In(Run(events).watches, view, id) ==> Run(events).watches[id].views[view] == FilesOf(events, view)
  {
    if events != [] {
      var most, last := events[..|events| - 1], events[|events| - 1];
      ViewsShowWhatTheyGave(most, view);
      var watches, place, files := Run(most).watches, PlaceOf(most, view), FilesOf(most, view);
      assert Seats(watches, view, place, files);
      match last
      case Subscribe(who, id) => SubscribeSeats(watches, who, id, view, place, files);
      case Show(who, given) => ShowSeats(watches, who, given, view, place, files);
      case Leave(gone) => LeaveSeats(watches, gone, view, place, files);
      case _ => OthersSeat(watches, Run(events).watches, view, place, files);
      assert Seats(Run(events).watches, view, PlaceOf(events, view), FilesOf(events, view)) || PlaceOf(events, view).None?;
    }
  }

  lemma {:induction false} OthersSeat(watches: map<Id, Watch>, after: map<Id, Watch>, view: View, place: Option<Id>, files: set<string>)
    requires Seats(watches, view, place, files) && after.Keys == watches.Keys && forall id <- watches :: after[id].views == watches[id].views
    ensures Seats(after, view, place, files)
  {
    forall id ensures In(after, view, id) <==> In(watches, view, id) {
    }
  }

  /** A watch runs while some view is there. */
  ghost predicate Wanted(events: seq<Event>, id: Id) {
    exists view :: PlaceOf(events, view) == Some(id)
  }

  /** The diff last loaded since a view first came. */
  ghost function LastLoaded(events: seq<Event>, id: Id): Option<Diff> {
    if events == [] || !Wanted(events, id) then None
    else if events[|events| - 1].Loaded? && events[|events| - 1].id == id then Some(events[|events| - 1].diff)
    else LastLoaded(events[..|events| - 1], id)
  }

  lemma {:induction false} RunsWhileWanted(events: seq<Event>, id: Id)
    ensures id in Run(events).watches <==> Wanted(events, id)
  {
    RunKeepsInv(events);
    var watches := Run(events).watches;
    if id in watches {
      assert Sound(watches[id]);
      var view :| view in watches[id].views;
      ViewsShowWhatTheyGave(events, view);
      assert In(watches, view, id);
    }
    if Wanted(events, id) {
      var view :| PlaceOf(events, view) == Some(id);
      ViewsShowWhatTheyGave(events, view);
      assert In(watches, view, id);
    }
  }

  lemma {:induction false} NewWatchIsEmpty(s: State, e: Event, id: Id)
    requires id !in s.watches && id in Do(s, e).watches
    ensures Do(s, e).watches[id].diff.None? && Do(s, e).watches[id].serial == 0 && !(e.Loaded? && e.id == id)
  {
  }

  /** In every run a watch is there exactly while a view is, and has the diff that was last loaded for it since. */
  lemma {:induction false} WatchHasTheLastLoaded(events: seq<Event>, id: Id)
    ensures id in Run(events).watches <==> Wanted(events, id)
    ensures id in Run(events).watches ==> Run(events).watches[id].diff == LastLoaded(events, id)
  {
    RunsWhileWanted(events, id);
    if events != [] && id in Run(events).watches {
      var most, last := events[..|events| - 1], events[|events| - 1];
      WatchHasTheLastLoaded(most, id);
      RunsWhileWanted(most, id);
      RunKeepsInv(most);
      if id in Run(most).watches {
        LifeStep(Run(most), last, id);
      } else {
        NewWatchIsEmpty(Run(most), last, id);
      }
      assert Run(events) == Do(Run(most), last);
      hide Do, Inv, Run;
      assert Wanted(events, id) && (!Wanted(most, id) ==> LastLoaded(most, id).None?);
      assert LastLoaded(events, id) == if last.Loaded? && last.id == id then Some(last.diff) else LastLoaded(most, id);
    }
  }

  /** A view that subscribes is in that watch, and one that leaves is in none. */
  lemma {:induction false} ViewsGoWhereTheyAsk(events: seq<Event>, view: View, id: Id)
    ensures In(Run(events + [Subscribe(view, id)]).watches, view, id)
    ensures forall other :: !In(Run(events + [Leave({view})]).watches, view, other)
  {
    assert (events + [Subscribe(view, id)])[..|events|] == events;
    assert (events + [Leave({view})])[..|events|] == events;
    RunKeepsInv(events);
    LeaveKeepsInv(Run(events), {view});
  }

  // A watch's life

  predicate Goes(s: State, e: Event, next: State) {
    next == Do(s, e)
  }

  /** The states a run goes through, before each event and after the last. */
  predicate IsTrace(events: seq<Event>, states: seq<State>) {
    && |states| == |events| + 1
    && states[0] == Run([])
    && forall n :: 0 <= n < |events| ==> Goes(states[n], events[n], states[n + 1])
  }

  lemma {:induction false} TraceIsRun(events: seq<Event>, states: seq<State>, n: nat)
    requires IsTrace(events, states) && n <= |events|
    ensures states[n] == Run(events[..n]) && Inv(states[n])
  {
    RunKeepsInv(events[..n]);
    if n > 0 {
      TraceIsRun(events, states, n - 1);
      assert events[..n][..n - 1] == events[..n - 1];
      assert Goes(states[n - 1], events[n - 1], states[n]);
      hide Do, Inv;
    }
  }

  /** The watch is there from point `a` through point `b`; a watch that goes and comes back has another life. */
  predicate Lives(states: seq<State>, id: Id, a: nat, b: nat) {
    b < |states| && forall n :: a <= n <= b ==> id in states[n].watches
  }

  /** The event brings the watch a diff other than its own. */
  predicate Changes(s: State, e: Event, id: Id) {
    e.Loaded? && e.id == id && id in s.watches && s.watches[id].diff != Some(e.diff)
  }

  lemma {:induction false} LifeStep(s: State, e: Event, id: Id)
    requires Inv(s) && id in s.watches && id in Do(s, e).watches
    ensures var w, x := s.watches[id], Do(s, e).watches[id];
            if Changes(s, e, id) then x.serial == w.serial + 1 && x.diff == Some(e.diff) else x.serial == w.serial && x.diff == w.diff
  {
    match e {
      case Subscribe(view, other) =>
        LeavingOnly(s.watches[id], {view});
        if id == other && view !in s.watches[id].views {
          assert Sound(s.watches[id]);
          assert s.watches[id].views - {view} == s.watches[id].views;
        }
        hide Leaving, Inv, Sound;
      case Leave(gone) =>
        LeavingOnly(s.watches[id], gone);
        hide Leaving, Inv;
      case Show(_, _) =>
        hide Inv;
      case Updating(_) =>
        hide Inv;
      case Loaded(_, _) =>
        hide Inv;
    }
  }

  /** The event makes the watch load: it starts it, changes what it shows, or says that the worker has begun to. */
  ghost predicate Prompts(s: State, e: Event, id: Id) {
    && id in Do(s, e).watches
    && (id !in s.watches || e == Updating(id) || Do(s, e).watches[id].show != s.watches[id].show)
  }

  predicate IsLoad(e: Event, id: Id) {
    e.Loaded? && e.id == id
  }

  lemma {:induction false} LeavingUpdates(w: Watch, gone: set<View>)
    ensures Leaving(w, gone).updating == (w.updating || Leaving(w, gone).show != w.show)
  {
  }

  lemma {:induction false} SubscribeUpdates(watches: map<Id, Watch>, view: View, at: Id, id: Id)
    requires id in SubscribeTo(watches, view, at) && (id in watches ==> watches[id].views != map[])
    ensures var w := SubscribeTo(watches, view, at)[id];
            if id in watches then w.updating == (watches[id].updating || w.show != watches[id].show) else w.updating
  {
    if id in watches {
      LeavingUpdates(watches[id], {view});
      if at == id && view !in watches[id].views {
        assert watches[id].views - {view} == watches[id].views;
      }
    }
    hide Leaving, Union;
  }

  lemma {:induction false} UpdatingStep(s: State, e: Event, id: Id)
    requires Inv(s) && id in Do(s, e).watches
    ensures Do(s, e).watches[id].updating <==> Prompts(s, e, id) || (id in s.watches && s.watches[id].updating && !IsLoad(e, id))
  {
    if id in s.watches {
      assert Sound(s.watches[id]);
    }
    hide Inv, Union;
    match e
    case Subscribe(view, at) =>
      SubscribeUpdates(s.watches, view, at, id);
      hide SubscribeTo;
    case Leave(gone) =>
      LeavingUpdates(s.watches[id], gone);
      hide Leaving;
    case _ =>
  }

  /** Something made the watch load at `k`, and nothing was loaded since. */
  ghost predicate LoadsSince(events: seq<Event>, states: seq<State>, id: Id, k: nat, n: nat)
    requires n <= |events| < |states|
  {
    && k < n && Prompts(states[k], events[k], id)
    && forall j :: k < j < n ==> id in states[j].watches && !IsLoad(events[j], id)
  }

  /** In every run a watch is marked as updating exactly when something made it load and nothing was loaded since. */
  lemma {:induction false} UpdatingIff(events: seq<Event>, states: seq<State>, id: Id, n: nat)
    requires IsTrace(events, states) && n <= |events| && id in states[n].watches
    ensures states[n].watches[id].updating <==> exists k: nat :: LoadsSince(events, states, id, k, n)
  {
    if n > 0 {
      var m := n - 1;
      TraceIsRun(events, states, m);
      assert Goes(states[m], events[m], states[n]);
      UpdatingStep(states[m], events[m], id);
      LoadsNext(events, states, id, m);
      if id in states[m].watches {
        UpdatingIff(events, states, id, m);
      }
      hide Do, Inv, Prompts, LoadsSince, IsTrace;
    }
  }

  lemma {:induction false} LoadsNext(events: seq<Event>, states: seq<State>, id: Id, m: nat)
    requires m < |events| < |states|
    ensures var n := m + 1;
            (exists k: nat :: LoadsSince(events, states, id, k, n)) <==>
            || Prompts(states[m], events[m], id)
            || (id in states[m].watches && !IsLoad(events[m], id) && exists k: nat :: LoadsSince(events, states, id, k, m))
  {
    hide Do, Prompts;
    var n := m + 1;
    if k: nat :| LoadsSince(events, states, id, k, m) {
      assert id in states[m].watches && !IsLoad(events[m], id) ==> LoadsSince(events, states, id, k, n);
    }
    if k: nat :| LoadsSince(events, states, id, k, n) {
      assert k < m ==> LoadsSince(events, states, id, k, m);
    }
    assert Prompts(states[m], events[m], id) ==> LoadsSince(events, states, id, m, n);
  }

  predicate ChangesWithin(events: seq<Event>, states: seq<State>, id: Id, a: nat, b: nat)
    requires b <= |events| && b <= |states|
  {
    exists n :: a <= n < b && Changes(states[n], events[n], id)
  }

  /**
   Within one life of a watch the serial never falls, and is the same at two points exactly
   when no diff loaded in between was a change; then the diff is the same too.
   */
  lemma {:induction false} SerialNamesTheDiff(events: seq<Event>, states: seq<State>, id: Id, a: nat, b: nat)
    requires IsTrace(events, states) && a <= b <= |events| && Lives(states, id, a, b)
    ensures var w, x := states[a].watches[id], states[b].watches[id];
            && w.serial <= x.serial
            && (w.serial == x.serial <==> !ChangesWithin(events, states, id, a, b))
            && (w.serial == x.serial ==> w.diff == x.diff)
  {
    if a < b {
      SerialNamesTheDiff(events, states, id, a, b - 1);
      TraceIsRun(events, states, b - 1);
      assert Goes(states[b - 1], events[b - 1], states[b]);
      LifeStep(states[b - 1], events[b - 1], id);
      hide Do, Inv, Changes;
      if ChangesWithin(events, states, id, a, b - 1) {
        var n :| a <= n < b - 1 && Changes(states[n], events[n], id);
      }
    }
  }

  /** So two copies with one serial, that views were sent in one life of a watch, are of one diff. */
  lemma {:induction false} CopiesOfOneSerial(events: seq<Event>, states: seq<State>, id: Id, a: nat, b: nat, v: View, w: View)
    requires IsTrace(events, states) && a <= b <= |events| && Lives(states, id, a, b)
    requires In(states[a].watches, v, id) && In(states[b].watches, w, id)
    ensures v in states[a].copies && w in states[b].copies
    ensures states[a].copies[v].serial == states[b].copies[w].serial ==> states[a].copies[v] == states[b].copies[w]
  {
    TraceIsRun(events, states, a);
    TraceIsRun(events, states, b);
    assert Agreed(id, states[a].watches[id], states[a].copies) && Agreed(id, states[b].watches[id], states[b].copies);
    SerialNamesTheDiff(events, states, id, a, b);
  }

  // The daemon's own

  class Diffs {
    var watches: map<Id, Watch>
    ghost var copies: map<View, Copy>

    ghost function Now(): State
      reads this
    {
      State(watches, copies)
    }

    constructor ()
      ensures Now() == Run([])
    {
      watches, copies := map[], map[];
    }

    method Subscribe(view: View, id: Id) returns (reply: Copy)
      requires Inv(Now())
      modifies this
      ensures Inv(Now()) && Now() == Do(old(Now()), Event.Subscribe(view, id))
      ensures reply == CopyOf(id, watches[id])
    {
      SubscribeKeepsInv(Now(), view, id);
      if id in watches && view in watches[id].views {
        reply := CopyOf(id, watches[id]);
      } else {
        Leave({view});
        var watch := if id in watches then watches[id] else STARTED;
        watch := watch.(views := watch.views[view := {}]);
        watches := watches[id := watch];
        reply := CopyOf(id, watch);
      }
      copies := copies[view := reply];
    }

    /** A subscription as it is asked for; `idOf` makes the ID of a folder and its arguments. */
    method Request(view: View, path: Option<string>, args: Args, idOf: (string, seq<string>) -> Id) returns (reply: Result<Copy, string>)
      requires Inv(Now())
      modifies this
      ensures Asked(path, args).Err? ==> reply == Err(Asked(path, args).error) && Now() == old(Now())
      ensures Asked(path, args).Ok? ==>
                var id := idOf(Asked(path, args).value.0, Asked(path, args).value.1);
                Now() == Do(old(Now()), Event.Subscribe(view, id)) && In(watches, view, id) && reply == Ok(CopyOf(id, watches[id]))
      ensures Inv(Now())
    {
      if path.None? || path.value == "" {
        return Err("a diff needs the folder it's in (path)");
      }
      if args.NotAList? {
        return Err("a diff's args are a list");
      }
      var words: seq<string> := [];
      if args.ArgList? {
        for i := 0 to |args.items|
          invariant Now() == old(Now())
          invariant |words| == i && forall k :: 0 <= k < i ==> args.items[k] == Some(words[k])
        {
          if args.items[i].None? {
            return Err("a diff's args are strings");
          }
          words := words + [args.items[i].value];
        }
        assert Texts(args.items) == words;
      }
      assert Asked(path, args) == Ok((path.value, words));
      var copy := Subscribe(view, idOf(path.value, words));
      reply := Ok(copy);
    }

    /** The first watch found with the view is the only one. */
    method Show(view: View, files: set<string>)
      requires Inv(Now())
      modifies this
      ensures Inv(Now()) && Now() == Do(old(Now()), Event.Show(view, files))
    {
      ShowKeepsInv(Now(), view, files);
      if id :| id in watches && view in watches[id].views {
        var watch := watches[id];
        ghost var before := watches;
        watches := watches[id := Reshow(watch.(views := watch.views[view := files]))];
        OnlyThatOne(before, view, files, id);
      } else {
        assert Showing(watches, view, files) == watches;
      }
    }

    static method TakeOut(watch: Watch, gone: set<View>) returns (left: Watch)
      ensures left == Leaving(watch, gone)
    {
      left := watch.(views := watch.views - gone);
      if left.views != watch.views && left.views != map[] {
        left := Reshow(left);
      }
    }

    static method TakeOutOfAll(watches: map<Id, Watch>, gone: set<View>) returns (left: map<Id, Watch>)
      ensures left.Keys == watches.Keys && forall id <- watches :: left[id] == Leaving(watches[id], gone)
    {
      left := watches;
      var ids := watches.Keys;
      hide Leaving;
      while ids != {}
        invariant ids <= left.Keys == watches.Keys
        invariant forall id <- watches :: left[id] == if id in ids then watches[id] else Leaving(watches[id], gone)
        decreases |ids|
      {
        var id :| id in ids;
        var watch := TakeOut(left[id], gone);
        left := left[id := watch];
        ids := ids - {id};
      }
    }

    /** Takes the views out of every watch, then drops the watches left without. */
    method Leave(gone: set<View>)
      requires Inv(Now())
      modifies this
      ensures Inv(Now()) && Now() == Do(old(Now()), Event.Leave(gone))
    {
      LeaveKeepsInv(Now(), gone);
      ghost var before := watches;
      watches := TakeOutOfAll(watches, gone);
      DropEmpty(before, watches, gone);
      watches := map id | id in watches && watches[id].views != map[] :: watches[id];
    }

    method Updating(id: Id)
      requires Inv(Now())
      modifies this
      ensures Inv(Now()) && Now() == Do(old(Now()), Event.Updating(id))
    {
      StepKeepsInv(Now(), Event.Updating(id));
      if id in watches {
        watches := watches[id := watches[id].(updating := true)];
      }
    }

    /** `told` are the views that are sent the new diff. */
    method Loaded(id: Id, diff: Diff) returns (told: set<View>)
      requires Inv(Now())
      modifies this
      ensures Inv(Now()) && Now() == Do(old(Now()), Event.Loaded(id, diff))
      ensures told == if id in watches && watches[id].serial != old(watches)[id].serial then watches[id].views.Keys else {}
    {
      StepKeepsInv(Now(), Event.Loaded(id, diff));
      hide Inv, Reshow, Union, SubscribeTo, WatchesWithout, Showing;
      told := {};
      if id !in watches {
        return;
      }
      var watch := watches[id].(updating := false);
      if watch.diff != Some(diff) {
        watch := watch.(serial := watch.serial + 1, diff := Some(diff));
        told := watch.views.Keys;
        copies := Sent(copies, told, CopyOf(id, watch));
      }
      assert watch == LoadedIn(watches[id], diff);
      hide Sent;
      watches := watches[id := watch];
    }
  }

  lemma {:induction false} DropEmpty(before: map<Id, Watch>, watches: map<Id, Watch>, gone: set<View>)
    requires watches.Keys == before.Keys && forall id <- before :: watches[id] == Leaving(before[id], gone)
    ensures WatchesWithout(before, gone) == map id | id in watches && watches[id].views != map[] :: watches[id]
  {
    forall id <- before ensures watches[id].views == before[id].views - gone {
      LeavingOnly(before[id], gone);
    }
    hide Leaving;
  }

  lemma {:induction false} OnlyThatOne(watches: map<Id, Watch>, view: View, files: set<string>, id: Id)
    requires OneWatchEach(watches) && In(watches, view, id)
    ensures Showing(watches, view, files) == watches[id := Reshow(watches[id].(views := watches[id].views[view := files]))]
  {
    forall other <- watches ensures other != id ==> view !in watches[other].views {
      assert In(watches, view, other) ==> other == id;
    }
  }
}
