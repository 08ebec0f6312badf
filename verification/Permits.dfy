/**
 The permission to run a task, which moves between machines by numbered grants. A grant stays
 in its giver's outbox, sent again and again, until the recipient says that it has it. There
 is always a machine that never heard of the task.
 */
module Permits {
  import opened Prelude

  datatype Permit = Ready | Running | Sent | Acked

  datatype Authority = Authority(epoch: nat, permit: Permit, to: Option<nat>)

  datatype Refusal = Started | GivenAway(to: Option<nat>) | NeverGiven

  datatype Grant = Grant(epoch: nat, to: nat)

  predicate Holding(a: Option<Authority>) {
    a.Some? && (a.value.permit == Ready || a.value.permit == Running)
  }

  // What each operation makes of a machine's row

  function Start(a: Option<Authority>): Result<Authority, Refusal> {
    match a
    case None => Err(NeverGiven)
    case Some(Authority(epoch, Ready, _)) => Ok(Authority(epoch, Running, None))
    case Some(Authority(_, Running, _)) => Ok(a.value)
    case Some(_) => Err(GivenAway(a.value.to))
  }

  function Give(a: Option<Authority>, to: nat): Result<Authority, Refusal> {
    match a
    case None => Err(NeverGiven)
    case Some(Authority(epoch, Ready, _)) => Ok(Authority(epoch + 1, Sent, Some(to)))
    case Some(Authority(_, Running, _)) => Err(Started)
    case Some(_) => Err(GivenAway(a.value.to))
  }

  function Hand(a: Option<Authority>, to: nat): Result<Authority, Refusal> {
    match a
    case None => Err(NeverGiven)
    case Some(Authority(epoch, permit, other)) =>
      if permit == Ready || permit == Running then Ok(Authority(epoch + 1, Sent, Some(to))) else Err(GivenAway(other))
  }

  function Receive(a: Option<Authority>, epoch: nat): Option<Authority> {
    if a.Some? && a.value.epoch >= epoch then a else Some(Authority(epoch, Ready, None))
  }

  function Ack(a: Option<Authority>, epoch: nat): Option<Authority> {
    match a
    case None => None
    case Some(held) => if held.permit == Sent && held.epoch == epoch then Some(held.(permit := Acked)) else a
  }

  // Runs

  /** The machines' rows for one task, and every grant of it ever made. */
  datatype World = World(rows: map<nat, Authority>, grants: set<Grant>)

  /** A grant may be received never, late or repeatedly; only what was received is acknowledged. */
  datatype Step =
    | Starting(m: nat)
    | Giving(m: nat, to: nat)
    | Handing(m: nat, to: nat)
    | Receiving(grant: Grant)
    | Acking(m: nat, grant: Grant)
    | Reclaiming(m: nat)

  function Row(w: World, m: nat): Option<Authority> {
    if m in w.rows then Some(w.rows[m]) else None
  }

  predicate Has(w: World, m: nat) {
    Holding(Row(w, m))
  }

  /** The grant would still be taken. */
  predicate Open(w: World, g: Grant) {
    g in w.grants && (g.to in w.rows ==> w.rows[g.to].epoch < g.epoch)
  }

  predicate Can(w: World, step: Step) {
    match step
    case Starting(_) => true
    case Giving(m, to) => to != m
    case Handing(m, to) => to != m
    case Receiving(g) => g in w.grants
    case Acking(_, g) => g in w.grants && !Open(w, g)
    case Reclaiming(m) => m in w.rows
  }

  function Given(w: World, m: nat, to: nat, r: Result<Authority, Refusal>): World {
    match r
    case Ok(a) => World(w.rows[m := a], w.grants + {Grant(a.epoch, to)})
    case Err(_) => w
  }

  function Put(w: World, m: nat, a: Option<Authority>): World {
    if a.Some? then w.(rows := w.rows[m := a.value]) else w
  }

  function Do(w: World, step: Step): World
    requires Can(w, step)
  {
    match step
    case Starting(m) => (match Start(Row(w, m)) case Ok(a) => Put(w, m, Some(a)) case Err(_) => w)
    case Giving(m, to) => Given(w, m, to, Give(Row(w, m), to))
    case Handing(m, to) => Given(w, m, to, Hand(Row(w, m), to))
    case Receiving(g) => Put(w, g.to, Receive(Row(w, g.to), g.epoch))
    case Acking(m, g) => Put(w, m, Ack(Row(w, m), g.epoch))
    case Reclaiming(m) => Put(w, m, Some(Authority(w.rows[m].epoch, Running, None)))
  }

  predicate Goes(w: World, step: Step, after: World) {
    Can(w, step) && after == Do(w, step)
  }

  predicate IsRun(w: World, steps: seq<Step>, states: seq<World>) {
    && |states| == |steps| + 1 && states[0] == w
    && (forall k :: 0 <= k < |steps| ==> Goes(states[k], steps[k], states[k + 1]))
  }

  /** One machine made the task, and has it. */
  predicate Starts(w: World, origin: nat) {
    w.grants == {} && w.rows.Keys == {origin} && w.rows[origin].epoch == 0 && Has(w, origin)
  }

  ghost predicate TwoHave(w: World) {
    exists a: nat, b: nat :: a != b && Has(w, a) && Has(w, b)
  }

  // At most one machine

  /** Whatever is held or could still be taken is so at one machine, and taking it would be the next epoch there. */
  ghost predicate AllAt(w: World, c: nat) {
    && (forall m | Has(w, m) :: m == c)
    && (forall g | Open(w, g) :: g.to == c)
    && (forall g, h | Open(w, g) && Open(w, h) :: g == h)
    && (forall g | Open(w, g) && Has(w, c) :: g.epoch == w.rows[c].epoch + 1)
  }

  ghost predicate AtOne(w: World) {
    exists c :: AllAt(w, c)
  }

  /** The machine has it anyway, or nobody does and only that machine's next epoch can still be taken. */
  ghost predicate MayReclaim(w: World, m: nat)
    requires m in w.rows
  {
    Has(w, m) || ((forall x: nat :: !Has(w, x)) && forall g | Open(w, g) :: g == Grant(w.rows[m].epoch + 1, m))
  }

  ghost predicate Fitting(w: World, step: Step) {
    step.Reclaiming? && step.m in w.rows ==> MayReclaim(w, step.m)
  }

  lemma {:induction false} GivenIsAtOne(w: World, c: nat, m: nat, to: nat, r: Result<Authority, Refusal>)
    requires AllAt(w, c) && to != m
    requires r.Ok? ==> Has(w, m) && r.value == Authority(w.rows[m].epoch + 1, Sent, Some(to))
    ensures AtOne(Given(w, m, to, r))
  {
    var after := Given(w, m, to, r);
    if r.Ok? {
      assert m == c;
      forall g | Open(after, g) ensures g == Grant(r.value.epoch, to) {
        if g in w.grants {
          assert Open(w, g);
        }
      }
      forall x: nat ensures !Has(after, x) {
        assert x != m ==> !Has(w, x);
      }
      assert AllAt(after, to);
    } else {
      assert AllAt(after, c);
    }
  }

  lemma {:induction false} ReceivedIsAtOne(w: World, c: nat, g: Grant)
    requires AllAt(w, c) && g in w.grants
    ensures AtOne(Do(w, Receiving(g)))
  {
    var after := Do(w, Receiving(g));
    if Open(w, g) {
      assert g.to == c;
      forall h | Open(after, h) ensures Open(w, h) {
      }
      forall x | Has(after, x) ensures x == c {
        assert x != c ==> Has(w, x);
      }
      assert AllAt(after, c);
    } else {
      assert after.rows == w.rows;
      assert AllAt(after, c);
    }
  }

  lemma {:induction false} RestIsAtOne(w: World, c: nat, step: Step)
    requires AllAt(w, c) && Can(w, step) && Fitting(w, step) && (step.Starting? || step.Acking? || step.Reclaiming?)
    ensures AtOne(Do(w, step))
  {
    var after := Do(w, step);
    assert forall g :: Open(after, g) <==> Open(w, g);
    forall x | Has(after, x) ensures Has(w, x) || (step.Reclaiming? && x == step.m) {
    }
    if step.Reclaiming? && !Has(w, step.m) {
      assert AllAt(after, step.m);
    } else {
      assert AllAt(after, c);
    }
  }

  lemma {:induction false} StepIsAtOne(w: World, step: Step)
    requires AtOne(w) && Can(w, step) && Fitting(w, step)
    ensures AtOne(Do(w, step))
  {
    var c :| AllAt(w, c);
    match step
    case Giving(m, to) => GivenIsAtOne(w, c, m, to, Give(Row(w, m), to));
    case Handing(m, to) => GivenIsAtOne(w, c, m, to, Hand(Row(w, m), to));
    case Receiving(g) => ReceivedIsAtOne(w, c, g);
    case _ => RestIsAtOne(w, c, step);
  }

  ghost predicate AllFit(steps: seq<Step>, states: seq<World>, n: nat)
    requires n <= |steps| <= |states|
  {
    forall k :: 0 <= k < n ==> Fitting(states[k], steps[k])
  }

  lemma {:induction false} RunIsAtOne(w: World, steps: seq<Step>, states: seq<World>, n: nat)
    requires IsRun(w, steps, states) && AtOne(w) && n <= |steps| && AllFit(steps, states, n)
    ensures AtOne(states[n])
  {
    if n > 0 {
      RunIsAtOne(w, steps, states, n - 1);
      assert Goes(states[n - 1], steps[n - 1], states[n]);
      StepIsAtOne(states[n - 1], steps[n - 1]);
    }
  }

  lemma {:induction false} StartIsAtOne(w: World, origin: nat)
    requires Starts(w, origin)
    ensures AllAt(w, origin)
  {
  }

  predicate WithoutReclaim(steps: seq<Step>) {
    forall step <- steps :: !step.Reclaiming?
  }

  /** Going on from here without taking anything back, two machines can come to have the task. */
  ghost predicate CanSplit(w: World) {
    exists steps, states :: IsRun(w, steps, states) && WithoutReclaim(steps) && TwoHave(states[|steps|])
  }

  lemma {:induction false} AtOneCannotSplit(w: World)
    requires AtOne(w)
    ensures !CanSplit(w) && !TwoHave(w)
  {
    if CanSplit(w) {
      var steps, states :| IsRun(w, steps, states) && WithoutReclaim(steps) && TwoHave(states[|steps|]);
      RunIsAtOne(w, steps, states, |steps|);
      assert false;
    }
  }

  lemma {:induction false} SplitsNow(w: World, a: nat, b: nat)
    requires a != b && Has(w, a) && Has(w, b)
    ensures CanSplit(w)
  {
    assert IsRun(w, [], [w]) && TwoHave([w][0]);
  }

  lemma {:induction false} SplitsAfter(w: World, step: Step)
    requires Can(w, step) && !step.Reclaiming? && CanSplit(Do(w, step))
    ensures CanSplit(w)
  {
    var after := Do(w, step);
    var steps, states :| IsRun(after, steps, states) && WithoutReclaim(steps) && TwoHave(states[|steps|]);
    var longer, through := [step] + steps, [w] + states;
    forall k | 0 <= k < |longer| ensures Goes(through[k], longer[k], through[k + 1]) {
      if k > 0 {
        assert Goes(states[k - 1], steps[k - 1], states[k]);
      }
    }
    assert IsRun(w, longer, through) && through[|longer|] == states[|steps|];
    assert CanSplit(w);
  }

  lemma {:induction false} StrangerAmong(known: set<nat>) returns (x: nat)
    ensures x !in known
  {
    x := 0;
    var left := known;
    while x in left
      invariant left <= known && forall k | k in known :: k in left || k < x
      decreases |left|
    {
      left := left - {x};
      x := x + 1;
    }
  }

  /** It was handed on at the reclaimer's own next epoch, while a later one is on the way to it. */
  lemma {:induction false} LaterOnTheWaySplits(w: World, m: nat, g: Grant)
    requires Has(w, m) && Open(w, g) && g.to == m && g.epoch > w.rows[m].epoch + 1
    ensures CanSplit(w)
  {
    var d := StrangerAmong(w.rows.Keys);
    var handed := Do(w, Handing(m, d));
    var h := Grant(w.rows[m].epoch + 1, d);
    var there := Do(handed, Receiving(h));
    var both := Do(there, Receiving(g));
    SplitsNow(both, m, d);
    SplitsAfter(there, Receiving(g));
    SplitsAfter(handed, Receiving(h));
    SplitsAfter(w, Handing(m, d));
  }

  lemma {:induction false} UnfittingSplits(w: World, m: nat)
    requires m in w.rows && !MayReclaim(w, m)
    ensures CanSplit(Do(w, Reclaiming(m)))
  {
    var after := Do(w, Reclaiming(m));
    if x: nat :| Has(w, x) {
      SplitsNow(after, m, x);
    } else {
      var g :| Open(w, g) && g != Grant(w.rows[m].epoch + 1, m);
      assert Open(after, g);
      if g.to == m {
        LaterOnTheWaySplits(after, m, g);
      } else {
        SplitsNow(Do(after, Receiving(g)), m, g.to);
        SplitsAfter(after, Receiving(g));
      }
    }
  }

  /**
   In a run, from no point on can two machines have the task without a further reclaim, if and
   only if whatever was reclaimed was nobody else's and couldn't become so.
   */
  lemma {:induction false} OneHolderIff(origin: nat, steps: seq<Step>, states: seq<World>)
    requires |states| > 0 && Starts(states[0], origin) && IsRun(states[0], steps, states)
    ensures (forall k :: 0 <= k <= |steps| ==> !CanSplit(states[k])) <==> AllFit(steps, states, |steps|)
  {
    hide CanSplit, AtOne, MayReclaim;
    if AllFit(steps, states, |steps|) {
      forall k | 0 <= k <= |steps| ensures !CanSplit(states[k]) {
        OneHolder(origin, steps, states, k);
      }
    } else {
      var k :| 0 <= k < |steps| && !Fitting(states[k], steps[k]);
      assert Goes(states[k], steps[k], states[k + 1]);
      UnfittingSplits(states[k], steps[k].m);
    }
  }

  /** With no reclaim but such, at most one machine is ready to run the task or runs it, at any point of any run. */
  lemma {:induction false} OneHolder(origin: nat, steps: seq<Step>, states: seq<World>, n: nat)
    requires |states| > 0 && Starts(states[0], origin) && IsRun(states[0], steps, states)
    requires n <= |steps| && AllFit(steps, states, n)
    ensures !TwoHave(states[n]) && !CanSplit(states[n])
  {
    StartIsAtOne(states[0], origin);
    assert AtOne(states[0]);
    hide AtOne;
    RunIsAtOne(states[0], steps, states, n);
    AtOneCannotSplit(states[n]);
  }

  /** A task handed over, taken, and then called off by its giver is had by both. */
  lemma {:induction false} TakenButCalledOff(origin: nat, other: nat, w: World)
    requires Starts(w, origin) && other != origin
    ensures exists states :: IsRun(w, [Handing(origin, other), Receiving(Grant(1, other)), Reclaiming(origin)], states) && TwoHave(states[3])
  {
    var steps := [Handing(origin, other), Receiving(Grant(1, other)), Reclaiming(origin)];
    var handed := Do(w, steps[0]);
    var taken := Do(handed, steps[1]);
    var both := Do(taken, steps[2]);
    var states := [w, handed, taken, both];
    assert IsRun(w, steps, states);
    assert Has(both, origin) && Has(both, other);
    assert TwoHave(states[3]);
  }

  // A grant is taken once, and not lost

  lemma {:induction false} StepKeepsEpochs(w: World, step: Step, m: nat)
    requires Can(w, step) && m in w.rows
    ensures m in Do(w, step).rows && Do(w, step).rows[m].epoch >= w.rows[m].epoch
  {
  }

  lemma {:induction false} EpochsNeverFall(w: World, steps: seq<Step>, states: seq<World>, i: nat, j: nat, m: nat)
    requires IsRun(w, steps, states) && i <= j <= |steps| && m in states[i].rows
    ensures m in states[j].rows && states[j].rows[m].epoch >= states[i].rows[m].epoch
  {
    if i < j {
      EpochsNeverFall(w, steps, states, i, j - 1, m);
      assert Goes(states[j - 1], steps[j - 1], states[j]);
      StepKeepsEpochs(states[j - 1], steps[j - 1], m);
    }
  }

  /** In every run, with or without reclaims, a grant that arrives again changes nothing. */
  lemma {:induction false} GrantIsTakenOnce(w: World, steps: seq<Step>, states: seq<World>, i: nat, j: nat, g: Grant)
    requires IsRun(w, steps, states) && i < j < |steps| && steps[i] == Receiving(g) && steps[j] == Receiving(g)
    ensures states[j + 1] == states[j]
  {
    assert Goes(states[i], steps[i], states[i + 1]) && Goes(states[j], steps[j], states[j + 1]);
    EpochsNeverFall(w, steps, states, i + 1, j, g.to);
    assert states[j + 1].rows == states[j].rows;
  }

  ghost predicate NoneAbove(w: World, e: nat, c: nat) {
    && (forall m <- w.rows :: w.rows[m].epoch <= e)
    && (forall g <- w.grants :: g.epoch < e || g == Grant(e, c))
  }

  /** The grant is in its giver's outbox. */
  ghost predicate InOutbox(w: World, g: Grant) {
    exists m: nat :: Row(w, m) == Some(Authority(g.epoch, Sent, Some(g.to)))
  }

  /** The machine has the task, and no grant can be taken; or nobody has it, and one grant to that machine can, which its giver keeps sending. */
  ghost predicate Kept(w: World, e: nat, c: nat) {
    if Has(w, c) then w.rows[c].epoch == e && forall g: Grant :: !Open(w, g)
    else Open(w, Grant(e, c)) && InOutbox(w, Grant(e, c)) && forall g | Open(w, g) :: g == Grant(e, c)
  }

  ghost predicate Only(w: World, c: nat) {
    forall m | Has(w, m) :: m == c
  }

  ghost predicate IsKept(w: World, e: nat, c: nat) {
    NoneAbove(w, e, c) && Only(w, c) && Kept(w, e, c)
  }

  lemma {:induction false} GivenIsKept(w: World, e: nat, c: nat, m: nat, to: nat, r: Result<Authority, Refusal>) returns (e': nat, c': nat)
    requires IsKept(w, e, c) && to != m
    requires r.Ok? ==> Has(w, m) && r.value == Authority(w.rows[m].epoch + 1, Sent, Some(to))
    ensures IsKept(Given(w, m, to, r), e', c')
  {
    e', c' := e, c;
    if r.Ok? {
      var after := Given(w, m, to, r);
      e', c' := e + 1, to;
      assert m == c && Row(after, m) == Some(Authority(e + 1, Sent, Some(to)));
      forall g | Open(after, g) ensures g == Grant(e + 1, to) {
        assert g in w.grants ==> !Open(w, g);
      }
      forall x: nat ensures !Has(after, x) {
        assert x != m ==> !Has(w, x);
      }
    }
  }

  lemma {:induction false} ReceivedIsKept(w: World, e: nat, c: nat, g: Grant)
    requires IsKept(w, e, c) && g in w.grants
    ensures IsKept(Do(w, Receiving(g)), e, c)
  {
    var after := Do(w, Receiving(g));
    if Open(w, g) {
      assert g == Grant(e, c) && Has(after, c);
      forall h: Grant ensures !Open(after, h) {
        assert Open(after, h) ==> Open(w, h);
      }
      forall x | Has(after, x) ensures x == c {
        assert x != c ==> Has(w, x);
      }
    } else {
      assert after == w;
    }
  }

  lemma {:induction false} RestIsKept(w: World, e: nat, c: nat, step: Step)
    requires IsKept(w, e, c) && Can(w, step) && (step.Starting? || step.Acking?)
    ensures IsKept(Do(w, step), e, c)
  {
    var after := Do(w, step);
    forall g: Grant ensures Open(after, g) <==> Open(w, g) {
    }
    forall x: nat ensures Has(after, x) <==> Has(w, x) {
    }
    if !Has(w, c) {
      var m: nat :| Row(w, m) == Some(Authority(e, Sent, Some(c)));
      assert Row(after, m) == Row(w, m);
    }
  }

  lemma {:induction false} RunIsKept(origin: nat, steps: seq<Step>, states: seq<World>, n: nat) returns (e: nat, c: nat)
    requires |states| > 0 && Starts(states[0], origin) && IsRun(states[0], steps, states)
    requires n <= |steps| && WithoutReclaim(steps[..n])
    ensures IsKept(states[n], e, c)
  {
    if n == 0 {
      e, c := 0, origin;
    } else {
      assert steps[..n][..n - 1] == steps[..n - 1] && steps[..n][n - 1] in steps[..n];
      var e0, c0 := RunIsKept(origin, steps, states, n - 1);
      var w, step := states[n - 1], steps[n - 1];
      assert Goes(w, step, states[n]);
      hide IsKept;
      e, c := e0, c0;
      match step
      case Giving(m, to) => e, c := GivenIsKept(w, e0, c0, m, to, Give(Row(w, m), to));
      case Handing(m, to) => e, c := GivenIsKept(w, e0, c0, m, to, Hand(Row(w, m), to));
      case Receiving(g) => ReceivedIsKept(w, e0, c0, g);
      case Starting(_) => RestIsKept(w, e0, c0, step);
      case Acking(_, _) => RestIsKept(w, e0, c0, step);
    }
  }

  /**
   In every run without a reclaim the permission is in one place: one machine has the task and no
   grant can still be taken, or none has it and a grant is in an outbox, the only one to be taken.
   */
  lemma {:induction false} PermissionIsNotLost(origin: nat, steps: seq<Step>, states: seq<World>, n: nat)
    requires |states| > 0 && Starts(states[0], origin) && IsRun(states[0], steps, states)
    requires n <= |steps| && WithoutReclaim(steps[..n])
    ensures !TwoHave(states[n])
    ensures (exists m :: Has(states[n], m)) <==> forall g: Grant :: !Open(states[n], g)
    ensures forall g | Open(states[n], g) :: InOutbox(states[n], g) && forall h | Open(states[n], h) :: h == g
  {
    var e, c := RunIsKept(origin, steps, states, n);
    if !Has(states[n], c) {
      assert Open(states[n], Grant(e, c));
    }
  }

  // Who has the task, runs it or keeps sending its grant, from the steps alone

  predicate Runs(w: World, m: nat) {
    m in w.rows && w.rows[m].permit == Running
  }

  /** A grant of the task to the machine is taken. */
  predicate Takes(w: World, step: Step, m: nat) {
    step.Receiving? && step.grant.to == m && Open(w, step.grant)
  }

  /** The machine gives the task away: hands it over, or grants it before it was started. */
  predicate GivesUp(w: World, step: Step, m: nat) {
    (step.Handing? && step.m == m && Has(w, m)) || (step.Giving? && step.m == m && Has(w, m) && !Runs(w, m))
  }

  lemma {:induction false} HasStep(w: World, step: Step, m: nat)
    requires Can(w, step)
    ensures var next := Do(w, step);
            && (Has(next, m) <==> Takes(w, step, m) || step == Reclaiming(m) || (Has(w, m) && !GivesUp(w, step, m)))
            && (Runs(next, m) <==> step == Reclaiming(m) || (step == Starting(m) && Has(w, m)) || (Runs(w, m) && !GivesUp(w, step, m) && !Takes(w, step, m)))
  {
  }

  /** The machine made the task or took it at point `k`, and hasn't given it away up to `n`. */
  predicate HeldFrom(origin: nat, steps: seq<Step>, states: seq<World>, m: nat, k: nat, n: nat)
    requires n <= |steps| < |states|
  {
    && k <= n
    && (if k == 0 then m == origin else Takes(states[k - 1], steps[k - 1], m) || steps[k - 1] == Reclaiming(m))
    && forall j :: k <= j < n ==> !GivesUp(states[j], steps[j], m)
  }

  /** It was started at point `k`, and neither given away nor taken anew up to `n`. */
  predicate RunFrom(steps: seq<Step>, states: seq<World>, m: nat, k: nat, n: nat)
    requires n <= |steps| < |states|
  {
    && k <= n
    && (if k == 0 then Runs(states[0], m) else steps[k - 1] == Reclaiming(m) || (steps[k - 1] == Starting(m) && Has(states[k - 1], m)))
    && forall j :: k <= j < n ==> !GivesUp(states[j], steps[j], m) && !Takes(states[j], steps[j], m)
  }

  /**
   In every run a machine has the task exactly while it made it, took a grant of it or reclaimed it, and
   hasn't given it away since; and runs it exactly while it was also started since. One that
   was started is never granted, only handed over.
   */
  lemma {:induction false} HoldsIff(origin: nat, steps: seq<Step>, states: seq<World>, n: nat, m: nat)
    requires |states| > 0 && Starts(states[0], origin) && IsRun(states[0], steps, states) && n <= |steps|
    ensures Has(states[n], m) <==> exists k: nat :: HeldFrom(origin, steps, states, m, k, n)
    ensures Runs(states[n], m) <==> exists k: nat :: RunFrom(steps, states, m, k, n)
  {
    if n == 0 {
      assert HeldFrom(origin, steps, states, m, 0, 0) <==> m == origin;
      assert RunFrom(steps, states, m, 0, 0) <==> Runs(states[0], m);
      assert forall k: nat :: k > 0 ==> !HeldFrom(origin, steps, states, m, k, 0) && !RunFrom(steps, states, m, k, 0);
    } else {
      var p := n - 1;
      HoldsIff(origin, steps, states, p, m);
      assert Goes(states[p], steps[p], states[n]);
      HasStep(states[p], steps[p], m);
      hide Do, Can, Has, Runs, GivesUp, Takes;
      forall k: nat ensures HeldFrom(origin, steps, states, m, k, n) <==>
        if k == n then Takes(states[p], steps[p], m) || steps[p] == Reclaiming(m) else HeldFrom(origin, steps, states, m, k, p) && !GivesUp(states[p], steps[p], m)
      {
      }
      forall k: nat ensures RunFrom(steps, states, m, k, n) <==>
        if k == n then steps[p] == Reclaiming(m) || (steps[p] == Starting(m) && Has(states[p], m))
        else RunFrom(steps, states, m, k, p) && !GivesUp(states[p], steps[p], m) && !Takes(states[p], steps[p], m)
      {
      }
      if k: nat :| HeldFrom(origin, steps, states, m, k, p) {
        assert HeldFrom(origin, steps, states, m, k, n) <==> !GivesUp(states[p], steps[p], m);
      }
      if k: nat :| RunFrom(steps, states, m, k, p) {
        assert RunFrom(steps, states, m, k, n) <==> !GivesUp(states[p], steps[p], m) && !Takes(states[p], steps[p], m);
      }
      assert HeldFrom(origin, steps, states, m, n, n) <==> Takes(states[p], steps[p], m) || steps[p] == Reclaiming(m);
      assert RunFrom(steps, states, m, n, n) <==> steps[p] == Reclaiming(m) || (steps[p] == Starting(m) && Has(states[p], m));
    }
  }

  /** The recipient's word that it has the grant reaches the giver. */
  predicate Acks(w: World, step: Step, m: nat) {
    step.Acking? && step.m == m && m in w.rows && step.grant.epoch == w.rows[m].epoch
  }

  /** The grant made at point `k` has been neither acknowledged nor overtaken by the task's return up to `n`. */
  predicate SendsFrom(steps: seq<Step>, states: seq<World>, m: nat, k: nat, n: nat)
    requires n <= |steps| < |states|
  {
    && 0 < k <= n && GivesUp(states[k - 1], steps[k - 1], m)
    && forall j :: k <= j < n ==> !Acks(states[j], steps[j], m) && !Takes(states[j], steps[j], m) && steps[j] != Reclaiming(m)
  }

  lemma {:induction false} SentStep(w: World, step: Step, m: nat)
    requires Can(w, step)
    ensures var row, after := Row(w, m), Row(Do(w, step), m);
            && (after.Some? && after.value.permit == Sent <==>
                  GivesUp(w, step, m) || (row.Some? && row.value.permit == Sent && !Acks(w, step, m) && !Takes(w, step, m) && step != Reclaiming(m)))
            && (row.Some? && row.value.permit == Sent && after.Some? && after.value.permit == Sent ==> after == row)
            && (GivesUp(w, step, m) ==> after == Some(Authority(w.rows[m].epoch + 1, Sent, Some(step.to))))
  {
  }

  /** In every run a grant is in its giver's outbox exactly from when it was made until it is acknowledged, or the task is had here again. */
  lemma {:induction false} OutboxIff(origin: nat, steps: seq<Step>, states: seq<World>, n: nat, m: nat)
    requires |states| > 0 && Starts(states[0], origin) && IsRun(states[0], steps, states) && n <= |steps|
    ensures (m in states[n].rows && states[n].rows[m].permit == Sent) <==> exists k: nat :: SendsFrom(steps, states, m, k, n)
    ensures forall k: nat :: SendsFrom(steps, states, m, k, n) ==>
              Row(states[n], m) == Some(Authority(states[k - 1].rows[m].epoch + 1, Sent, Some(steps[k - 1].to)))
  {
    if n > 0 {
      var p := n - 1;
      OutboxIff(origin, steps, states, p, m);
      assert Goes(states[p], steps[p], states[n]);
      SentStep(states[p], steps[p], m);
      hide Do, Can, Acks, Takes, Goes, IsRun;
      forall k: nat ensures SendsFrom(steps, states, m, k, n) <==>
        if k == n then GivesUp(states[p], steps[p], m)
        else SendsFrom(steps, states, m, k, p) && !Acks(states[p], steps[p], m) && !Takes(states[p], steps[p], m) && steps[p] != Reclaiming(m)
      {
      }
      if k: nat :| SendsFrom(steps, states, m, k, p) {
        assert SendsFrom(steps, states, m, k, n) <==> !Acks(states[p], steps[p], m) && !Takes(states[p], steps[p], m) && steps[p] != Reclaiming(m);
      }
      assert SendsFrom(steps, states, m, n, n) <==> GivesUp(states[p], steps[p], m);
    }
  }

  // One machine's rows, as they change in place

  datatype Task = Task(task: string, birth: string)

  class Shelf {
    var rows: map<Task, Authority>

    function RowOf(t: Task): Option<Authority>
      reads this
    {
      if t in rows then Some(rows[t]) else None
    }

    constructor ()
      ensures rows == map[]
    {
      rows := map[];
    }

    method HoldUnlessHeld(t: Task, permit: Permit)
      modifies this
      ensures rows == if t in old(rows) then old(rows) else old(rows)[t := Authority(0, permit, None)]
    {
      if t !in rows {
        rows := rows[t := Authority(0, permit, None)];
      }
    }

    method Starts(t: Task) returns (r: Result<(), Refusal>)
      modifies this
      ensures r == match Start(old(RowOf(t))) case Ok(_) => Ok(()) case Err(why) => Err(why)
      ensures rows == match Start(old(RowOf(t))) case Ok(a) => old(rows)[t := a] case Err(_) => old(rows)
    {
      if t !in rows {
        return Err(NeverGiven);
      }
      match rows[t].permit
      case Ready => rows := rows[t := Authority(rows[t].epoch, Running, None)]; r := Ok(());
      case Running => r := Ok(());
      case _ => r := Err(GivenAway(rows[t].to));
    }

    method Gives(t: Task, to: nat) returns (r: Result<Grant, Refusal>)
      modifies this
      ensures r == match Give(old(RowOf(t)), to) case Ok(a) => Ok(Grant(a.epoch, to)) case Err(why) => Err(why)
      ensures rows == match Give(old(RowOf(t)), to) case Ok(a) => old(rows)[t := a] case Err(_) => old(rows)
    {
      if t !in rows {
        return Err(NeverGiven);
      }
      match rows[t].permit
      case Ready =>
        var epoch := rows[t].epoch + 1;
        rows := rows[t := Authority(epoch, Sent, Some(to))];
        r := Ok(Grant(epoch, to));
      case Running => r := Err(Started);
      case _ => r := Err(GivenAway(rows[t].to));
    }

    method Hands(t: Task, to: nat) returns (r: Result<Grant, Refusal>)
      modifies this
      ensures r == match Hand(old(RowOf(t)), to) case Ok(a) => Ok(Grant(a.epoch, to)) case Err(why) => Err(why)
      ensures rows == match Hand(old(RowOf(t)), to) case Ok(a) => old(rows)[t := a] case Err(_) => old(rows)
    {
      if t !in rows {
        return Err(NeverGiven);
      }
      match rows[t].permit
      case Sent => r := Err(GivenAway(rows[t].to));
      case Acked => r := Err(GivenAway(rows[t].to));
      case _ =>
        var epoch := rows[t].epoch + 1;
        rows := rows[t := Authority(epoch, Sent, Some(to))];
        r := Ok(Grant(epoch, to));
    }

    method Receives(t: Task, epoch: nat) returns (taken: bool)
      modifies this
      ensures RowOf(t) == Receive(old(RowOf(t)), epoch) && rows - {t} == old(rows) - {t}
      ensures taken == (t in old(rows) ==> old(rows)[t].epoch < epoch)
    {
      if t in rows && rows[t].epoch >= epoch {
        return false;
      }
      rows := rows[t := Authority(epoch, Ready, None)];
      taken := true;
    }

    method Acks(t: Task, epoch: nat)
      modifies this
      ensures RowOf(t) == Ack(old(RowOf(t)), epoch) && rows - {t} == old(rows) - {t}
    {
      if t in rows && rows[t].permit == Sent && rows[t].epoch == epoch {
        rows := rows[t := rows[t].(permit := Acked)];
      }
    }

    /** Called with the epoch of the machine's own row, or zero. */
    method Reclaims(t: Task, epoch: nat)
      modifies this
      ensures rows == old(rows)[t := Authority(epoch, Running, None)]
    {
      rows := rows[t := Authority(epoch, Running, None)];
    }
  }
}
