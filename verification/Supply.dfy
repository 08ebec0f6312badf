/**
 Supplying agent accounts to the user's other machines. The source keeps a book with a
 version that each change raises; a loop sends the whole set to each peer that isn't
 marked as delivered at the current version. A call can be lost, its reply can be lost,
 and a call that was given up on can still arrive, in the order it was sent or late.
 */
module Supply {
  import opened Prelude

  datatype AgentName = ClaudeAgent | CodexAgent

  datatype Kind = ClaudeSubscription | ClaudeApiKey | CodexChatgpt | CodexApiKey {
    function Agent(): AgentName {
      if ClaudeSubscription? || ClaudeApiKey? then ClaudeAgent else CodexAgent
    }

    /** The login stays with its holder; only the holder's name is supplied. */
    predicate Held() {
      CodexChatgpt?
    }
  }

  /** An account as its owner's book lists it. Its secret is kept apart, by ID. */
  datatype Account = Account(id: nat, kind: Kind, holder: Option<string>)

  /** An account as it is supplied; a kind the receiver doesn't know is None. */
  datatype Supplied = Supplied(id: nat, kind: Option<Kind>, secret: Option<string>, holder: Option<string>)

  datatype Payload = Payload(version: Option<nat>, accounts: Option<seq<Supplied>>)

  /** What a machine keeps from one source. */
  datatype Kept = Kept(version: nat, accounts: seq<Supplied>)

  datatype Book = Book(version: nat, own: seq<Account>, delivered: map<string, nat>)

  datatype Which = ById(id: nat) | ByAgent(agent: AgentName) | ByKind(kind: Kind)

  // The operations on values

  function OfOtherAgent(kind: Kind): Account -> bool {
    (a: Account) => a.kind.Agent() != kind.Agent()
  }

  function Unlike(which: Which): Account -> bool {
    (a: Account) => match which
      case ById(id) => a.id != id
      case ByAgent(agent) => a.kind.Agent() != agent
      case ByKind(kind) => a.kind != kind
  }

  function AddTo(book: Book, id: nat, kind: Kind, me: string): Book {
    var account := Account(id, kind, if kind.Held() then Some(me) else None);
    book.(own := Filter(OfOtherAgent(kind), book.own) + [account], version := book.version + 1)
  }

  function RemoveFrom(book: Book, which: Which): Result<Book, string> {
    var kept := Filter(Unlike(which), book.own);
    if |kept| == |book.own| then Err("not_found")
    else Ok(book.(own := kept, version := book.version + 1))
  }

  /** The accounts to supply: an account whose secret can't be read is left out. */
  function SuppliedSet(own: seq<Account>, secrets: map<nat, string>): seq<Supplied> {
    if own == [] then []
    else
      var a := own[|own| - 1];
      SuppliedSet(own[..|own| - 1], secrets)
      + if a.kind.Held() then [Supplied(a.id, Some(a.kind), None, a.holder)]
        else if a.id in secrets then [Supplied(a.id, Some(a.kind), Some(secrets[a.id]), a.holder)]
        else []
  }

  function PayloadOf(book: Book, secrets: map<nat, string>): Payload {
    Payload(Some(book.version), Some(SuppliedSet(book.own, secrets)))
  }

  predicate Acceptable(a: Supplied) {
    a.kind.Some? && if a.kind.value.Held() then a.holder.Some? else a.secret.Some?
  }

  /** What a set that arrived leaves kept: an empty one forgets its source, version and all. */
  function Keep(version: nat, accounts: seq<Supplied>): Option<Kept> {
    if accounts == [] then None else Some(Kept(version, accounts))
  }

  function Received(kept: Option<Kept>, payload: Payload): Result<Option<Kept>, string> {
    if payload.version.None? || payload.accounts.None? then Err("bad_request")
    else if exists a <- payload.accounts.value :: !Acceptable(a) then Err("bad_request")
    else if kept.Some? && kept.value.version > payload.version.value then Ok(kept)
    else Ok(Keep(payload.version.value, payload.accounts.value))
  }

  /** Forgets the logins of accounts that are gone from the book. */
  function Forget(secrets: map<nat, string>, gone: set<nat>): map<nat, string> {
    secrets - gone
  }

  function Ids(accounts: seq<Account>): set<nat> {
    set a | a in accounts :: a.id
  }

  function OfAgent(kind: Kind): Account -> bool {
    (a: Account) => a.kind.Agent() == kind.Agent()
  }

  function Like(which: Which): Account -> bool {
    (a: Account) => !Unlike(which)(a)
  }

  /** The source's own side: the book and the secrets beside it. */
  datatype Source = Source(book: Book, secrets: map<nat, string>) {
    function ToSupply(): Payload {
      PayloadOf(book, secrets)
    }

    function Add(id: nat, kind: Kind, secret: string, me: string): Source {
      Source(AddTo(book, id, kind, me), Forget(secrets[id := secret], Ids(Filter(OfAgent(kind), book.own))))
    }

    function Remove(which: Which): Result<Source, string> {
      var r := RemoveFrom(book, which);
      if r.Err? then Err(r.error)
      else Ok(Source(r.value, Forget(secrets, Ids(Filter(Like(which), book.own)))))
    }

    function Delivered(peer: string, version: nat): Source {
      this.(book := book.(delivered := book.delivered[peer := version]))
    }

    predicate Owes(peer: string) {
      peer in book.delivered ==> book.delivered[peer] != book.version
    }
  }

  // The machine as it holds them

  class Accounts {
    var version: nat
    var own: seq<Account>
    var delivered: map<string, nat>
    var secrets: map<nat, string>
    var received: map<string, Kept>

    ghost function Now(): Source
      reads this
    {
      Source(Book(version, own, delivered), secrets)
    }

    constructor ()
      ensures Now() == Source(Book(0, [], map[]), map[]) && received == map[]
    {
      version, own, delivered, secrets, received := 0, [], map[], map[], map[];
    }

    /** `id` is the fresh ID drawn for the account; `valid` is what checking the secret's form said. */
    method Add(id: nat, kind: Kind, secret: string, valid: bool, me: string) returns (done: Result<seq<Account>, string>)
      modifies this`version, this`own, this`secrets
      ensures !valid ==> done.Err? && Now() == old(Now())
      ensures valid ==> done == Ok(Filter(OfAgent(kind), old(own))) && Now() == old(Now()).Add(id, kind, secret, me)
    {
      if !valid {
        return Err("bad_request");
      }
      secrets := secrets[id := secret];
      var kept, replaced := [], [];
      for i := 0 to |own|
        invariant kept == Filter(OfOtherAgent(kind), own[..i])
        invariant replaced == Filter(OfAgent(kind), own[..i])
      {
        assert own[..i + 1][..i] == own[..i];
        if own[i].kind.Agent() == kind.Agent() {
          replaced := replaced + [own[i]];
        } else {
          kept := kept + [own[i]];
        }
      }
      assert own[..|own|] == own;
      own := kept + [Account(id, kind, if kind.Held() then Some(me) else None)];
      version := version + 1;
      ForgetSecrets(replaced);
      done := Ok(replaced);
    }

    method ForgetSecrets(accounts: seq<Account>)
      modifies this`secrets
      ensures secrets == Forget(old(secrets), Ids(accounts))
    {
      for i := 0 to |accounts|
        invariant secrets == Forget(old(secrets), Ids(accounts[..i]))
      {
        assert accounts[..i + 1] == accounts[..i] + [accounts[i]];
        assert Ids(accounts[..i + 1]) == Ids(accounts[..i]) + {accounts[i].id};
        secrets := secrets - {accounts[i].id};
      }
      assert accounts[..|accounts|] == accounts;
    }

    method Remove(which: Which) returns (done: Result<seq<Account>, string>)
      modifies this`version, this`own, this`secrets
      ensures done.Err? <==> old(Now()).Remove(which).Err?
      ensures done.Err? ==> Now() == old(Now())
      ensures done.Ok? ==> done.value == Filter(Like(which), old(own)) && Now() == old(Now()).Remove(which).value
    {
      var kept, gone := [], [];
      for i := 0 to |own|
        invariant kept == Filter(Unlike(which), own[..i])
        invariant gone == Filter(Like(which), own[..i])
        invariant |kept| + |gone| == i
      {
        assert own[..i + 1][..i] == own[..i];
        if Unlike(which)(own[i]) {
          kept := kept + [own[i]];
        } else {
          gone := gone + [own[i]];
        }
      }
      assert own[..|own|] == own;
      if gone == [] {
        return Err("not_found");
      }
      own := kept;
      version := version + 1;
      ForgetSecrets(gone);
      done := Ok(gone);
    }

    method ReadPayload() returns (payload: Payload)
      ensures payload == Now().ToSupply()
    {
      var accounts := [];
      for i := 0 to |own|
        invariant accounts == SuppliedSet(own[..i], secrets)
      {
        assert own[..i + 1][..i] == own[..i];
        var a := own[i];
        if a.kind.Held() {
          accounts := accounts + [Supplied(a.id, Some(a.kind), None, a.holder)];
        } else if a.id in secrets {
          accounts := accounts + [Supplied(a.id, Some(a.kind), Some(secrets[a.id]), a.holder)];
        }
      }
      assert own[..|own|] == own;
      payload := Payload(Some(version), Some(accounts));
    }

    method Outbox(peers: set<string>) returns (owed: set<string>)
      ensures forall peer :: peer in owed <==> peer in peers && Now().Owes(peer)
    {
      owed := set peer | peer in peers && (peer in delivered ==> delivered[peer] != version);
    }

    method Delivered(peer: string, version: nat)
      modifies this`delivered
      ensures Now() == old(Now()).Delivered(peer, version)
    {
      delivered := delivered[peer := version];
    }

    ghost function From(source: string): Option<Kept>
      reads this
    {
      if source in received then Some(received[source]) else None
    }

    method Receive(source: string, payload: Payload) returns (done: bool)
      modifies this`received
      ensures var r := Received(old(From(source)), payload);
              done == r.Ok? && From(source) == if r.Ok? then r.value else old(From(source))
      ensures forall other :: other != source ==> From(other) == old(From(other))
    {
      if payload.version.None? || payload.accounts.None? {
        return false;
      }
      var accounts := payload.accounts.value;
      for i := 0 to |accounts|
        invariant forall k :: 0 <= k < i ==> Acceptable(accounts[k])
      {
        if !Acceptable(accounts[i]) {
          return false;
        }
      }
      if source in received && received[source].version > payload.version.value {
        return true;
      }
      if accounts == [] {
        received := received - {source};
      } else {
        received := received[source := Kept(payload.version.value, accounts)];
      }
      return true;
    }
  }

  // What every source keeps

  /** A held account names its holder; any other has its secret. */
  predicate SoundAccount(a: Account, secrets: map<nat, string>) {
    if a.kind.Held() then a.holder.Some? else a.id in secrets
  }

  /** No two accounts share an ID or an agent. */
  predicate Apart(own: seq<Account>) {
    forall i, j :: 0 <= i < j < |own| ==> own[i].id != own[j].id && own[i].kind.Agent() != own[j].kind.Agent()
  }

  predicate Sound(s: Source) {
    && Apart(s.book.own)
    && (forall a <- s.book.own :: SoundAccount(a, s.secrets))
    && forall peer <- s.book.delivered :: s.book.delivered[peer] <= s.book.version
  }

  lemma {:induction false} FilterKeepsApart(keep: Account -> bool, own: seq<Account>)
    requires Apart(own)
    ensures Apart(Filter(keep, own))
  {
    if own != [] {
      var most, last := own[..|own| - 1], own[|own| - 1];
      FilterKeepsApart(keep, most);
      FilterOnly(keep, most);
      var kept := Filter(keep, most);
      forall i | 0 <= i < |kept| ensures kept[i].id != last.id && kept[i].kind.Agent() != last.kind.Agent() {
        assert kept[i] in most;
      }
    }
  }

  lemma {:induction false} SameIdSame(own: seq<Account>, a: Account, b: Account)
    requires Apart(own) && a in own && b in own && a.id == b.id
    ensures a == b
  {
    var i :| 0 <= i < |own| && own[i] == a;
    var j :| 0 <= j < |own| && own[j] == b;
    assert !(i < j) && !(j < i);
  }

  lemma {:induction false} AddKeepsSound(s: Source, id: nat, kind: Kind, secret: string, me: string)
    requires Sound(s) && id !in Ids(s.book.own)
    ensures Sound(s.Add(id, kind, secret, me))
  {
    var own := s.book.own;
    var kept, replaced := Filter(OfOtherAgent(kind), own), Filter(OfAgent(kind), own);
    FilterKeepsApart(OfOtherAgent(kind), own);
    FilterOnly(OfOtherAgent(kind), own);
    FilterOnly(OfAgent(kind), own);
    forall i | 0 <= i < |kept|
      ensures kept[i].id != id && kept[i].kind.Agent() != kind.Agent() && kept[i].id !in Ids(replaced) && kept[i] in own
    {
      var a := kept[i];
      assert a in kept && a in own && a.id in Ids(own);
      if a.id in Ids(replaced) {
        var b :| b in replaced && b.id == a.id;
        SameIdSame(own, a, b);
      }
    }
    assert Ids(replaced) <= Ids(own);
  }

  lemma {:induction false} RemoveKeepsSound(s: Source, which: Which)
    requires Sound(s) && s.Remove(which).Ok?
    ensures Sound(s.Remove(which).value)
  {
    var own := s.book.own;
    var kept, gone := Filter(Unlike(which), own), Filter(Like(which), own);
    FilterKeepsApart(Unlike(which), own);
    FilterOnly(Unlike(which), own);
    FilterOnly(Like(which), own);
    forall i | 0 <= i < |kept| ensures kept[i].id !in Ids(gone) && kept[i] in own {
      var a := kept[i];
      assert a in kept && a in own;
      if a.id in Ids(gone) {
        var b :| b in gone && b.id == a.id;
        SameIdSame(own, a, b);
      }
    }
  }

  /** The receiver accepts whatever a sound source supplies. */
  lemma {:induction false} SuppliedAreAcceptable(own: seq<Account>, secrets: map<nat, string>)
    requires forall a <- own :: SoundAccount(a, secrets)
    ensures forall a <- SuppliedSet(own, secrets) :: Acceptable(a)
    ensures |SuppliedSet(own, secrets)| == |own|
  {
    if own != [] {
      var most := own[..|own| - 1];
      assert forall a <- most :: a in own;
      assert own[|own| - 1] in own;
      SuppliedAreAcceptable(most, secrets);
    }
  }

  // What a machine keeps of whatever it is sent

  /** The account can be used: its kind is known, and it has its login or, if it is held, its holder. */
  predicate Usable(a: Supplied) {
    match a.kind
    case None => false
    case Some(CodexChatgpt) => a.holder.Some?
    case Some(_) => a.secret.Some?
  }

  predicate WellFormed(payload: Payload) {
    payload.version.Some? && payload.accounts.Some? && forall a <- payload.accounts.value :: Usable(a)
  }

  /** A set is refused exactly when it has no version, no list, or an account that can't be used. */
  lemma {:induction false} RefusedIff(kept: Option<Kept>, payload: Payload)
    ensures Received(kept, payload).Err? <==> !WellFormed(payload)
  {
    forall a: Supplied ensures Acceptable(a) <==> Usable(a) {
    }
  }

  /** What is kept after these sets came from one source, whoever made them. */
  function KeptOf(payloads: seq<Payload>): Option<Kept> {
    if payloads == [] then None
    else
      var before := KeptOf(payloads[..|payloads| - 1]);
      var r := Received(before, payloads[|payloads| - 1]);
      if r.Ok? then r.value else before
  }

  /** The set at `i` was kept, and none that came later replaced or emptied it. */
  predicate LastOf(payloads: seq<Payload>, i: nat) {
    && i < |payloads| && WellFormed(payloads[i]) && payloads[i].accounts.value != []
    && forall j :: i < j < |payloads| && WellFormed(payloads[j]) ==> payloads[j].version.value < payloads[i].version.value
  }

  lemma {:induction false} LastOfMore(payloads: seq<Payload>, i: nat)
    requires payloads != []
    ensures var n := |payloads| - 1;
            LastOf(payloads, i) <==>
            if i == n then WellFormed(payloads[n]) && payloads[n].accounts.value != []
            else LastOf(payloads[..n], i) && (WellFormed(payloads[n]) ==> payloads[n].version.value < payloads[i].version.value)
  {
  }

  lemma {:induction false} NewestIsKept(payloads: seq<Payload>, k: nat)
    requires LastOf(payloads, k)
    ensures KeptOf(payloads).Some? && payloads[k].version.value <= KeptOf(payloads).value.version
  {
    var n := |payloads| - 1;
    LastOfMore(payloads, k);
    RefusedIff(KeptOf(payloads[..n]), payloads[n]);
    if k < n {
      NewestIsKept(payloads[..n], k);
    }
  }

  /**
   Whatever sets come from a source, well-formed or not and in whatever order of versions: what is kept
   is, of the sets with accounts that only older ones followed, the newest; and nothing, if there
   is none. So all of it can be used.
   */
  lemma {:induction false} KeptIsTheNewest(payloads: seq<Payload>) returns (i: nat)
    ensures KeptOf(payloads).Some? ==> LastOf(payloads, i) && KeptOf(payloads) == Some(Kept(payloads[i].version.value, payloads[i].accounts.value))
    ensures forall k: nat :: LastOf(payloads, k) ==> KeptOf(payloads).Some? && payloads[k].version.value <= KeptOf(payloads).value.version
  {
    i := 0;
    forall k: nat | LastOf(payloads, k) ensures KeptOf(payloads).Some? && payloads[k].version.value <= KeptOf(payloads).value.version {
      NewestIsKept(payloads, k);
    }
    if payloads != [] {
      var n := |payloads| - 1;
      var most := payloads[..n];
      var before := KeptOf(most);
      i := KeptIsTheNewest(most);
      RefusedIff(before, payloads[n]);
      LastOfMore(payloads, i);
      LastOfMore(payloads, n);
      if WellFormed(payloads[n]) && (before.None? || before.value.version <= payloads[n].version.value) {
        i := n;
      }
    }
  }

  // Runs

  /** A peer machine: what it keeps from the source, and the calls on their way, oldest first. */
  datatype Peer = Peer(kept: Option<Kept>, calls: seq<Payload>)

  datatype Stage = OnItsWay | Lost | Answered(ok: bool)

  /** The one call the supply loop is waiting for. */
  datatype Waiting = Waiting(peer: string, version: nat, stage: Stage)

  datatype World = World(source: Source, peers: map<string, Peer>, waiting: Option<Waiting>)

  datatype Step =
    | Add(id: nat, kind: Kind, secret: string, me: string)
    | Remove(which: Which)
    | Send(peer: string)
    | Arrive(peer: string, index: nat)
    | Lose(peer: string, index: nat)
    | Reply
    | GiveUp

  predicate Enabled(w: World, step: Step) {
    match step
    case Add(id, _, _, _) => id !in Ids(w.source.book.own)
    case Remove(_) => true
    case Send(peer) => w.waiting.None? && peer in w.peers && w.source.Owes(peer) && w.source.book.version != 0
    case Arrive(peer, index) => peer in w.peers && index < |w.peers[peer].calls|
    case Lose(peer, index) => peer in w.peers && index < |w.peers[peer].calls|
    case Reply => w.waiting.Some? && w.waiting.value.stage == Answered(true)
    case GiveUp => w.waiting.Some?
  }

  /** Where the awaited call stands once the call at `index` to `peer` is off the way. */
  function Off(waiting: Option<Waiting>, peer: string, last: bool, stage: Stage): Option<Waiting> {
    if waiting.Some? && waiting.value.peer == peer && waiting.value.stage.OnItsWay? && last
    then Some(waiting.value.(stage := stage)) else waiting
  }

  function Do(w: World, step: Step): World
    requires Enabled(w, step)
  {
    match step
    case Add(id, kind, secret, me) => w.(source := w.source.Add(id, kind, secret, me))
    case Remove(which) =>
      var r := w.source.Remove(which);
      if r.Ok? then w.(source := r.value) else w
    case Send(peer) =>
      var p := w.peers[peer];
      w.(peers := w.peers[peer := p.(calls := p.calls + [w.source.ToSupply()])],
         waiting := Some(Waiting(peer, w.source.book.version, OnItsWay)))
    case Arrive(peer, index) =>
      var p := w.peers[peer];
      var r := Received(p.kept, p.calls[index]);
      w.(peers := w.peers[peer := Peer(if r.Ok? then r.value else p.kept, Without(p.calls, index))],
         waiting := Off(w.waiting, peer, index == |p.calls| - 1, Answered(r.Ok?)))
    case Lose(peer, index) =>
      var p := w.peers[peer];
      w.(peers := w.peers[peer := p.(calls := Without(p.calls, index))],
         waiting := Off(w.waiting, peer, index == |p.calls| - 1, Lost))
    case Reply => w.(source := w.source.Delivered(w.waiting.value.peer, w.waiting.value.version), waiting := None)
    case GiveUp => w.(waiting := None)
  }

  function Start(peers: set<string>): World {
    World(Source(Book(0, [], map[]), map[]), map peer | peer in peers :: Peer(None, []), None)
  }

  /** The world after `steps`, if each could be taken. */
  function Run(peers: set<string>, steps: seq<Step>): Option<World> {
    if steps == [] then Some(Start(peers))
    else
      var before := Run(peers, steps[..|steps| - 1]);
      var step := steps[|steps| - 1];
      if before.Some? && Enabled(before.value, step) then Some(Do(before.value, step)) else None
  }

  /** Calls to a peer arrive in the order they were sent: only the oldest on its way can. */
  predicate InSendOrder(steps: seq<Step>) {
    forall step <- steps :: step.Arrive? ==> step.index == 0
  }

  // What every step keeps

  /** A payload the source sent at some version: now, if the version is still the current one. */
  predicate Sent(s: Source, call: Payload) {
    && call.version.Some? && call.accounts.Some? && call.version.value <= s.book.version
    && (forall a <- call.accounts.value :: Acceptable(a))
    && (call.version.value == s.book.version ==> call == s.ToSupply())
  }

  function Current(s: Source): Option<Kept> {
    Keep(s.book.version, SuppliedSet(s.book.own, s.secrets))
  }

  predicate InOrder(calls: seq<Payload>) {
    forall i, j :: 0 <= i < j < |calls| && calls[i].version.Some? && calls[j].version.Some? ==>
      calls[i].version.value <= calls[j].version.value
  }

  predicate KeptFits(s: Source, kept: Option<Kept>) {
    kept.Some? ==> kept.value.version <= s.book.version && (kept.value.version == s.book.version ==> kept == Current(s))
  }

  predicate NotAhead(kept: Option<Kept>, calls: seq<Payload>) {
    kept.Some? ==> forall call <- calls :: call.version.Some? ==> kept.value.version <= call.version.value
  }

  predicate PeerInv(s: Source, name: string, p: Peer) {
    && (forall call <- p.calls :: Sent(s, call))
    && InOrder(p.calls)
    && KeptFits(s, p.kept)
    && NotAhead(p.kept, p.calls)
    && (!s.Owes(name) ==> p.calls == [] && p.kept == Current(s))
  }

  predicate WaitingInv(s: Source, peers: map<string, Peer>, w: Waiting) {
    && w.peer in peers
    && w.version <= s.book.version
    && var p := peers[w.peer];
    && (w.stage.OnItsWay? ==> p.calls != [] && p.calls[|p.calls| - 1].version == Some(w.version))
    && (w.stage == Answered(true) ==> p.calls == [] && (w.version == s.book.version ==> p.kept == Current(s)))
  }

  predicate Inv(w: World) {
    && Sound(w.source)
    && (forall name <- w.peers :: PeerInv(w.source, name, w.peers[name]))
    && (w.waiting.Some? ==> WaitingInv(w.source, w.peers, w.waiting.value))
  }

  /** A change to the book makes every peer owed, and every call on its way out of date. */
  lemma {:induction false} ChangeKeepsPeer(s: Source, t: Source, name: string, p: Peer)
    requires Sound(s) && PeerInv(s, name, p)
    requires t.book.version == s.book.version + 1 && t.book.delivered == s.book.delivered
    ensures PeerInv(t, name, p)
  {
    forall call <- p.calls ensures Sent(t, call) {
      assert Sent(s, call);
    }
  }

  lemma {:induction false} ChangeKeepsInv(w: World, t: Source)
    requires Inv(w) && Sound(t)
    requires t.book.version == w.source.book.version + 1 && t.book.delivered == w.source.book.delivered
    ensures Inv(w.(source := t))
  {
    forall name <- w.peers ensures PeerInv(t, name, w.peers[name]) {
      ChangeKeepsPeer(w.source, t, name, w.peers[name]);
    }
  }

  lemma {:induction false} SendKeepsPeer(s: Source, name: string, p: Peer)
    requires Sound(s) && PeerInv(s, name, p) && s.Owes(name)
    ensures PeerInv(s, name, p.(calls := p.calls + [s.ToSupply()]))
  {
    SuppliedAreAcceptable(s.book.own, s.secrets);
    var calls := p.calls + [s.ToSupply()];
    forall call <- calls ensures Sent(s, call) {
      assert call in p.calls || call == s.ToSupply();
    }
    forall i, j | 0 <= i < j < |calls| && calls[i].version.Some? && calls[j].version.Some?
      ensures calls[i].version.value <= calls[j].version.value
    {
      assert Sent(s, calls[i]);
    }
  }

  lemma {:induction false} ArriveKeepsPeer(s: Source, name: string, p: Peer)
    requires Sound(s) && PeerInv(s, name, p) && p.calls != []
    ensures Received(p.kept, p.calls[0]).Ok?
    ensures var kept := Received(p.kept, p.calls[0]).value;
            && PeerInv(s, name, Peer(kept, p.calls[1..]))
            && kept == Keep(p.calls[0].version.value, p.calls[0].accounts.value)
  {
    var call := p.calls[0];
    assert call in p.calls && Sent(s, call);
    var rest := p.calls[1..];
    forall c <- rest ensures Sent(s, c) && call.version.value <= c.version.value {
      assert c in p.calls && Sent(s, c);
      var j :| 0 <= j < |rest| && rest[j] == c;
      assert p.calls[j + 1] == c;
    }
    var kept := Received(p.kept, call).value;
    assert InOrder(rest);
    assert NotAhead(kept, rest);
    assert KeptFits(s, kept);
  }

  lemma {:induction false} LoseKeepsPeer(s: Source, name: string, p: Peer, index: nat)
    requires PeerInv(s, name, p) && index < |p.calls|
    ensures PeerInv(s, name, p.(calls := Without(p.calls, index)))
  {
    var calls := Without(p.calls, index);
    forall c <- calls ensures c in p.calls {
    }
    assert InOrder(calls);
  }

  lemma {:induction false} ReplyKeepsPeer(s: Source, name: string, p: Peer, peer: string, version: nat)
    requires PeerInv(s, name, p)
    requires name == peer ==> p.calls == [] && (version == s.book.version ==> p.kept == Current(s))
    ensures PeerInv(s.Delivered(peer, version), name, p)
  {
    forall call <- p.calls ensures Sent(s.Delivered(peer, version), call) {
      assert Sent(s, call);
    }
  }

  lemma {:induction false} ReplyKeepsInv(w: World)
    requires Inv(w) && Enabled(w, Reply)
    ensures Inv(Do(w, Reply))
  {
    var v := w.waiting.value;
    forall name <- w.peers ensures PeerInv(w.source.Delivered(v.peer, v.version), name, w.peers[name]) {
      ReplyKeepsPeer(w.source, name, w.peers[name], v.peer, v.version);
    }
  }

  /** A step that only touches one peer and the awaited call. */
  lemma {:induction false} OnePeerKeepsInv(w: World, name: string, p: Peer, waiting: Option<Waiting>)
    requires Inv(w) && PeerInv(w.source, name, p) && name in w.peers
    requires waiting.Some? ==> WaitingInv(w.source, w.peers[name := p], waiting.value)
    ensures Inv(w.(peers := w.peers[name := p], waiting := waiting))
  {
  }

  lemma {:induction false} SendKeepsInv(w: World, peer: string)
    requires Inv(w) && Enabled(w, Send(peer))
    ensures Inv(Do(w, Send(peer)))
  {
    var p := w.peers[peer];
    SendKeepsPeer(w.source, peer, p);
    OnePeerKeepsInv(w, peer, p.(calls := p.calls + [w.source.ToSupply()]), Some(Waiting(peer, w.source.book.version, OnItsWay)));
  }

  lemma {:induction false} ArrivedIsAwaited(s: Source, peers: map<string, Peer>, waiting: Option<Waiting>, peer: string, kept: Option<Kept>)
    requires peer in peers && peers[peer].calls != []
    requires waiting.Some? ==> WaitingInv(s, peers, waiting.value)
    requires |peers[peer].calls| == 1 && peers[peer].calls[0].version == Some(s.book.version) ==> kept == Current(s)
    ensures var off := Off(waiting, peer, |peers[peer].calls| == 1, Answered(true));
            off.Some? ==> WaitingInv(s, peers[peer := Peer(kept, peers[peer].calls[1..])], off.value)
  {
  }

  lemma {:induction false} ArriveKeepsInv(w: World, peer: string)
    requires Inv(w) && Enabled(w, Arrive(peer, 0))
    ensures Inv(Do(w, Arrive(peer, 0)))
  {
    var p := w.peers[peer];
    assert PeerInv(w.source, peer, p);
    ArriveKeepsPeer(w.source, peer, p);
    var call := p.calls[0];
    assert call in p.calls && Sent(w.source, call);
    assert Without(p.calls, 0) == p.calls[1..];
    var kept := Received(p.kept, call).value;
    ArrivedIsAwaited(w.source, w.peers, w.waiting, peer, kept);
    OnePeerKeepsInv(w, peer, Peer(kept, p.calls[1..]), Off(w.waiting, peer, |p.calls| == 1, Answered(true)));
    hide Inv, PeerInv, WaitingInv, Received, Off, Sent;
  }

  lemma {:induction false} LoseKeepsInv(w: World, peer: string, index: nat)
    requires Inv(w) && Enabled(w, Lose(peer, index))
    ensures Inv(Do(w, Lose(peer, index)))
  {
    var p := w.peers[peer];
    LoseKeepsPeer(w.source, peer, p, index);
    OnePeerKeepsInv(w, peer, p.(calls := Without(p.calls, index)), Off(w.waiting, peer, index == |p.calls| - 1, Lost));
  }

  lemma {:induction false} StepKeepsInv(w: World, step: Step)
    requires Inv(w) && Enabled(w, step) && (step.Arrive? ==> step.index == 0)
    ensures Inv(Do(w, step))
  {
    var s := w.source;
    match step {
      case Add(id, kind, secret, me) =>
        AddKeepsSound(s, id, kind, secret, me);
        ChangeKeepsInv(w, s.Add(id, kind, secret, me));
      case Remove(which) =>
        if s.Remove(which).Ok? {
          RemoveKeepsSound(s, which);
          ChangeKeepsInv(w, s.Remove(which).value);
        }
      case Send(peer) =>
        SendKeepsInv(w, peer);
      case Arrive(peer, _) =>
        ArriveKeepsInv(w, peer);
      case Lose(peer, index) =>
        LoseKeepsInv(w, peer, index);
      case Reply =>
        ReplyKeepsInv(w);
      case GiveUp =>
    }
  }

  lemma {:induction false} RunKeepsInv(peers: set<string>, steps: seq<Step>)
    requires InSendOrder(steps)
    ensures Run(peers, steps).Some? ==> Inv(Run(peers, steps).value)
  {
    if steps != [] {
      var before := Run(peers, steps[..|steps| - 1]);
      var step := steps[|steps| - 1];
      assert step in steps && forall earlier <- steps[..|steps| - 1] :: earlier in steps;
      RunKeepsInv(peers, steps[..|steps| - 1]);
      if before.Some? && Enabled(before.value, step) {
        StepKeepsInv(before.value, step);
      }
    }
  }

  // What every step keeps in whatever order calls arrive

  predicate PeerFits(s: Source, p: Peer) {
    (forall call <- p.calls :: Sent(s, call)) && KeptFits(s, p.kept)
  }

  predicate WaitingFits(s: Source, peers: map<string, Peer>, w: Waiting) {
    && w.peer in peers && w.version <= s.book.version
    && var calls := peers[w.peer].calls;
       w.stage.OnItsWay? ==> calls != [] && calls[|calls| - 1].version == Some(w.version)
  }

  predicate Fits(w: World) {
    && Sound(w.source)
    && (forall name <- w.peers :: PeerFits(w.source, w.peers[name]))
    && (w.waiting.Some? ==> WaitingFits(w.source, w.peers, w.waiting.value))
  }

  lemma {:induction false} ChangeFits(w: World, t: Source)
    requires Fits(w) && Sound(t)
    requires t.book.version == w.source.book.version + 1
    ensures Fits(w.(source := t))
  {
    forall name <- w.peers ensures PeerFits(t, w.peers[name]) {
      assert PeerFits(w.source, w.peers[name]);
      forall call <- w.peers[name].calls ensures Sent(t, call) {
        assert Sent(w.source, call);
      }
    }
  }

  lemma {:induction false} OnePeerFits(w: World, name: string, p: Peer, waiting: Option<Waiting>)
    requires Fits(w) && PeerFits(w.source, p) && name in w.peers
    requires waiting.Some? ==> WaitingFits(w.source, w.peers[name := p], waiting.value)
    ensures Fits(w.(peers := w.peers[name := p], waiting := waiting))
  {
  }

  lemma {:induction false} SendFits(w: World, peer: string)
    requires Fits(w) && Enabled(w, Send(peer))
    ensures Fits(Do(w, Send(peer)))
  {
    var p := w.peers[peer];
    SuppliedAreAcceptable(w.source.book.own, w.source.secrets);
    var calls := p.calls + [w.source.ToSupply()];
    assert PeerFits(w.source, p);
    forall call <- calls ensures Sent(w.source, call) {
      assert call in p.calls || call == w.source.ToSupply();
    }
    OnePeerFits(w, peer, p.(calls := calls), Some(Waiting(peer, w.source.book.version, OnItsWay)));
  }

  lemma {:induction false} StillAwaited(s: Source, peers: map<string, Peer>, waiting: Option<Waiting>, peer: string, kept: Option<Kept>, index: nat, stage: Stage)
    requires peer in peers && index < |peers[peer].calls| && !stage.OnItsWay?
    requires waiting.Some? ==> WaitingFits(s, peers, waiting.value)
    ensures var off := Off(waiting, peer, index == |peers[peer].calls| - 1, stage);
            off.Some? ==> WaitingFits(s, peers[peer := Peer(kept, Without(peers[peer].calls, index))], off.value)
  {
  }

  /** A call that arrives is accepted, and applied unless a newer set is kept. */
  lemma {:induction false} Applied(s: Source, p: Peer, index: nat)
    requires PeerFits(s, p) && index < |p.calls|
    ensures var call := p.calls[index];
            && Sent(s, call) && Received(p.kept, call).Ok?
            && Received(p.kept, call).value ==
               (if p.kept.Some? && p.kept.value.version > call.version.value then p.kept else Keep(call.version.value, call.accounts.value))
            && KeptFits(s, Received(p.kept, call).value)
  {
    assert p.calls[index] in p.calls;
  }

  lemma {:induction false} OffTheWayFits(w: World, peer: string, index: nat, kept: Option<Kept>, stage: Stage)
    requires Fits(w) && peer in w.peers && index < |w.peers[peer].calls| && KeptFits(w.source, kept) && !stage.OnItsWay?
    ensures var p := w.peers[peer];
            Fits(w.(peers := w.peers[peer := Peer(kept, Without(p.calls, index))], waiting := Off(w.waiting, peer, index == |p.calls| - 1, stage)))
  {
    var p := w.peers[peer];
    var calls := Without(p.calls, index);
    assert PeerFits(w.source, p);
    forall call <- calls ensures Sent(w.source, call) {
      assert call in p.calls;
    }
    StillAwaited(w.source, w.peers, w.waiting, peer, kept, index, stage);
    OnePeerFits(w, peer, Peer(kept, calls), Off(w.waiting, peer, index == |p.calls| - 1, stage));
  }

  lemma {:induction false} ReplyFits(w: World)
    requires Fits(w) && Enabled(w, Reply)
    ensures Fits(Do(w, Reply))
  {
    var v := w.waiting.value;
    var t := w.source.Delivered(v.peer, v.version);
    forall name <- w.peers ensures PeerFits(t, w.peers[name]) {
      assert PeerFits(w.source, w.peers[name]);
      forall call <- w.peers[name].calls ensures Sent(t, call) {
        assert Sent(w.source, call);
      }
    }
  }

  lemma {:induction false} StepFits(w: World, step: Step)
    requires Fits(w) && Enabled(w, step)
    ensures Fits(Do(w, step))
  {
    var s := w.source;
    match step {
      case Add(id, kind, secret, me) =>
        AddKeepsSound(s, id, kind, secret, me);
        ChangeFits(w, s.Add(id, kind, secret, me));
      case Remove(which) =>
        if s.Remove(which).Ok? {
          RemoveKeepsSound(s, which);
          ChangeFits(w, s.Remove(which).value);
        }
      case Send(peer) =>
        SendFits(w, peer);
      case Arrive(peer, index) =>
        assert PeerFits(s, w.peers[peer]);
        Applied(s, w.peers[peer], index);
        OffTheWayFits(w, peer, index, Received(w.peers[peer].kept, w.peers[peer].calls[index]).value, Answered(true));
      case Lose(peer, index) =>
        assert PeerFits(s, w.peers[peer]);
        OffTheWayFits(w, peer, index, w.peers[peer].kept, Lost);
      case Reply =>
        ReplyFits(w);
      case GiveUp =>
    }
  }

  lemma {:induction false} RunFits(peers: set<string>, steps: seq<Step>)
    ensures Run(peers, steps).Some? ==> Fits(Run(peers, steps).value)
  {
    if steps != [] {
      RunFits(peers, steps[..|steps| - 1]);
      var before := Run(peers, steps[..|steps| - 1]);
      var step := steps[|steps| - 1];
      if before.Some? && Enabled(before.value, step) {
        StepFits(before.value, step);
      }
    }
  }

  // Main results

  /** Where calls arrive in the order they were sent, a peer marked as delivered at the current version keeps exactly the current payload. */
  lemma {:induction false} DeliveredMeansKept(peers: set<string>, steps: seq<Step>, peer: string)
    requires Run(peers, steps).Some? && InSendOrder(steps)
    requires var w := Run(peers, steps).value;
             peer in w.peers && peer in w.source.book.delivered && w.source.book.delivered[peer] == w.source.book.version
    ensures var w := Run(peers, steps).value;
            && w.peers[peer].kept == Keep(w.source.ToSupply().version.value, w.source.ToSupply().accounts.value)
            && w.peers[peer].calls == []
  {
    RunKeepsInv(peers, steps);
    var w := Run(peers, steps).value;
    assert PeerInv(w.source, peer, w.peers[peer]);
  }

  /** In whatever order calls arrive, none the source supplies is ever refused, and no account is left out of it. */
  lemma {:induction false} EveryCallIsAccepted(peers: set<string>, steps: seq<Step>, peer: string, index: nat)
    requires Run(peers, steps).Some?
    requires var w := Run(peers, steps).value; peer in w.peers && index < |w.peers[peer].calls|
    ensures var w := Run(peers, steps).value;
            Received(w.peers[peer].kept, w.peers[peer].calls[index]).Ok?
    ensures var w := Run(peers, steps).value; |w.source.ToSupply().accounts.value| == |w.source.book.own|
  {
    RunFits(peers, steps);
    var w := Run(peers, steps).value;
    assert PeerFits(w.source, w.peers[peer]);
    Applied(w.source, w.peers[peer], index);
    SuppliedAreAcceptable(w.source.book.own, w.source.secrets);
  }

  /** At most one account per agent. */
  lemma {:induction false} OneAccountPerAgent(peers: set<string>, steps: seq<Step>)
    requires Run(peers, steps).Some?
    ensures Apart(Run(peers, steps).value.source.book.own)
  {
    RunFits(peers, steps);
  }

  function Arrivals(peer: string, n: nat): seq<Step> {
    seq(n, _ => Arrive(peer, 0))
  }

  lemma {:induction false} Extend(peers: set<string>, steps: seq<Step>, w: World, step: Step) returns (longer: seq<Step>)
    requires Run(peers, steps) == Some(w) && Enabled(w, step)
    ensures longer == steps + [step] && Run(peers, longer) == Some(Do(w, step))
  {
    longer := steps + [step];
    assert longer[..|longer| - 1] == steps;
  }

  lemma {:induction false} DrainStep(w: World, peer: string)
    requires Fits(w) && peer in w.peers && w.peers[peer].calls != []
    requires w.waiting == Some(Waiting(peer, w.source.book.version, OnItsWay))
    ensures var next := Do(w, Arrive(peer, 0));
            && next.source == w.source && peer in next.peers && |next.peers[peer].calls| == |w.peers[peer].calls| - 1
            && (|w.peers[peer].calls| > 1 ==> next.waiting == w.waiting)
            && (|w.peers[peer].calls| == 1 ==>
                  next.waiting == Some(Waiting(peer, w.source.book.version, Answered(true))) && next.peers[peer] == Peer(Current(w.source), []))
  {
    assert PeerFits(w.source, w.peers[peer]);
    Applied(w.source, w.peers[peer], 0);
    assert |w.peers[peer].calls| == 1 ==> Without(w.peers[peer].calls, 0) == [];
  }

  lemma {:induction false} DrainedPeer(peers: set<string>, steps: seq<Step>, peer: string, n: nat)
    requires Run(peers, steps).Some? && peer in Run(peers, steps).value.peers
    requires n == |Run(peers, steps).value.peers[peer].calls| > 0
    requires Run(peers, steps).value.waiting == Some(Waiting(peer, Run(peers, steps).value.source.book.version, OnItsWay))
    ensures var after := Run(peers, steps + Arrivals(peer, n));
            var w := Run(peers, steps).value;
            && after.Some? && after.value.source == w.source && peer in after.value.peers
            && after.value.waiting == Some(Waiting(peer, w.source.book.version, Answered(true)))
            && after.value.peers[peer] == Peer(Current(w.source), [])
    decreases n
  {
    var w := Run(peers, steps).value;
    RunFits(peers, steps);
    DrainStep(w, peer);
    var more := Extend(peers, steps, w, Arrive(peer, 0));
    hide Do, Fits, Current;
    if n == 1 {
      assert steps + Arrivals(peer, n) == more;
    } else {
      DrainedPeer(peers, more, peer, n - 1);
      assert more + Arrivals(peer, n - 1) == steps + Arrivals(peer, n);
    }
  }

  /** However a run went, one call whose reply comes back marks the peer as delivered, and the mark is true. */
  lemma {:induction false} OneAnsweredCallCatchesUp(peers: set<string>, steps: seq<Step>, peer: string)
    requires Run(peers, steps).Some? && Enabled(Run(peers, steps).value, Send(peer))
    ensures var w := Run(peers, steps).value;
            var more := steps + [Send(peer)] + Arrivals(peer, |w.peers[peer].calls| + 1) + [Reply];
            var after := Run(peers, more);
            && after.Some? && peer in after.value.peers && !after.value.source.Owes(peer)
            && after.value.source == w.source.Delivered(peer, w.source.book.version)
            && after.value.peers[peer].kept == Current(w.source)
  {
    var w := Run(peers, steps).value;
    var n := |w.peers[peer].calls| + 1;
    var sent := Extend(peers, steps, w, Send(peer));
    DrainedPeer(peers, sent, peer, n);
    var drained := sent + Arrivals(peer, n);
    var more := Extend(peers, drained, Run(peers, drained).value, Reply);
  }

  // Calls that arrive late

  predicate Goes(w: World, step: Step, next: World) {
    Enabled(w, step) && next == Do(w, step)
  }

  /** The states a run goes through, before each step and after the last. */
  predicate IsTrace(peers: set<string>, steps: seq<Step>, states: seq<World>) {
    && |states| == |steps| + 1
    && states[0] == Start(peers)
    && forall n :: 0 <= n < |steps| ==> Goes(states[n], steps[n], states[n + 1])
  }

  lemma {:induction false} TraceFits(peers: set<string>, steps: seq<Step>, states: seq<World>, n: nat)
    requires IsTrace(peers, steps, states) && n <= |steps|
    ensures Fits(states[n]) && states[n].peers.Keys == peers
  {
    if n > 0 {
      TraceFits(peers, steps, states, n - 1);
      assert Goes(states[n - 1], steps[n - 1], states[n]);
      StepFits(states[n - 1], steps[n - 1]);
    }
  }

  // Which accounts the book holds, and what is supplied of them

  /** The account as the step adds it to the book. */
  function AccountBy(step: Step): Account
    requires step.Add?
  {
    Account(step.id, step.kind, if step.kind.Held() then Some(step.me) else None)
  }

  /** The account as other machines get to see it: a held one without its login, any other with the one it was added with. */
  function SuppliedBy(step: Step): Supplied
    requires step.Add?
  {
    Supplied(step.id, Some(step.kind), if step.kind.Held() then None else Some(step.secret), if step.kind.Held() then Some(step.me) else None)
  }

  /** The step replaces the account by another of its agent, or removes it. */
  predicate Ends(step: Step, a: Account) {
    match step
    case Add(_, kind, _, _) => kind.Agent() == a.kind.Agent()
    case Remove(ById(id)) => a.id == id
    case Remove(ByAgent(agent)) => a.kind.Agent() == agent
    case Remove(ByKind(kind)) => a.kind == kind
    case _ => false
  }

  /** The account was added at step `i`, and nothing up to step `n` has ended it. */
  predicate Lives(steps: seq<Step>, n: nat, i: nat, a: Account)
    requires n <= |steps|
  {
    i < n && steps[i].Add? && a == AccountBy(steps[i]) && forall j :: i < j < n ==> !Ends(steps[j], a)
  }

  ghost predicate Alive(steps: seq<Step>, n: nat, a: Account)
    requires n <= |steps|
  {
    exists i: nat :: Lives(steps, n, i, a)
  }

  /** The login beside the book is the one that the account was added with. */
  ghost predicate LoginsFit(steps: seq<Step>, n: nat, secrets: map<nat, string>)
    requires n <= |steps|
  {
    forall i: nat, a :: Lives(steps, n, i, a) ==> a.id in secrets && secrets[a.id] == steps[i].secret
  }

  lemma {:induction false} FilteredIff(keep: Account -> bool, own: seq<Account>, a: Account)
    ensures a in Filter(keep, own) <==> a in own && keep(a)
  {
    FilterOnly(keep, own);
    if a in own && keep(a) {
      FilterKeeps(keep, own, a);
    }
  }

  /** A step keeps the accounts it doesn't end, with their logins, and adds its own. */
  lemma {:induction false} OwnStep(w: World, step: Step, next: World, a: Account)
    requires Goes(w, step, next) && Sound(w.source)
    ensures a in next.source.book.own <==> (a in w.source.book.own && !Ends(step, a)) || (step.Add? && a == AccountBy(step))
    ensures a in w.source.book.own && a in next.source.book.own && a.id in w.source.secrets ==>
              a.id in next.source.secrets && next.source.secrets[a.id] == w.source.secrets[a.id]
    ensures step.Add? ==> step.id in next.source.secrets && next.source.secrets[step.id] == step.secret && AccountBy(step) !in w.source.book.own
  {
    var own := w.source.book.own;
    match step
    case Add(id, kind, secret, me) =>
      FilteredIff(OfOtherAgent(kind), own, a);
      FilterOnly(OfAgent(kind), own);
      var gone := Ids(Filter(OfAgent(kind), own));
      assert forall x <- own :: x.id in Ids(own);
      assert a in own && a.id in gone ==> Ends(step, a) by {
        if a in own && a.id in gone {
          var b :| b in Filter(OfAgent(kind), own) && b.id == a.id;
          SameIdSame(own, a, b);
        }
      }
    case Remove(which) =>
      FilteredIff(Unlike(which), own, a);
      FilterOnly(Like(which), own);
      var gone := Ids(Filter(Like(which), own));
      assert a in own && a.id in gone ==> Ends(step, a) by {
        if a in own && a.id in gone {
          var b :| b in Filter(Like(which), own) && b.id == a.id;
          SameIdSame(own, a, b);
        }
      }
      if |Filter(Unlike(which), own)| == |own| {
        NothingFiltered(Unlike(which), own);
      }
    case _ =>
  }

  lemma {:induction false} NothingFiltered(keep: Account -> bool, own: seq<Account>)
    ensures |Filter(keep, own)| <= |own|
    ensures |Filter(keep, own)| == |own| ==> forall a <- own :: keep(a)
  {
    if own != [] {
      NothingFiltered(keep, own[..|own| - 1]);
    }
  }

  lemma {:induction false} LivesOneMore(steps: seq<Step>, n: nat, i: nat, a: Account)
    requires n < |steps|
    ensures Lives(steps, n + 1, i, a) <==> if i == n then steps[n].Add? && a == AccountBy(steps[n]) else Lives(steps, n, i, a) && !Ends(steps[n], a)
  {
  }

  lemma {:induction false} AliveOneMore(steps: seq<Step>, n: nat, a: Account)
    requires n < |steps|
    ensures Alive(steps, n + 1, a) <==> (Alive(steps, n, a) && !Ends(steps[n], a)) || (steps[n].Add? && a == AccountBy(steps[n]))
  {
    hide Lives, Ends;
    if Alive(steps, n + 1, a) {
      var i: nat :| Lives(steps, n + 1, i, a);
      LivesOneMore(steps, n, i, a);
    }
    if Alive(steps, n, a) {
      var i: nat :| Lives(steps, n, i, a);
      LivesBefore(steps, n, i, a);
      LivesOneMore(steps, n, i, a);
    }
    if steps[n].Add? {
      LivesOneMore(steps, n, n, AccountBy(steps[n]));
    }
  }

  lemma {:induction false} LivesBefore(steps: seq<Step>, n: nat, i: nat, a: Account)
    requires n <= |steps| && Lives(steps, n, i, a)
    ensures i < n
  {
  }

  lemma {:induction false} BookAt(peers: set<string>, steps: seq<Step>, states: seq<World>, n: nat)
    requires IsTrace(peers, steps, states) && n <= |steps|
    ensures forall a :: a in states[n].source.book.own <==> Alive(steps, n, a)
    ensures LoginsFit(steps, n, states[n].source.secrets)
  {
    if n > 0 {
      BookAt(peers, steps, states, n - 1);
      TraceFits(peers, steps, states, n - 1);
      var w, step, next := states[n - 1], steps[n - 1], states[n];
      assert Goes(w, step, next);
      hide Goes, IsTrace, Ends, Sound, Lives;
      forall a ensures a in next.source.book.own <==> Alive(steps, n, a) {
        OwnStep(w, step, next, a);
        AliveOneMore(steps, n - 1, a);
      }
      forall i: nat, a | Lives(steps, n, i, a) ensures a.id in next.source.secrets && next.source.secrets[a.id] == steps[i].secret {
        LivesOneMore(steps, n - 1, i, a);
        OwnStep(w, step, next, a);
        if i < n - 1 {
          assert Alive(steps, n - 1, a);
        }
      }
    }
  }

  /**
   In every run the book holds exactly the accounts that were added and neither replaced by
   another of their agent nor removed since.
   */
  lemma {:induction false} BookHoldsWhatWasAdded(peers: set<string>, steps: seq<Step>, states: seq<World>, n: nat, a: Account)
    requires IsTrace(peers, steps, states) && n <= |steps|
    ensures a in states[n].source.book.own <==> exists i: nat :: Lives(steps, n, i, a)
  {
    BookAt(peers, steps, states, n);
    assert Alive(steps, n, a) <==> exists i: nat :: Lives(steps, n, i, a);
  }

  /** A login is kept for the accounts of the book and for no other. */
  predicate OnlyOwnLogins(s: Source) {
    s.secrets.Keys == Ids(s.book.own)
  }

  lemma {:induction false} IdsIff(own: seq<Account>, id: nat)
    ensures id in Ids(own) <==> exists a :: a in own && a.id == id
  {
  }

  lemma {:induction false} IdsInParts(own: seq<Account>, keep: Account -> bool, gone: Account -> bool)
    requires Apart(own) && forall a :: keep(a) <==> !gone(a)
    ensures Ids(own) - Ids(Filter(gone, own)) == Ids(Filter(keep, own))
  {
    forall id ensures id in Ids(own) - Ids(Filter(gone, own)) <==> id in Ids(Filter(keep, own)) {
      IdsIff(own, id);
      IdsIff(Filter(keep, own), id);
      IdsIff(Filter(gone, own), id);
      if a: Account :| a in own && a.id == id {
        FilteredIff(keep, own, a);
        FilteredIff(gone, own, a);
        forall b: Account | b.id == id && (b in Filter(keep, own) || b in Filter(gone, own)) ensures b == a {
          FilteredIff(keep, own, b);
          FilteredIff(gone, own, b);
          SameIdSame(own, a, b);
        }
      } else {
        FilterOnly(keep, own);
      }
    }
  }

  lemma {:induction false} IdsMore(own: seq<Account>, a: Account)
    ensures Ids(own + [a]) == Ids(own) + {a.id}
  {
    assert forall x :: x in own + [a] <==> x in own || x == a;
  }

  lemma {:induction false} LoginsStep(w: World, step: Step, next: World)
    requires Goes(w, step, next) && Sound(w.source) && OnlyOwnLogins(w.source)
    ensures OnlyOwnLogins(next.source)
  {
    var own := w.source.book.own;
    match step
    case Add(id, kind, secret, me) =>
      IdsInParts(own, OfOtherAgent(kind), OfAgent(kind));
      IdsMore(Filter(OfOtherAgent(kind), own), AccountBy(step));
      FilterOnly(OfAgent(kind), own);
      assert id !in Ids(Filter(OfAgent(kind), own)) by {
        IdsIff(Filter(OfAgent(kind), own), id);
        IdsIff(own, id);
      }
      hide Filter, Ids, Sound;
    case Remove(which) =>
      IdsInParts(own, Unlike(which), Like(which));
      hide Filter, Ids, Sound;
    case _ =>
  }

  /** In every run the logins kept are those of the accounts in the book: what is replaced or removed is forgotten. */
  lemma {:induction false} LoginsAreForgotten(peers: set<string>, steps: seq<Step>, states: seq<World>, n: nat)
    requires IsTrace(peers, steps, states) && n <= |steps|
    ensures OnlyOwnLogins(states[n].source)
  {
    if n > 0 {
      LoginsAreForgotten(peers, steps, states, n - 1);
      TraceFits(peers, steps, states, n - 1);
      assert Goes(states[n - 1], steps[n - 1], states[n]);
      LoginsStep(states[n - 1], steps[n - 1], states[n]);
    }
  }

  /** Of a sound source's accounts each is supplied, in its place, with its login exactly when its kind isn't held. */
  lemma {:induction false} SuppliedByIndex(own: seq<Account>, secrets: map<nat, string>)
    requires forall a <- own :: SoundAccount(a, secrets)
    ensures |SuppliedSet(own, secrets)| == |own|
    ensures forall i :: 0 <= i < |own| ==>
              own[i].kind.Held() || own[i].id in secrets
    ensures forall i :: 0 <= i < |own| ==>
              SuppliedSet(own, secrets)[i] == Supplied(own[i].id, Some(own[i].kind), if own[i].kind.Held() then None else Some(secrets[own[i].id]), own[i].holder)
  {
    if own != [] {
      var most := own[..|own| - 1];
      assert forall a <- most :: a in own;
      assert own[|own| - 1] in own;
      SuppliedByIndex(most, secrets);
      assert forall i :: 0 <= i < |most| ==> own[i] == most[i];
    }
  }

  ghost predicate CameFrom(steps: seq<Step>, n: nat, a: Supplied)
    requires n <= |steps|
  {
    exists i: nat :: i < n && steps[i].Add? && a == SuppliedBy(steps[i])
  }

  ghost predicate AllCame(steps: seq<Step>, n: nat, accounts: seq<Supplied>)
    requires n <= |steps|
  {
    forall a <- accounts :: CameFrom(steps, n, a)
  }

  ghost predicate PeerCame(steps: seq<Step>, n: nat, p: Peer)
    requires n <= |steps|
  {
    && (p.kept.Some? ==> AllCame(steps, n, p.kept.value.accounts))
    && forall call <- p.calls :: call.accounts.Some? ==> AllCame(steps, n, call.accounts.value)
  }

  lemma {:induction false} CameLater(steps: seq<Step>, n: nat, accounts: seq<Supplied>)
    requires n < |steps| && AllCame(steps, n, accounts)
    ensures AllCame(steps, n + 1, accounts)
  {
    forall a <- accounts ensures CameFrom(steps, n + 1, a) {
      assert CameFrom(steps, n, a);
      var i: nat :| i < n && steps[i].Add? && a == SuppliedBy(steps[i]);
    }
  }

  /** What the source supplies at any point of a run is, account by account, what was added. */
  lemma {:induction false} PayloadCame(peers: set<string>, steps: seq<Step>, states: seq<World>, n: nat)
    requires IsTrace(peers, steps, states) && n <= |steps|
    ensures AllCame(steps, n, SuppliedSet(states[n].source.book.own, states[n].source.secrets))
  {
    BookAt(peers, steps, states, n);
    TraceFits(peers, steps, states, n);
    var own, secrets := states[n].source.book.own, states[n].source.secrets;
    SuppliedByIndex(own, secrets);
    var supplied := SuppliedSet(own, secrets);
    hide SuppliedSet, IsTrace, SoundAccount;
    forall a <- supplied ensures CameFrom(steps, n, a) {
      var k :| 0 <= k < |supplied| && supplied[k] == a;
      assert own[k] in own;
      assert Alive(steps, n, own[k]);
      var i: nat :| Lives(steps, n, i, own[k]);
      assert steps[i].Add? && a == SuppliedBy(steps[i]);
    }
  }

  lemma {:induction false} PeerCameStep(steps: seq<Step>, n: nat, w: World, next: World, name: string)
    requires n < |steps| && Goes(w, steps[n], next) && name in w.peers && PeerCame(steps, n, w.peers[name])
    requires AllCame(steps, n, SuppliedSet(w.source.book.own, w.source.secrets))
    ensures name in next.peers && PeerCame(steps, n + 1, next.peers[name])
  {
    var p, q := w.peers[name], next.peers[name];
    forall call <- q.calls ensures call.accounts.Some? ==> AllCame(steps, n + 1, call.accounts.value) {
      if call in p.calls {
        assert call.accounts.Some? ==> AllCame(steps, n, call.accounts.value);
      } else {
        assert call == w.source.ToSupply();
      }
      if call.accounts.Some? {
        CameLater(steps, n, call.accounts.value);
      }
    }
    if q.kept.Some? {
      if q.kept != p.kept {
        assert p.calls[steps[n].index] in p.calls && p.calls[steps[n].index].accounts == Some(q.kept.value.accounts);
      }
      CameLater(steps, n, q.kept.value.accounts);
    }
  }

  lemma {:induction false} PeersCame(peers: set<string>, steps: seq<Step>, states: seq<World>, n: nat, name: string)
    requires IsTrace(peers, steps, states) && n <= |steps| && name in peers
    ensures name in states[n].peers && PeerCame(steps, n, states[n].peers[name])
  {
    if n > 0 {
      PeersCame(peers, steps, states, n - 1, name);
      PayloadCame(peers, steps, states, n - 1);
      assert Goes(states[n - 1], steps[n - 1], states[n]);
      PeerCameStep(steps, n - 1, states[n - 1], states[n], name);
    }
  }

  /** The account is on its way to the peer, or kept there. */
  ghost predicate Reaches(p: Peer, a: Supplied) {
    (p.kept.Some? && a in p.kept.value.accounts) || exists call <- p.calls :: call.accounts.Some? && a in call.accounts.value
  }

  /**
   In every run, in whatever order calls arrive, each account that is on its way to a peer or
   kept there is one that was added: a held one without its login and with its holder's name,
   any other with the login it was added with.
   */
  lemma {:induction false} HeldLoginsStayHome(peers: set<string>, steps: seq<Step>, states: seq<World>, n: nat, peer: string, a: Supplied)
    requires IsTrace(peers, steps, states) && n <= |steps| && peer in peers
    requires peer in states[n].peers && Reaches(states[n].peers[peer], a)
    ensures exists i: nat :: i < n && steps[i].Add? && a == SuppliedBy(steps[i])
    ensures a.kind.Some? && if a.kind.value.Held() then a.secret.None? && a.holder.Some? else a.secret.Some? && a.holder.None?
  {
    PeersCame(peers, steps, states, n, peer);
    assert CameFrom(steps, n, a);
  }

  // Which calls brought what

  /** The call that the step brings to the peer. */
  function Brought(w: World, step: Step, peer: string): Option<Payload> {
    if step.Arrive? && step.peer == peer && peer in w.peers && step.index < |w.peers[peer].calls|
    then Some(w.peers[peer].calls[step.index]) else None
  }

  predicate BringsVersion(w: World, step: Step, peer: string, version: nat) {
    Brought(w, step, peer).Some? && Brought(w, step, peer).value.version == Some(version)
  }

  predicate BringsNothingElse(w: World, step: Step, peer: string) {
    Brought(w, step, peer).Some? ==> Brought(w, step, peer).value.accounts == Some([])
  }

  /** What a step does to the book: the version never falls, and while it stays so does the set. */
  lemma {:induction false} BookStep(w: World, step: Step, next: World)
    requires Goes(w, step, next)
    ensures w.source.book.version <= next.source.book.version
    ensures next.source.book.version == w.source.book.version ==> next.source.book.own == w.source.book.own && Current(next.source) == Current(w.source)
    ensures !step.Reply? ==> next.source.book.delivered == w.source.book.delivered
    ensures step.Reply? ==> next.source == w.source.Delivered(w.waiting.value.peer, w.waiting.value.version)
  {
  }

  lemma {:induction false} VersionsGrow(peers: set<string>, steps: seq<Step>, states: seq<World>, a: nat, b: nat)
    requires IsTrace(peers, steps, states) && a <= b <= |steps|
    ensures states[a].source.book.version <= states[b].source.book.version
    ensures states[a].source.book.version == states[b].source.book.version ==>
              states[a].source.book.own == states[b].source.book.own && Current(states[a].source) == Current(states[b].source)
  {
    if a < b {
      VersionsGrow(peers, steps, states, a, b - 1);
      assert Goes(states[b - 1], steps[b - 1], states[b]);
      BookStep(states[b - 1], steps[b - 1], states[b]);
    }
  }

  lemma {:induction false} AnsweredStep(w: World, step: Step, next: World, peer: string)
    requires Fits(w) && Goes(w, step, next)
    requires next.waiting == Some(Waiting(peer, next.source.book.version, Answered(true)))
    ensures BringsVersion(w, step, peer, next.source.book.version) || w.waiting == next.waiting
    ensures next.source.book.version == w.source.book.version
  {
    if step.Arrive? && w.waiting != next.waiting {
      assert PeerFits(w.source, w.peers[step.peer]);
    }
  }

  lemma {:induction false} AnsweredAfterArrival(peers: set<string>, steps: seq<Step>, states: seq<World>, n: nat, peer: string) returns (t: nat)
    requires IsTrace(peers, steps, states) && n <= |steps|
    requires states[n].waiting == Some(Waiting(peer, states[n].source.book.version, Answered(true)))
    ensures t < n && BringsVersion(states[t], steps[t], peer, states[n].source.book.version)
  {
    assert n > 0;
    TraceFits(peers, steps, states, n - 1);
    assert Goes(states[n - 1], steps[n - 1], states[n]);
    AnsweredStep(states[n - 1], steps[n - 1], states[n], peer);
    if BringsVersion(states[n - 1], steps[n - 1], peer, states[n].source.book.version) {
      t := n - 1;
    } else {
      t := AnsweredAfterArrival(peers, steps, states, n - 1, peer);
    }
  }

  predicate MarkedCurrent(s: Source, peer: string) {
    peer in s.book.delivered && s.book.delivered[peer] == s.book.version
  }

  lemma {:induction false} MarkedStep(w: World, step: Step, next: World, peer: string)
    requires Fits(w) && Goes(w, step, next) && MarkedCurrent(next.source, peer)
    ensures next.source.book.version == w.source.book.version
    ensures MarkedCurrent(w.source, peer) || w.waiting == Some(Waiting(peer, w.source.book.version, Answered(true)))
  {
  }

  /** A peer marked as delivered at the current version was brought a call of that version. */
  lemma {:induction false} MarkedAfterArrival(peers: set<string>, steps: seq<Step>, states: seq<World>, n: nat, peer: string) returns (t: nat)
    requires IsTrace(peers, steps, states) && n <= |steps| && MarkedCurrent(states[n].source, peer)
    ensures t < n && BringsVersion(states[t], steps[t], peer, states[n].source.book.version)
  {
    assert n > 0;
    TraceFits(peers, steps, states, n - 1);
    assert Goes(states[n - 1], steps[n - 1], states[n]);
    MarkedStep(states[n - 1], steps[n - 1], states[n], peer);
    if MarkedCurrent(states[n - 1].source, peer) {
      t := MarkedAfterArrival(peers, steps, states, n - 1, peer);
    } else {
      t := AnsweredAfterArrival(peers, steps, states, n - 1, peer);
    }
  }

  predicate KeepsCurrent(w: World, peer: string) {
    peer in w.peers && w.peers[peer].kept == Current(w.source)
  }

  lemma {:induction false} CurrentIsNone(s: Source)
    requires Sound(s)
    ensures Current(s).None? <==> s.book.own == []
  {
    SuppliedAreAcceptable(s.book.own, s.secrets);
  }

  /** A call of the current version brings the current set, whatever was kept. */
  lemma {:induction false} CurrentCallIsKept(w: World, step: Step, next: World, peer: string)
    requires Fits(w) && Goes(w, step, next) && BringsVersion(w, step, peer, w.source.book.version)
    ensures KeepsCurrent(next, peer) && next.source == w.source
  {
    assert PeerFits(w.source, w.peers[peer]);
    Applied(w.source, w.peers[peer], step.index);
  }

  /** A peer that keeps the current set goes on keeping it exactly unless it is brought accounts while the current set is empty. */
  lemma {:induction false} KeptStep(w: World, step: Step, next: World, peer: string)
    requires Fits(w) && Goes(w, step, next) && KeepsCurrent(w, peer) && next.source.book.version == w.source.book.version
    ensures KeepsCurrent(next, peer) <==> w.source.book.own != [] || BringsNothingElse(w, step, peer)
  {
    BookStep(w, step, next);
    CurrentIsNone(w.source);
    if Brought(w, step, peer).Some? {
      assert PeerFits(w.source, w.peers[peer]);
      Applied(w.source, w.peers[peer], step.index);
    }
  }

  /** The peer keeps the current set at every point after `t` through `n`. */
  predicate KeepsThrough(states: seq<World>, peer: string, t: nat, n: nat) {
    n < |states| && forall j :: t < j <= n ==> KeepsCurrent(states[j], peer)
  }

  /** No step after `t` and before `n` brings the peer accounts. */
  predicate QuietThrough(steps: seq<Step>, states: seq<World>, peer: string, t: nat, n: nat) {
    n <= |steps| && n <= |states| && forall j :: t < j < n ==> BringsNothingElse(states[j], steps[j], peer)
  }

  lemma {:induction false} ThroughOneMore(steps: seq<Step>, states: seq<World>, peer: string, t: nat, n: nat)
    requires t + 1 < n <= |steps| && n < |states|
    ensures KeepsThrough(states, peer, t, n) <==> KeepsThrough(states, peer, t, n - 1) && KeepsCurrent(states[n], peer)
    ensures QuietThrough(steps, states, peer, t, n) <==> QuietThrough(steps, states, peer, t, n - 1) && BringsNothingElse(states[n - 1], steps[n - 1], peer)
  {
    hide KeepsCurrent, BringsNothingElse;
  }

  lemma {:induction false} KeptFirst(peers: set<string>, steps: seq<Step>, states: seq<World>, peer: string, t: nat)
    requires IsTrace(peers, steps, states) && t < |steps|
    requires BringsVersion(states[t], steps[t], peer, states[t].source.book.version)
    ensures KeepsThrough(states, peer, t, t + 1) && QuietThrough(steps, states, peer, t, t + 1)
  {
    TraceFits(peers, steps, states, t);
    assert Goes(states[t], steps[t], states[t + 1]);
    CurrentCallIsKept(states[t], steps[t], states[t + 1], peer);
  }

  lemma {:induction false} KeptNext(steps: seq<Step>, states: seq<World>, peer: string, t: nat, n: nat)
    requires t + 1 < n <= |steps| && n < |states| && Fits(states[n - 1]) && Goes(states[n - 1], steps[n - 1], states[n])
    requires states[n - 1].source.book.version == states[n].source.book.version
    requires KeepsThrough(states, peer, t, n - 1) <==> states[n - 1].source.book.own != [] || QuietThrough(steps, states, peer, t, n - 1)
    ensures KeepsThrough(states, peer, t, n) <==> states[n].source.book.own != [] || QuietThrough(steps, states, peer, t, n)
  {
    var w, step, next := states[n - 1], steps[n - 1], states[n];
    hide BringsNothingElse, Goes, Fits, QuietThrough, KeepsCurrent;
    BookStep(w, step, next);
    ThroughOneMore(steps, states, peer, t, n);
    if KeepsThrough(states, peer, t, n - 1) {
      KeptStep(w, step, next, peer);
    }
  }

  lemma {:induction false} KeptWhile(peers: set<string>, steps: seq<Step>, states: seq<World>, peer: string, t: nat, n: nat)
    requires IsTrace(peers, steps, states) && t < n <= |steps|
    requires BringsVersion(states[t], steps[t], peer, states[n].source.book.version)
    ensures KeepsThrough(states, peer, t, n) <==> states[n].source.book.own != [] || QuietThrough(steps, states, peer, t, n)
  {
    hide BringsVersion, KeepsThrough, QuietThrough, Goes, Fits;
    TraceFits(peers, steps, states, t);
    SentBefore(states[t], steps[t], peer, states[n].source.book.version);
    VersionsGrow(peers, steps, states, t, n - 1);
    VersionsGrow(peers, steps, states, n - 1, n);
    if n == t + 1 {
      KeptFirst(peers, steps, states, peer, t);
    } else {
      KeptWhile(peers, steps, states, peer, t, n - 1);
      TraceFits(peers, steps, states, n - 1);
      assert Goes(states[n - 1], steps[n - 1], states[n]);
      KeptNext(steps, states, peer, t, n);
    }
  }

  lemma {:induction false} SentBefore(w: World, step: Step, peer: string, version: nat)
    requires Fits(w) && BringsVersion(w, step, peer, version)
    ensures version <= w.source.book.version
  {
    assert PeerFits(w.source, w.peers[peer]);
    var call := w.peers[peer].calls[step.index];
    assert call in w.peers[peer].calls;
  }

  /**
   What is true of a mark when calls may arrive in any order. A peer marked as delivered at
   the current version was brought the current set at some step `t`; it has kept that ever
   since exactly when the set isn't empty, or no call that arrived since brought accounts.
   An empty set leaves no version behind that a late call could be compared with.
   */
  lemma {:induction false} LateCallsAreHarmlessIff(peers: set<string>, steps: seq<Step>, states: seq<World>, peer: string) returns (t: nat)
    requires IsTrace(peers, steps, states) && MarkedCurrent(states[|steps|].source, peer)
    ensures t < |steps| && BringsVersion(states[t], steps[t], peer, states[|steps|].source.book.version)
    ensures KeepsThrough(states, peer, t, |steps|) <==>
            states[|steps|].source.book.own != [] || QuietThrough(steps, states, peer, t, |steps|)
  {
    t := MarkedAfterArrival(peers, steps, states, |steps|, peer);
    KeptWhile(peers, steps, states, peer, t, |steps|);
  }

  // What is kept in the end

  /** The step brings the peer a set of this version, with accounts or without. */
  predicate Brings(w: World, step: Step, peer: string, version: nat, empty: bool) {
    && BringsVersion(w, step, peer, version) && Brought(w, step, peer).value.accounts.Some?
    && (Brought(w, step, peer).value.accounts.value == [] <==> empty)
  }

  /** A set with accounts that came at `j` was undone before `n` by an empty one that isn't older. */
  ghost predicate Undone(steps: seq<Step>, states: seq<World>, peer: string, version: nat, j: nat, n: nat)
    requires n <= |steps| && n <= |states|
  {
    exists k, v: nat :: j < k < n && Brings(states[k], steps[k], peer, v, true) && v >= version
  }

  /** Every set with accounts that came after `t` and before `n` was undone before `n`. */
  ghost predicate AllUndone(steps: seq<Step>, states: seq<World>, peer: string, t: nat, n: nat)
    requires n <= |steps| && n <= |states|
  {
    forall j, version: nat :: t < j < n && Brings(states[j], steps[j], peer, version, false) ==> Undone(steps, states, peer, version, j, n)
  }

  /** What a step makes of what a peer keeps. */
  lemma {:induction false} KeptAfter(w: World, step: Step, next: World, peer: string)
    requires Fits(w) && Goes(w, step, next) && peer in w.peers
    ensures peer in next.peers
    ensures var kept, call := w.peers[peer].kept, Brought(w, step, peer);
            if call.None? then next.peers[peer].kept == kept
            else
              && call.value.version.Some? && call.value.accounts.Some?
              && var (v, accounts) := (call.value.version.value, call.value.accounts.value);
              && Brings(w, step, peer, v, accounts == [])
              && next.peers[peer].kept == if kept.Some? && kept.value.version > v then kept else Keep(v, accounts)
  {
    if Brought(w, step, peer).Some? {
      assert PeerFits(w.source, w.peers[peer]);
      Applied(w.source, w.peers[peer], step.index);
    }
  }

  /** A set with accounts that isn't undone leaves one kept that isn't older. */
  lemma {:induction false} NotUndoneIsKept(peers: set<string>, steps: seq<Step>, states: seq<World>, peer: string, version: nat, j: nat, n: nat)
    requires IsTrace(peers, steps, states) && j < n <= |steps|
    requires Brings(states[j], steps[j], peer, version, false) && !Undone(steps, states, peer, version, j, n)
    ensures peer in states[n].peers && states[n].peers[peer].kept.Some? && states[n].peers[peer].kept.value.version >= version
  {
    var w, step := states[n - 1], steps[n - 1];
    TraceFits(peers, steps, states, n - 1);
    assert Goes(w, step, states[n]);
    hide Goes, Fits, IsTrace;
    if n == j + 1 {
      KeptAfter(w, step, states[n], peer);
    } else {
      assert !Undone(steps, states, peer, version, j, n - 1);
      NotUndoneIsKept(peers, steps, states, peer, version, j, n - 1);
      KeptAfter(w, step, states[n], peer);
      if v: nat :| Brings(w, step, peer, v, true) {
        assert v < version;
      }
    }
  }

  /** Where nothing was kept at `t`, what is kept later came since, and wasn't undone. */
  lemma {:induction false} KeptCameFrom(peers: set<string>, steps: seq<Step>, states: seq<World>, peer: string, t: nat, n: nat) returns (j: nat)
    requires IsTrace(peers, steps, states) && t < n <= |steps| && peer in peers
    requires peer in states[t + 1].peers && states[t + 1].peers[peer].kept.None?
    requires peer in states[n].peers && states[n].peers[peer].kept.Some?
    ensures t < j < n && Brings(states[j], steps[j], peer, states[n].peers[peer].kept.value.version, false)
    ensures !Undone(steps, states, peer, states[n].peers[peer].kept.value.version, j, n)
  {
    var w, step := states[n - 1], steps[n - 1];
    TraceFits(peers, steps, states, n - 1);
    assert Goes(w, step, states[n]);
    hide Goes, Fits, IsTrace;
    assert n > t + 1;
    KeptAfter(w, step, states[n], peer);
    var was, call := w.peers[peer].kept, Brought(w, step, peer);
    if call.Some? && !(was.Some? && was.value.version > call.value.version.value) {
      j := n - 1;
    } else {
      j := KeptCameFrom(peers, steps, states, peer, t, n - 1);
      var version := states[n].peers[peer].kept.value.version;
      forall v: nat | Brings(w, step, peer, v, true) ensures v < version {
      }
    }
  }

  /**
   What a peer marked as delivered at the current version keeps in the end, in whatever order
   calls arrive: the current set, exactly when that isn't empty, or every set with accounts
   that came after it was undone by an empty one that came later and isn't older.
   */
  lemma {:induction false} MarkedKeepsCurrentIff(peers: set<string>, steps: seq<Step>, states: seq<World>, peer: string) returns (t: nat)
    requires IsTrace(peers, steps, states) && MarkedCurrent(states[|steps|].source, peer)
    ensures t < |steps| && BringsVersion(states[t], steps[t], peer, states[|steps|].source.book.version)
    ensures KeepsCurrent(states[|steps|], peer) <==>
            states[|steps|].source.book.own != [] || AllUndone(steps, states, peer, t, |steps|)
  {
    var n := |steps|;
    t := LateCallsAreHarmlessIff(peers, steps, states, peer);
    TraceFits(peers, steps, states, n);
    TraceFits(peers, steps, states, t);
    SentBefore(states[t], steps[t], peer, states[n].source.book.version);
    VersionsGrow(peers, steps, states, t, n);
    CurrentIsNone(states[n].source);
    KeptFirst(peers, steps, states, peer, t);
    assert KeepsCurrent(states[t + 1], peer);
    assert Goes(states[t], steps[t], states[t + 1]);
    CurrentCallIsKept(states[t], steps[t], states[t + 1], peer);
    if states[n].source.book.own == [] {
      assert states[t + 1].peers[peer].kept.None?;
      hide IsTrace, Fits, Goes, BringsVersion;
      if KeepsCurrent(states[n], peer) {
        forall j, version: nat | t < j < n && Brings(states[j], steps[j], peer, version, false) ensures Undone(steps, states, peer, version, j, n) {
          if !Undone(steps, states, peer, version, j, n) {
            NotUndoneIsKept(peers, steps, states, peer, version, j, n);
          }
        }
      } else {
        var j := KeptCameFrom(peers, steps, states, peer, t, n);
      }
    }
  }

  const ONE: Source := Source(Book(1, [Account(7, ClaudeApiKey, None)], map[]), map[7 := "key"])
  const NONE_LEFT: Source := Source(Book(2, [], map[]), map[])

  lemma {:induction false} OneAccount()
    ensures Source(Book(0, [], map[]), map[]).Add(7, ClaudeApiKey, "key", "me") == ONE
    ensures ONE.ToSupply() == Payload(Some(1), Some([Supplied(7, Some(ClaudeApiKey), Some("key"), None)]))
  {
    var own, secrets := ONE.book.own, ONE.secrets;
    assert own[..|own| - 1] == [] && SuppliedSet([], secrets) == [];
    assert own[|own| - 1] == Account(7, ClaudeApiKey, None) && 7 in secrets && secrets[7] == "key";
    var supplied := Supplied(7, Some(ClaudeApiKey), Some("key"), None);
    assert SuppliedSet(own, secrets) == [] + [supplied] == [supplied];
  }

  lemma {:induction false} NoAccount()
    ensures ONE.Remove(ById(7)) == Ok(NONE_LEFT)
  {
    hide Filter;
    var a := Account(7, ClaudeApiKey, None);
    OneIsFiltered(a, Unlike(ById(7)));
    OneIsFiltered(a, Like(ById(7)));
    assert Ids([a]) == {7};
    assert Forget(map[7 := "key"], {7}) == map[];
    hide Ids, Forget;
  }

  lemma {:induction false} OneIsFiltered(a: Account, keep: Account -> bool)
    ensures Filter(keep, [a]) == if keep(a) then [a] else []
  {
    assert [a][..0] == [];
  }

  function Only(p: Peer): map<string, Peer> {
    map["p" := p]
  }

  lemma {:induction false} OneSend(s: Source, p: Peer)
    requires Enabled(World(s, Only(p), None), Send("p"))
    ensures Do(World(s, Only(p), None), Send("p")) == World(s, Only(p.(calls := p.calls + [s.ToSupply()])), Some(Waiting("p", s.book.version, OnItsWay)))
  {
    assert Only(p)["p" := p.(calls := p.calls + [s.ToSupply()])] == Only(p.(calls := p.calls + [s.ToSupply()]));
  }

  lemma {:induction false} OneArrival(w: World, p: Peer, index: nat, kept: Option<Kept>, calls: seq<Payload>)
    requires w.peers == Only(p) && index < |p.calls| && calls == Without(p.calls, index) && Received(p.kept, p.calls[index]) == Ok(kept)
    ensures Do(w, Arrive("p", index)) == w.(peers := Only(Peer(kept, calls)), waiting := Off(w.waiting, "p", index == |p.calls| - 1, Answered(true)))
  {
    assert Only(p)["p" := Peer(kept, calls)] == Only(Peer(kept, calls));
  }

  /** The first part of the run: the account's call is given up on but still on its way when the account is removed. */
  lemma {:induction false} CallGivenUp() returns (steps: seq<Step>)
    ensures Run({"p"}, steps) == Some(World(NONE_LEFT, Only(Peer(None, [ONE.ToSupply()])), None))
  {
    OneAccount();
    NoAccount();
    var peers := {"p"};
    var w := Start(peers);
    assert w.peers == Only(Peer(None, []));
    steps := Extend(peers, [], w, Add(7, ClaudeApiKey, "key", "me"));
    w := World(ONE, Only(Peer(None, [])), None);
    OneSend(ONE, Peer(None, []));
    steps := Extend(peers, steps, w, Send("p"));
    assert [] + [ONE.ToSupply()] == [ONE.ToSupply()];
    w := World(ONE, Only(Peer(None, [ONE.ToSupply()])), Some(Waiting("p", 1, OnItsWay)));
    steps := Extend(peers, steps, w, GiveUp);
    w := w.(waiting := None);
    steps := Extend(peers, steps, w, Remove(ById(7)));
  }

  /** The second part: the empty set arrives before it, and is answered. */
  lemma {:induction false} EmptySetFirst() returns (steps: seq<Step>)
    ensures Run({"p"}, steps) == Some(World(NONE_LEFT, Only(Peer(None, [ONE.ToSupply()])), Some(Waiting("p", 2, Answered(true)))))
  {
    var peers := {"p"};
    var first, second := ONE.ToSupply(), Payload(Some(2), Some([]));
    steps := CallGivenUp();
    var w := World(NONE_LEFT, Only(Peer(None, [first])), None);
    assert NONE_LEFT.ToSupply() == second && [first] + [second] == [first, second];
    OneSend(NONE_LEFT, Peer(None, [first]));
    steps := Extend(peers, steps, w, Send("p"));
    w := World(NONE_LEFT, Only(Peer(None, [first, second])), Some(Waiting("p", 2, OnItsWay)));
    OneArrival(w, Peer(None, [first, second]), 1, None, [first]);
    steps := Extend(peers, steps, w, Arrive("p", 1));
  }

  /** A run in which a late call brings back an account that was removed, to a peer marked as up to date. */
  lemma {:induction false} LateCallBringsBack() returns (steps: seq<Step>)
    ensures Run({"p"}, steps).Some?
    ensures var w := Run({"p"}, steps).value;
            && MarkedCurrent(w.source, "p") && w.source.book.own == [] && "p" in w.peers
            && w.peers["p"].kept == Some(Kept(1, [Supplied(7, Some(ClaudeApiKey), Some("key"), None)]))
  {
    OneAccount();
    var peers := {"p"};
    var first := ONE.ToSupply();
    steps := EmptySetFirst();
    var w := World(NONE_LEFT, Only(Peer(None, [first])), Some(Waiting("p", 2, Answered(true))));
    steps := Extend(peers, steps, w, Reply);
    w := World(NONE_LEFT.Delivered("p", 2), Only(Peer(None, [first])), None);
    OneArrival(w, Peer(None, [first]), 0, Some(Kept(1, first.accounts.value)), []);
    steps := Extend(peers, steps, w, Arrive("p", 0));
  }
}
