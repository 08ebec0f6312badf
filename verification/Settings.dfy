/**
 The settings editor of the agent setup. Setting up adds Kanna's socket to the sandbox's
 allow list and its keys to the deny lists of the user's settings file, in place, recording
 every part it had to make; removing takes exactly that out again.
 */
module Settings {
  import opened Prelude

  datatype Json =
    | Null
    | Bool(bool)
    | Number(real)
    | String(text: string)
    | Array(items: seq<Json>)
    | Object(fields: Fields)

  type Fields = map<string, Json>

  /** A settings file: not there, there but not holding a JSON object, or its object. */
  datatype File = Absent | Unusable | Holds(fields: Fields)

  /** The parts of a file that Kanna may have had to make; `Whole` is the file itself. */
  datatype Part =
    | Whole
    | Sandbox | Network | AllowUnixSockets | Filesystem | DenyRead
    | Permissions | Deny
    | Hooks | SessionStart

  datatype Which = Claude | Codex

  datatype Made = Made(which: Which, part: Part)

  datatype Record = Record(sockets: seq<string>, denied: seq<string>, made: set<Made>)

  const NO_RECORD := Record([], [], {})

  /** What one Kanna sets up: its socket, and where its secret files are. */
  datatype Config = Config(socket: string, keys: seq<string>)

  const SECRETS := "agent-secrets"

  const MARK := "# kanna agents setup"

  predicate EndsWith(text: string, suffix: string) {
    |suffix| <= |text| && text[|text| - |suffix|..] == suffix
  }

  function Paths(keys: seq<string>): seq<string> {
    seq(|keys|, i requires 0 <= i < |keys| => "/" + keys[i])
  }

  function Rules(keys: seq<string>): seq<string> {
    seq(|keys|, i requires 0 <= i < |keys| =>
      var path := "/" + keys[i];
      if EndsWith(path, SECRETS) then "Read(" + path + "/**)" else "Read(" + path + ")")
  }

  // The edits, on one object

  /** An object after an edit, the parts made so far, and the entries that are Kanna's. */
  datatype Edit = Edit(fields: Fields, made: set<Made>, ours: seq<string>)

  function EnsureObject(o: Fields, key: string, made: set<Made>, part: Part): (Fields, set<Made>) {
    if key in o then (o, made) else (o[key := Object(map[])], made + {Made(Claude, part)})
  }

  function EnsureList(o: Fields, key: string, made: set<Made>, part: Part): (Fields, set<Made>) {
    if key in o then (o, made) else (o[key := Array([])], made + {Made(Claude, part)})
  }

  function Remember(ours: seq<string>, entry: string): seq<string> {
    if entry in ours then ours else ours + [entry]
  }

  function AddEntry(list: seq<Json>, entry: string): seq<Json> {
    if String(entry) in list then list else list + [String(entry)]
  }

  function AddAll(list: seq<Json>, entries: seq<string>): seq<Json> {
    if entries == [] then list
    else AddEntry(AddAll(list, entries[..|entries| - 1]), entries[|entries| - 1])
  }

  function RememberAll(ours: seq<string>, entries: seq<string>): seq<string> {
    if entries == [] then ours
    else Remember(RememberAll(ours, entries[..|entries| - 1]), entries[|entries| - 1])
  }

  /** Adds entries to the list `field` of an object, making it when it isn't there. */
  function AddIn(o: Fields, field: string, part: Part, made: set<Made>, ours: seq<string>, entries: seq<string>): Edit {
    var (o1, made1) := EnsureList(o, field, made, part);
    if !o1[field].Array? then Edit(o1, made1, ours)
    else Edit(o1[field := Array(AddAll(o1[field].items, entries))], made1, RememberAll(ours, entries))
  }

  /** Adds entries to the list `field` of the object `key`, making either when it isn't there. */
  function AddAt(o: Fields, key: string, field: string, part: Part, fieldPart: Part, made: set<Made>, ours: seq<string>, entries: seq<string>): Edit {
    var (o1, made1) := EnsureObject(o, key, made, part);
    if !o1[key].Object? then Edit(o1, made1, ours)
    else
      var e := AddIn(o1[key].fields, field, fieldPart, made1, ours, entries);
      e.(fields := o1[key := Object(e.fields)])
  }

  predicate IsEmpty(o: Fields, key: string) {
    if key !in o then true
    else match o[key]
      case Object(fields) => fields == map[]
      case Array(items) => items == []
      case _ => false
  }

  function Prune(o: Fields, key: string, made: set<Made>, which: Which, part: Part): (Fields, set<Made>) {
    if IsEmpty(o, key) && Made(which, part) in made then (o - {key}, made - {Made(which, part)}) else (o, made)
  }

  function NotOurs(ours: seq<string>): Json -> bool {
    (v: Json) => !(v.String? && v.text in ours)
  }

  /** Takes Kanna's entries out of a list, and the list when Kanna made it and it is left empty. */
  function TakeIn(o: Fields, field: string, ours: seq<string>, part: Part, made: set<Made>): (Fields, set<Made>) {
    var o1 := if field in o && o[field].Array?
              then o[field := Array(Filter(NotOurs(ours), o[field].items))]
              else o;
    Prune(o1, field, made, Claude, part)
  }

  function Take(o: Fields, key: string, field: string, ours: seq<string>, part: Part, fieldPart: Part, made: set<Made>): (Fields, set<Made>) {
    if key in o && o[key].Object? then
      var (inner, made1) := TakeIn(o[key].fields, field, ours, fieldPart, made);
      Prune(o[key := Object(inner)], key, made1, Claude, part)
    else Prune(o, key, made, Claude, part)
  }

  // Hooks that an earlier Kanna left

  function Command(hook: Json): Option<string> {
    if hook.Object? && "command" in hook.fields && hook.fields["command"].String?
    then Some(hook.fields["command"].text)
    else None
  }

  predicate KannaHook(hook: Json) {
    Command(hook).Some? && EndsWith(Command(hook).value, MARK)
  }

  function HooksOf(group: Json): Option<seq<Json>> {
    if group.Object? && "hooks" in group.fields && group.fields["hooks"].Array?
    then Some(group.fields["hooks"].items)
    else None
  }

  predicate KannaGroup(group: Json) {
    HooksOf(group).Some? && HooksOf(group).value != [] && forall hook <- HooksOf(group).value :: KannaHook(hook)
  }

  function NotKannaHook(): Json -> bool {
    (hook: Json) => !KannaHook(hook)
  }

  function NotKannaGroup(): Json -> bool {
    (group: Json) => !KannaGroup(group)
  }

  function CleanGroup(group: Json): Json {
    if HooksOf(group).None? then group
    else Object(group.fields["hooks" := Array(Filter(NotKannaHook(), HooksOf(group).value))])
  }

  function CleanGroups(groups: seq<Json>): (clean: seq<Json>)
    ensures |clean| == |groups|
  {
    seq(|groups|, i requires 0 <= i < |groups| => CleanGroup(groups[i]))
  }

  function DropHook(o: Fields, which: Which, made: set<Made>): (Fields, set<Made>) {
    if "hooks" in o && o["hooks"].Object? then
      var hooks := o["hooks"].fields;
      var hooks1 := if "SessionStart" in hooks && hooks["SessionStart"].Array?
                    then hooks["SessionStart" := Array(CleanGroups(Filter(NotKannaGroup(), hooks["SessionStart"].items)))]
                    else hooks;
      var (hooks2, made2) := Prune(hooks1, "SessionStart", made, which, SessionStart);
      Prune(o["hooks" := Object(hooks2)], "hooks", made2, which, Hooks)
    else Prune(o, "hooks", made, which, Hooks)
  }

  // Setting up, and removing

  datatype State = State(claude: File, codex: File, record: Record)

  datatype SandboxEdit = SandboxEdit(fields: Fields, made: set<Made>, sockets: seq<string>, denied: seq<string>)

  function AddToSandbox(o: Fields, record: Record, config: Config): SandboxEdit {
    var (o1, made) := EnsureObject(o, "sandbox", record.made, Sandbox);
    if !o1["sandbox"].Object? then SandboxEdit(o1, made, record.sockets, record.denied)
    else
      var e1 := AddAt(o1["sandbox"].fields, "network", "allowUnixSockets", Network, AllowUnixSockets, made, record.sockets, [config.socket]);
      var e2 := AddAt(e1.fields, "filesystem", "denyRead", Filesystem, DenyRead, e1.made, record.denied, Paths(config.keys));
      SandboxEdit(o1["sandbox" := Object(e2.fields)], e2.made, e1.ours, e2.ours)
  }

  function AddPermissions(o: Fields, made: set<Made>, denied: seq<string>, config: Config): Edit {
    AddAt(o, "permissions", "deny", Permissions, Deny, made, denied, Rules(config.keys))
  }

  /** The rest of setting up, once the sandbox is edited. */
  function AfterSandbox(e: SandboxEdit, config: Config): (Fields, Record) {
    var permissions := AddPermissions(e.fields, e.made, e.denied, config);
    var (o, made) := DropHook(permissions.fields, Claude, permissions.made);
    (o, Record(e.sockets, permissions.ours, made))
  }

  function SetUpObject(o: Fields, record: Record, config: Config): (Fields, Record) {
    AfterSandbox(AddToSandbox(o, record, config), config)
  }

  /** A file that Kanna may not make: only an earlier Kanna's hooks go. */
  function DropHooksIn(file: File, which: Which, made: set<Made>): (File, set<Made>) {
    if !file.Holds? then (file, made)
    else
      var (o, made') := DropHook(file.fields, which, made);
      if o == map[] && Made(which, Whole) in made'
      then (Absent, Forget(made' - {Made(which, Whole)}, which))
      else (Holds(o), Forget(made', which))
  }

  /** Forgets the parts of a file, but not that the file itself was made. */
  function Forget(made: set<Made>, which: Which): set<Made> {
    set m | m in made && (m.which != which || m.part.Whole?)
  }

  function SetUp(s: State, config: Config): State {
    var (claude, record) :=
      match s.claude
      case Unusable => (Unusable, s.record)
      case Absent =>
        var (o, r) := SetUpObject(map[], s.record.(made := s.record.made + {Made(Claude, Whole)}), config);
        (Holds(o), r)
      case Holds(fields) =>
        var (o, r) := SetUpObject(fields, s.record, config);
        (Holds(o), r);
    var (codex, made) := DropHooksIn(s.codex, Codex, record.made);
    State(claude, codex, record.(made := made))
  }

  function TakeFromSandbox(o: Fields, record: Record): (Fields, set<Made>) {
    if "sandbox" in o && o["sandbox"].Object? then
      var (sandbox1, m1) := Take(o["sandbox"].fields, "network", "allowUnixSockets", record.sockets, Network, AllowUnixSockets, record.made);
      var (sandbox2, m2) := Take(sandbox1, "filesystem", "denyRead", record.denied, Filesystem, DenyRead, m1);
      (o["sandbox" := Object(sandbox2)], m2)
    else (o, record.made)
  }

  function TakeFromObject(o: Fields, record: Record): (Fields, set<Made>) {
    var (o1, made1) := TakeFromSandbox(o, record);
    var (o2, made2) := Prune(o1, "sandbox", made1, Claude, Sandbox);
    var (o3, made3) := Take(o2, "permissions", "deny", record.denied, Permissions, Deny, made2);
    DropHook(o3, Claude, made3)
  }

  function Remove(s: State): State {
    var claude :=
      if !s.claude.Holds? then s.claude
      else
        var (o, made) := TakeFromObject(s.claude.fields, s.record);
        if o == map[] && Made(Claude, Whole) in made then Absent else Holds(o);
    State(claude, DropHooksIn(s.codex, Codex, s.record.made).0, NO_RECORD)
  }

  function SetUpAll(s: State, configs: seq<Config>): State {
    if configs == [] then s else SetUp(SetUpAll(s, configs[..|configs| - 1]), configs[|configs| - 1])
  }

  // What the user's object holds, in a form of its own

  predicate ReachIn(o: Fields, field: string) {
    field in o ==> o[field].Array?
  }

  function ItemsIn(o: Fields, field: string): seq<Json> {
    if field in o && o[field].Array? then o[field].items else []
  }

  /** The user's object under `key`, or the empty one Kanna would make there. */
  function Inner(o: Fields, key: string): Fields {
    if key in o && o[key].Object? then o[key].fields else map[]
  }

  /** Kanna can add to the list: it is there, or it and what holds it can be made. */
  predicate Reach(o: Fields, key: string, field: string) {
    (key in o ==> o[key].Object?) && ReachIn(Inner(o, key), field)
  }

  function Strings(entries: seq<string>): (list: seq<Json>)
    ensures |list| == |entries| && forall i :: 0 <= i < |entries| ==> list[i] == String(entries[i])
  {
    seq(|entries|, i requires 0 <= i < |entries| => String(entries[i]))
  }

  /** The object with `extra` at the end of its list `field`, if that can be a list. */
  function ExtendIn(o: Fields, field: string, extra: seq<string>): Fields {
    if ReachIn(o, field) then o[field := Array(ItemsIn(o, field) + Strings(extra))] else o
  }

  function ExtendAt(o: Fields, key: string, field: string, extra: seq<string>): Fields {
    if key in o && !o[key].Object? then o else o[key := Object(ExtendIn(Inner(o, key), field, extra))]
  }

  /** What Kanna makes the first time it adds to that list. */
  function MadeAt(o: Fields, key: string, field: string, part: Part, fieldPart: Part): set<Made> {
    (if key !in o then {Made(Claude, part)} else {})
    + if (key in o ==> o[key].Object?) && field !in Inner(o, key) then {Made(Claude, fieldPart)} else {}
  }

  /** The object with the given entries gone from its list `field`. */
  function StripIn(o: Fields, field: string, ours: seq<string>): Fields {
    if field in o && o[field].Array? then o[field := Array(Filter(NotOurs(ours), o[field].items))] else o
  }

  function StripAt(o: Fields, key: string, field: string, ours: seq<string>): Fields {
    if key in o && o[key].Object? then o[key := Object(StripIn(o[key].fields, field, ours))] else o
  }

  /** What is added to the user's list: each entry not there yet. */
  function Grow(user: seq<Json>, extra: seq<string>, entries: seq<string>): seq<string> {
    if entries == [] then extra
    else
      var grown := Grow(user, extra, entries[..|entries| - 1]);
      var entry := entries[|entries| - 1];
      if String(entry) in user || entry in grown then grown else grown + [entry]
  }

  lemma {:induction false} AddAllGrows(user: seq<Json>, extra: seq<string>, entries: seq<string>)
    ensures AddAll(user + Strings(extra), entries) == user + Strings(Grow(user, extra, entries))
  {
    if entries != [] {
      var n := |entries| - 1;
      AddAllGrows(user, extra, entries[..n]);
      var grown := Grow(user, extra, entries[..n]);
      assert String(entries[n]) in Strings(grown) <==> entries[n] in grown by {
        if entries[n] in grown {
          var i :| 0 <= i < |grown| && grown[i] == entries[n];
          assert Strings(grown)[i] == String(entries[n]);
        }
      }
      assert Strings(grown + [entries[n]]) == Strings(grown) + [String(entries[n])];
    }
  }

  lemma AddInAgain(o: Fields, field: string, extra: seq<string>, part: Part, made: set<Made>, ours: seq<string>, entries: seq<string>)
    ensures var e := AddIn(ExtendIn(o, field, extra), field, part, made, ours, entries);
            && e.fields == ExtendIn(o, field, Grow(ItemsIn(o, field), extra, entries))
            && e.made == made
            && e.ours == if ReachIn(o, field) then RememberAll(ours, entries) else ours
  {
    AddAllGrows(ItemsIn(o, field), extra, entries);
  }

  lemma AddInFirst(o: Fields, field: string, part: Part, made: set<Made>, ours: seq<string>, entries: seq<string>)
    ensures var e := AddIn(o, field, part, made, ours, entries);
            && e.fields == ExtendIn(o, field, Grow(ItemsIn(o, field), [], entries))
            && e.made == made + (if field !in o then {Made(Claude, part)} else {})
            && e.ours == if ReachIn(o, field) then RememberAll(ours, entries) else ours
  {
    AddAllGrows(ItemsIn(o, field), [], entries);
    assert ItemsIn(o, field) + Strings([]) == ItemsIn(o, field);
  }

  lemma AddAtAgain(o: Fields, key: string, field: string, extra: seq<string>, part: Part, fieldPart: Part, made: set<Made>, ours: seq<string>, entries: seq<string>)
    ensures var e := AddAt(ExtendAt(o, key, field, extra), key, field, part, fieldPart, made, ours, entries);
            && e.fields == ExtendAt(o, key, field, Grow(ItemsIn(Inner(o, key), field), extra, entries))
            && e.made == made
            && e.ours == if Reach(o, key, field) then RememberAll(ours, entries) else ours
  {
    AddInAgain(Inner(o, key), field, extra, fieldPart, made, ours, entries);
  }

  lemma AddAtFirst(o: Fields, key: string, field: string, part: Part, fieldPart: Part, made: set<Made>, ours: seq<string>, entries: seq<string>)
    ensures var e := AddAt(o, key, field, part, fieldPart, made, ours, entries);
            && e.fields == ExtendAt(o, key, field, Grow(ItemsIn(Inner(o, key), field), [], entries))
            && e.made == made + MadeAt(o, key, field, part, fieldPart)
            && e.ours == if Reach(o, key, field) then RememberAll(ours, entries) else ours
  {
    var extra := Grow(ItemsIn(Inner(o, key), field), [], entries);
    hide AddIn, Grow, RememberAll, ExtendIn;
    if key !in o {
      AddInFirst(map[], field, fieldPart, made + {Made(Claude, part)}, ours, entries);
      var inner := Object(ExtendIn(map[], field, extra));
      assert o[key := Object(map[])][key := inner] == o[key := inner];
    } else if o[key].Object? {
      AddInFirst(o[key].fields, field, fieldPart, made, ours, entries);
    }
  }

  lemma {:induction false} RememberAllIs(ours: seq<string>, entries: seq<string>)
    ensures forall x :: x in RememberAll(ours, entries) <==> x in ours || x in entries
  {
    if entries != [] {
      RememberAllIs(ours, entries[..|entries| - 1]);
      assert entries == entries[..|entries| - 1] + [entries[|entries| - 1]];
    }
  }

  lemma {:induction false} GrowIsWithin(user: seq<Json>, extra: seq<string>, entries: seq<string>)
    ensures forall x <- Grow(user, extra, entries) :: x in extra || x in entries
  {
    if entries != [] {
      GrowIsWithin(user, extra, entries[..|entries| - 1]);
    }
  }

  // Taking out what was added

  lemma FilterUndoes(user: seq<Json>, extra: seq<string>, ours: seq<string>)
    requires forall x <- extra :: x in ours
    ensures Filter(NotOurs(ours), user + Strings(extra)) == Filter(NotOurs(ours), user)
  {
    FilterConcat(NotOurs(ours), user, Strings(extra));
    FilterNone(NotOurs(ours), Strings(extra));
  }

  lemma TakeInUndoes(o: Fields, field: string, extra: seq<string>, ours: seq<string>, part: Part, made: set<Made>)
    requires ReachIn(o, field) ==> forall x <- extra :: x in ours
    requires Made(Claude, part) in made <==> field !in o
    ensures TakeIn(ExtendIn(o, field, extra), field, ours, part, made) == (StripIn(o, field, ours), made - {Made(Claude, part)})
  {
    if field in o {
      assert made - {Made(Claude, part)} == made;
    }
    if ReachIn(o, field) {
      FilterUndoes(ItemsIn(o, field), extra, ours);
      var added, kept := Array(ItemsIn(o, field) + Strings(extra)), Array(Filter(NotOurs(ours), ItemsIn(o, field)));
      assert o[field := added][field := kept] == o[field := kept];
      if field !in o {
        assert o[field := kept] - {field} == o;
      }
    }
  }

  lemma TakeUndoes(o: Fields, key: string, field: string, extra: seq<string>, ours: seq<string>, part: Part, fieldPart: Part, made: set<Made>)
    requires part != fieldPart && (Reach(o, key, field) ==> forall x <- extra :: x in ours)
    requires Made(Claude, part) in made <==> Made(Claude, part) in MadeAt(o, key, field, part, fieldPart)
    requires Made(Claude, fieldPart) in made <==> Made(Claude, fieldPart) in MadeAt(o, key, field, part, fieldPart)
    ensures Take(ExtendAt(o, key, field, extra), key, field, ours, part, fieldPart, made)
         == (StripAt(o, key, field, ours), made - {Made(Claude, part), Made(Claude, fieldPart)})
  {
    if key in o && !o[key].Object? {
      assert made == made - {Made(Claude, part), Made(Claude, fieldPart)};
    } else {
      TakeFromUndoes(o, key, field, extra, ours, part, fieldPart, made);
      hide Take, ExtendAt, StripAt;
    }
  }

  lemma TakeFromUndoes(o: Fields, key: string, field: string, extra: seq<string>, ours: seq<string>, part: Part, fieldPart: Part, made: set<Made>)
    requires (key in o ==> o[key].Object?) && part != fieldPart
    requires ReachIn(Inner(o, key), field) ==> forall x <- extra :: x in ours
    requires Made(Claude, part) in made <==> key !in o
    requires Made(Claude, fieldPart) in made <==> field !in Inner(o, key)
    ensures Take(ExtendAt(o, key, field, extra), key, field, ours, part, fieldPart, made)
         == (StripAt(o, key, field, ours), made - {Made(Claude, part), Made(Claude, fieldPart)})
  {
    var inner := Inner(o, key);
    var extended, stripped := ExtendIn(inner, field, extra), StripIn(inner, field, ours);
    TakeInUndoes(inner, field, extra, ours, fieldPart, made);
    hide TakeIn, ExtendIn, StripIn, Filter;
    var rest := made - {Made(Claude, fieldPart)};
    assert rest - {Made(Claude, part)} == made - {Made(Claude, part), Made(Claude, fieldPart)};
    StripsNothing(field, ours);
    hide Prune;
    assert ExtendAt(o, key, field, extra) == o[key := Object(extended)];
    PruneUndoes(o, key, extended, stripped, rest, part);
  }

  lemma StripsNothing(field: string, ours: seq<string>)
    ensures StripIn(map[], field, ours) == map[]
  {
  }

  lemma PruneUndoes(o: Fields, key: string, extended: Fields, stripped: Fields, made: set<Made>, part: Part)
    requires key in o ==> o[key].Object?
    requires key !in o ==> stripped == map[]
    requires Made(Claude, part) in made <==> key !in o
    ensures Prune(o[key := Object(extended)][key := Object(stripped)], key, made, Claude, part)
         == (if key in o then o[key := Object(stripped)] else o, made - {Made(Claude, part)})
  {
    assert o[key := Object(extended)][key := Object(stripped)] == o[key := Object(stripped)];
    if key !in o {
      assert o[key := Object(map[])] - {key} == o;
    } else {
      assert made - {Made(Claude, part)} == made;
    }
  }

  // The whole object

  function ExtendSandbox(sandbox: Fields, sockets: seq<string>, paths: seq<string>): Fields {
    ExtendAt(ExtendAt(sandbox, "network", "allowUnixSockets", sockets), "filesystem", "denyRead", paths)
  }

  function Extended(o: Fields, sockets: seq<string>, paths: seq<string>, rules: seq<string>): Fields {
    ExtendAt(WithSandbox(o, ExtendSandbox(Inner(o, "sandbox"), sockets, paths)), "permissions", "deny", rules)
  }

  function WithSandbox(o: Fields, sandbox: Fields): Fields {
    if "sandbox" in o && !o["sandbox"].Object? then o else o["sandbox" := Object(sandbox)]
  }

  function StripSandbox(sandbox: Fields, sockets: seq<string>, denied: seq<string>): Fields {
    StripAt(StripAt(sandbox, "network", "allowUnixSockets", sockets), "filesystem", "denyRead", denied)
  }

  function Stripped(o: Fields, sockets: seq<string>, denied: seq<string>): Fields {
    var o1 := if "sandbox" in o && o["sandbox"].Object?
              then o["sandbox" := Object(StripSandbox(o["sandbox"].fields, sockets, denied))]
              else o;
    StripAt(o1, "permissions", "deny", denied)
  }

  function MadeInSandbox(sandbox: Fields): set<Made> {
    MadeAt(sandbox, "network", "allowUnixSockets", Network, AllowUnixSockets)
    + MadeAt(sandbox, "filesystem", "denyRead", Filesystem, DenyRead)
  }

  function MadeFor(o: Fields): set<Made> {
    (if "sandbox" !in o then {Made(Claude, Sandbox)} else {})
    + (if "sandbox" in o && !o["sandbox"].Object? then {} else MadeInSandbox(Inner(o, "sandbox")))
    + MadeAt(o, "permissions", "deny", Permissions, Deny)
  }

  lemma ExtendsCommute(o: Fields, key1: string, field1: string, extra1: seq<string>, key2: string, field2: string, extra2: seq<string>)
    requires key1 != key2
    ensures ExtendAt(ExtendAt(o, key1, field1, extra1), key2, field2, extra2) == ExtendAt(ExtendAt(o, key2, field2, extra2), key1, field1, extra1)
  {
  }

  lemma StripCommutes(o: Fields, key1: string, field1: string, ours: seq<string>, key2: string, field2: string, extra2: seq<string>)
    requires key1 != key2
    ensures StripAt(ExtendAt(o, key2, field2, extra2), key1, field1, ours) == ExtendAt(StripAt(o, key1, field1, ours), key2, field2, extra2)
  {
  }

  /** Two `made` sets agree on the parts in `parts`. */
  ghost predicate Agree(made: set<Made>, other: set<Made>, parts: set<Part>) {
    forall part <- parts :: Made(Claude, part) in made <==> Made(Claude, part) in other
  }

  function Marks(parts: set<Part>): set<Made> {
    set part | part in parts :: Made(Claude, part)
  }

  const SANDBOX_PARTS: set<Part> := {Network, AllowUnixSockets, Filesystem, DenyRead}

  /** What is under one key says nothing about another. */
  lemma ExtendApart(o: Fields, key: string, field: string, extra: seq<string>, key2: string, field2: string, part: Part, fieldPart: Part)
    requires key != key2
    ensures var o' := ExtendAt(o, key, field, extra);
            && Inner(o', key2) == Inner(o, key2)
            && Reach(o', key2, field2) == Reach(o, key2, field2)
            && MadeAt(o', key2, field2, part, fieldPart) == MadeAt(o, key2, field2, part, fieldPart)
  {
  }

  lemma StripApart(o: Fields, key: string, field: string, ours: seq<string>, key2: string, field2: string, part: Part, fieldPart: Part)
    requires key != key2
    ensures var o' := StripAt(o, key, field, ours);
            && Reach(o', key2, field2) == Reach(o, key2, field2)
            && MadeAt(o', key2, field2, part, fieldPart) == MadeAt(o, key2, field2, part, fieldPart)
  {
  }

  lemma TakeSockets(sandbox: Fields, added: seq<string>, paths: seq<string>, sockets: seq<string>, made: set<Made>)
    requires Reach(sandbox, "network", "allowUnixSockets") ==> forall x <- added :: x in sockets
    requires Agree(made, MadeInSandbox(sandbox), {Network, AllowUnixSockets})
    ensures Take(ExtendSandbox(sandbox, added, paths), "network", "allowUnixSockets", sockets, Network, AllowUnixSockets, made)
         == (ExtendAt(StripAt(sandbox, "network", "allowUnixSockets", sockets), "filesystem", "denyRead", paths),
             made - {Made(Claude, Network), Made(Claude, AllowUnixSockets)})
  {
    var withPaths := ExtendAt(sandbox, "filesystem", "denyRead", paths);
    ExtendsCommute(sandbox, "network", "allowUnixSockets", added, "filesystem", "denyRead", paths);
    ExtendApart(sandbox, "filesystem", "denyRead", paths, "network", "allowUnixSockets", Network, AllowUnixSockets);
    TakeUndoes(withPaths, "network", "allowUnixSockets", added, sockets, Network, AllowUnixSockets, made);
    StripCommutes(sandbox, "network", "allowUnixSockets", sockets, "filesystem", "denyRead", paths);
  }

  lemma TakeSandbox(sandbox: Fields, added: seq<string>, paths: seq<string>, sockets: seq<string>, denied: seq<string>, made: set<Made>)
    requires Reach(sandbox, "network", "allowUnixSockets") ==> forall x <- added :: x in sockets
    requires Reach(sandbox, "filesystem", "denyRead") ==> forall x <- paths :: x in denied
    requires Agree(made, MadeInSandbox(sandbox), SANDBOX_PARTS)
    ensures var (o1, m1) := Take(ExtendSandbox(sandbox, added, paths), "network", "allowUnixSockets", sockets, Network, AllowUnixSockets, made);
            Take(o1, "filesystem", "denyRead", denied, Filesystem, DenyRead, m1)
            == (StripSandbox(sandbox, sockets, denied), made - Marks(SANDBOX_PARTS))
  {
    TakeSockets(sandbox, added, paths, sockets, made);
    var stripped := StripAt(sandbox, "network", "allowUnixSockets", sockets);
    var made1 := made - {Made(Claude, Network), Made(Claude, AllowUnixSockets)};
    StripApart(sandbox, "network", "allowUnixSockets", sockets, "filesystem", "denyRead", Filesystem, DenyRead);
    TakeUndoes(stripped, "filesystem", "denyRead", paths, denied, Filesystem, DenyRead, made1);
    SandboxMarks(made);
    hide Take, StripAt, ExtendAt, ExtendSandbox, MadeAt, Marks;
  }

  lemma SandboxMarks(made: set<Made>)
    ensures made - {Made(Claude, Network), Made(Claude, AllowUnixSockets)} - {Made(Claude, Filesystem), Made(Claude, DenyRead)} == made - Marks(SANDBOX_PARTS)
  {
  }

  // Hooks

  ghost predicate NoKannaHooks(group: Json) {
    HooksOf(group).Some? ==> forall hook <- HooksOf(group).value :: !KannaHook(hook)
  }

  function SessionStarts(o: Fields): seq<Json> {
    if "hooks" in o && o["hooks"].Object? then ItemsIn(o["hooks"].fields, "SessionStart") else []
  }

  ghost predicate Hooked(o: Fields) {
    exists group <- SessionStarts(o) :: !NoKannaHooks(group)
  }

  function Dropped(o: Fields): Fields {
    if "hooks" in o && o["hooks"].Object? && "SessionStart" in o["hooks"].fields && o["hooks"].fields["SessionStart"].Array?
    then o["hooks" := Object(o["hooks"].fields["SessionStart" := Array(CleanGroups(Filter(NotKannaGroup(), SessionStarts(o))))])]
    else o
  }

  lemma CleanGroupIsClean(group: Json)
    ensures NoKannaHooks(CleanGroup(group))
    ensures NoKannaHooks(group) ==> CleanGroup(group) == group && !KannaGroup(group)
  {
    if HooksOf(group).Some? {
      FilterOnly(NotKannaHook(), HooksOf(group).value);
      if NoKannaHooks(group) {
        FilterAll(NotKannaHook(), HooksOf(group).value);
        assert group.fields["hooks" := group.fields["hooks"]] == group.fields;
      }
    }
  }

  lemma CleanGroupsAreClean(groups: seq<Json>)
    ensures forall group <- CleanGroups(Filter(NotKannaGroup(), groups)) :: NoKannaHooks(group)
    ensures (forall group <- groups :: NoKannaHooks(group)) ==> CleanGroups(Filter(NotKannaGroup(), groups)) == groups
  {
    var kept := Filter(NotKannaGroup(), groups);
    forall i | 0 <= i < |kept|
      ensures NoKannaHooks(CleanGroups(kept)[i])
    {
      CleanGroupIsClean(kept[i]);
    }
    if forall group <- groups :: NoKannaHooks(group) {
      forall group <- groups
        ensures CleanGroup(group) == group && !KannaGroup(group)
      {
        CleanGroupIsClean(group);
      }
      FilterAll(NotKannaGroup(), groups);
    }
  }

  /** Dropping an earlier Kanna's hooks leaves none, and changes an object exactly when it held one. */
  lemma DroppedIsClean(o: Fields)
    ensures !Hooked(Dropped(o))
    ensures Dropped(o) == o <==> !Hooked(o)
  {
    CleanGroupsAreClean(SessionStarts(o));
    if forall group <- SessionStarts(o) :: NoKannaHooks(group) {
      var o' := Dropped(o);
      assert o'.Keys == o.Keys && forall key <- o :: o'[key] == o[key];
    }
  }

  lemma DropHookIsDropped(o: Fields, which: Which, made: set<Made>)
    requires Made(which, Hooks) !in made && Made(which, SessionStart) !in made
    ensures DropHook(o, which, made) == (Dropped(o), made)
  {
    if "hooks" in o && o["hooks"].Object? {
      assert o["hooks" := Object(o["hooks"].fields)] == o;
    }
  }

  /** The hooks of all groups that an earlier Kanna didn't leave, in their order. */
  function UserHooks(groups: seq<Json>): seq<Json> {
    if groups == [] then []
    else
      var hooks := HooksOf(groups[|groups| - 1]);
      UserHooks(groups[..|groups| - 1]) + if hooks.Some? then Filter(NotKannaHook(), hooks.value) else []
  }

  lemma {:induction false} FilterTwice(hooks: seq<Json>)
    ensures Filter(NotKannaHook(), Filter(NotKannaHook(), hooks)) == Filter(NotKannaHook(), hooks)
  {
    FilterOnly(NotKannaHook(), hooks);
    FilterAll(NotKannaHook(), Filter(NotKannaHook(), hooks));
  }

  function OwnHooks(group: Json): seq<Json> {
    if HooksOf(group).Some? then Filter(NotKannaHook(), HooksOf(group).value) else []
  }

  lemma {:induction false} OneMoreGroup(groups: seq<Json>, group: Json)
    ensures UserHooks(groups + [group]) == UserHooks(groups) + OwnHooks(group)
    ensures CleanGroups(groups + [group]) == CleanGroups(groups) + [CleanGroup(group)]
    ensures Filter(NotKannaGroup(), groups + [group]) == Filter(NotKannaGroup(), groups) + if KannaGroup(group) then [] else [group]
  {
    hide CleanGroup, KannaGroup, HooksOf;
    assert (groups + [group])[..|groups|] == groups;
  }

  lemma {:induction false} CleaningKeepsOne(group: Json)
    ensures OwnHooks(CleanGroup(group)) == OwnHooks(group)
    ensures KannaGroup(group) ==> OwnHooks(group) == []
  {
    if HooksOf(group).Some? {
      FilterTwice(HooksOf(group).value);
      if KannaGroup(group) {
        FilterNone(NotKannaHook(), HooksOf(group).value);
      }
    }
  }

  lemma {:induction false} CleaningKeepsHooks(groups: seq<Json>)
    ensures UserHooks(CleanGroups(Filter(NotKannaGroup(), groups))) == UserHooks(groups)
  {
    if groups != [] {
      var most, last := groups[..|groups| - 1], groups[|groups| - 1];
      assert groups == most + [last];
      hide *;
      CleaningKeepsHooks(most);
      OneMoreGroup(most, last);
      CleaningKeepsOne(last);
      var kept := Filter(NotKannaGroup(), most);
      OneMoreGroup(kept, last);
      OneMoreGroup(CleanGroups(kept), CleanGroup(last));
      assert UserHooks(most) + [] == UserHooks(most) && kept + [] == kept;
    }
  }

  /** Of the hooks that run at a session's start none but an earlier Kanna's goes, and the others keep their order. */
  lemma {:induction false} UserHooksStay(o: Fields)
    ensures UserHooks(SessionStarts(Dropped(o))) == UserHooks(SessionStarts(o))
    ensures forall group <- SessionStarts(Dropped(o)) :: NoKannaHooks(group)
  {
    CleaningKeepsHooks(SessionStarts(o));
    DroppedIsClean(o);
  }

  // What setting up does to the user's object, over any number of runs

  ghost predicate ReachSandbox(o: Fields, key: string, field: string) {
    ("sandbox" in o ==> o["sandbox"].Object?) && Reach(Inner(o, "sandbox"), key, field)
  }

  /** The sockets Kanna counts as its own after these runs. */
  ghost predicate OurSocket(o: Fields, configs: seq<Config>, x: string) {
    ReachSandbox(o, "network", "allowUnixSockets") && exists config <- configs :: x == config.socket
  }

  ghost predicate OurDenied(o: Fields, configs: seq<Config>, x: string) {
    || (ReachSandbox(o, "filesystem", "denyRead") && exists config <- configs :: x in Paths(config.keys))
    || (Reach(o, "permissions", "deny") && exists config <- configs :: x in Rules(config.keys))
  }

  /** What was added to each of the three lists. */
  datatype Added = Added(sockets: seq<string>, paths: seq<string>, rules: seq<string>)

  ghost predicate AddedIsOurs(o: Fields, a: Added, record: Record) {
    && (ReachSandbox(o, "network", "allowUnixSockets") ==> forall x <- a.sockets :: x in record.sockets)
    && (ReachSandbox(o, "filesystem", "denyRead") ==> forall x <- a.paths :: x in record.denied)
    && (Reach(o, "permissions", "deny") ==> forall x <- a.rules :: x in record.denied)
  }

  ghost predicate RecordIs(o: Fields, whole: set<Made>, configs: seq<Config>, record: Record) {
    && record.made == whole + MadeFor(o)
    && (forall x :: x in record.sockets <==> OurSocket(o, configs, x))
    && (forall x :: x in record.denied <==> OurDenied(o, configs, x))
  }

  /** The object as the runs left it: the user's own, with what was added at the end of the lists. */
  ghost predicate IsSetUp(o: Fields, whole: set<Made>, configs: seq<Config>, now: Fields, record: Record, a: Added) {
    && now == Extended(o, a.sockets, a.paths, a.rules)
    && AddedIsOurs(o, a, record)
    && RecordIs(o, whole, configs, record)
  }

  lemma SandboxFirst(o: Fields, record: Record, config: Config) returns (sockets: seq<string>, paths: seq<string>)
    ensures var e := AddToSandbox(o, record, config);
            && e.fields == WithSandbox(o, ExtendSandbox(Inner(o, "sandbox"), sockets, paths))
            && e.made == record.made + (if "sandbox" !in o then {Made(Claude, Sandbox)} else {})
                                     + (if "sandbox" in o && !o["sandbox"].Object? then {} else MadeInSandbox(Inner(o, "sandbox")))
            && e.sockets == (if ReachSandbox(o, "network", "allowUnixSockets") then RememberAll(record.sockets, [config.socket]) else record.sockets)
            && e.denied == (if ReachSandbox(o, "filesystem", "denyRead") then RememberAll(record.denied, Paths(config.keys)) else record.denied)
    ensures (forall x <- sockets :: x == config.socket) && (forall x <- paths :: x in Paths(config.keys))
  {
    var sandbox := Inner(o, "sandbox");
    sockets := Grow(ItemsIn(Inner(sandbox, "network"), "allowUnixSockets"), [], [config.socket]);
    paths := Grow(ItemsIn(Inner(sandbox, "filesystem"), "denyRead"), [], Paths(config.keys));
    GrowIsWithin(ItemsIn(Inner(sandbox, "network"), "allowUnixSockets"), [], [config.socket]);
    GrowIsWithin(ItemsIn(Inner(sandbox, "filesystem"), "denyRead"), [], Paths(config.keys));
    var made := EnsureObject(o, "sandbox", record.made, Sandbox).1;
    hide Grow, RememberAll, AddAt;
    AddAtFirst(sandbox, "network", "allowUnixSockets", Network, AllowUnixSockets, made, record.sockets, [config.socket]);
    var e1 := AddAt(sandbox, "network", "allowUnixSockets", Network, AllowUnixSockets, made, record.sockets, [config.socket]);
    AddAtFirst(e1.fields, "filesystem", "denyRead", Filesystem, DenyRead, e1.made, record.denied, Paths(config.keys));
    assert Inner(e1.fields, "filesystem") == Inner(sandbox, "filesystem");
    if "sandbox" !in o {
      var extended := Object(ExtendSandbox(map[], sockets, paths));
      assert o["sandbox" := Object(map[])]["sandbox" := extended] == o["sandbox" := extended];
    }
  }

  lemma SandboxFieldsAgain(sandbox: Fields, added: seq<string>, denials: seq<string>, record: Record, config: Config) returns (sockets: seq<string>, paths: seq<string>)
    ensures var e1 := AddAt(ExtendSandbox(sandbox, added, denials), "network", "allowUnixSockets", Network, AllowUnixSockets, record.made, record.sockets, [config.socket]);
            var e2 := AddAt(e1.fields, "filesystem", "denyRead", Filesystem, DenyRead, e1.made, record.denied, Paths(config.keys));
            && e2.fields == ExtendSandbox(sandbox, sockets, paths)
            && e2.made == record.made
            && e1.ours == (if Reach(sandbox, "network", "allowUnixSockets") then RememberAll(record.sockets, [config.socket]) else record.sockets)
            && e2.ours == (if Reach(sandbox, "filesystem", "denyRead") then RememberAll(record.denied, Paths(config.keys)) else record.denied)
    ensures (forall x <- sockets :: x in added || x == config.socket) && (forall x <- paths :: x in denials || x in Paths(config.keys))
  {
    sockets := Grow(ItemsIn(Inner(sandbox, "network"), "allowUnixSockets"), added, [config.socket]);
    paths := Grow(ItemsIn(Inner(sandbox, "filesystem"), "denyRead"), denials, Paths(config.keys));
    GrowIsWithin(ItemsIn(Inner(sandbox, "network"), "allowUnixSockets"), added, [config.socket]);
    GrowIsWithin(ItemsIn(Inner(sandbox, "filesystem"), "denyRead"), denials, Paths(config.keys));
    var withPaths := ExtendAt(sandbox, "filesystem", "denyRead", denials);
    ExtendsCommute(sandbox, "network", "allowUnixSockets", added, "filesystem", "denyRead", denials);
    AddAtAgain(withPaths, "network", "allowUnixSockets", added, Network, AllowUnixSockets, record.made, record.sockets, [config.socket]);
    assert Inner(withPaths, "network") == Inner(sandbox, "network");
    ExtendsCommute(sandbox, "network", "allowUnixSockets", sockets, "filesystem", "denyRead", denials);
    var withSockets := ExtendAt(sandbox, "network", "allowUnixSockets", sockets);
    AddAtAgain(withSockets, "filesystem", "denyRead", denials, Filesystem, DenyRead, record.made, record.denied, Paths(config.keys));
    assert Inner(withSockets, "filesystem") == Inner(sandbox, "filesystem");
  }

  /** The sandbox and the permissions of a set up object are apart. */
  lemma ExtendedSandbox(o: Fields, before: Fields, after: Fields, rules: seq<string>)
    ensures var now := ExtendAt(WithSandbox(o, before), "permissions", "deny", rules);
            && "sandbox" in now
            && (now["sandbox"].Object? <==> ("sandbox" in o ==> o["sandbox"].Object?))
            && (now["sandbox"].Object? ==>
                  && now["sandbox"] == Object(before)
                  && now["sandbox" := Object(after)] == ExtendAt(WithSandbox(o, after), "permissions", "deny", rules))
            && (!now["sandbox"].Object? ==> now == ExtendAt(WithSandbox(o, after), "permissions", "deny", rules))
  {
    if "sandbox" !in o || o["sandbox"].Object? {
      assert o["sandbox" := Object(before)]["sandbox" := Object(after)] == o["sandbox" := Object(after)];
    }
  }

  lemma SandboxAgain(o: Fields, a: Added, record: Record, config: Config) returns (sockets: seq<string>, paths: seq<string>)
    ensures var e := AddToSandbox(Extended(o, a.sockets, a.paths, a.rules), record, config);
            && e.fields == Extended(o, sockets, paths, a.rules)
            && e.made == record.made
            && e.sockets == (if ReachSandbox(o, "network", "allowUnixSockets") then RememberAll(record.sockets, [config.socket]) else record.sockets)
            && e.denied == (if ReachSandbox(o, "filesystem", "denyRead") then RememberAll(record.denied, Paths(config.keys)) else record.denied)
    ensures (forall x <- sockets :: x in a.sockets || x == config.socket) && (forall x <- paths :: x in a.paths || x in Paths(config.keys))
  {
    var sandbox := Inner(o, "sandbox");
    sockets, paths := SandboxFieldsAgain(sandbox, a.sockets, a.paths, record, config);
    ExtendedSandbox(o, ExtendSandbox(sandbox, a.sockets, a.paths), ExtendSandbox(sandbox, sockets, paths), a.rules);
  }

  /** Hooks are apart from everything setting up adds to. */
  lemma DroppedCommutes(o: Fields, a: Added)
    ensures Dropped(Extended(o, a.sockets, a.paths, a.rules)) == Extended(Dropped(o), a.sockets, a.paths, a.rules)
  {
    var sandbox := ExtendSandbox(Inner(o, "sandbox"), a.sockets, a.paths);
    DroppedApart(o, sandbox);
    DroppedBesides(WithSandbox(o, sandbox), a.rules);
    hide ExtendAt, WithSandbox, ExtendSandbox, Dropped;
  }

  lemma DroppedApart(o: Fields, sandbox: Fields)
    ensures Dropped(WithSandbox(o, sandbox)) == WithSandbox(Dropped(o), sandbox)
    ensures Inner(Dropped(o), "sandbox") == Inner(o, "sandbox")
  {
  }

  lemma DroppedBesides(o: Fields, rules: seq<string>)
    ensures Dropped(ExtendAt(o, "permissions", "deny", rules)) == ExtendAt(Dropped(o), "permissions", "deny", rules)
  {
    hide ExtendIn;
  }

  lemma DroppedFrame(o: Fields, configs: seq<Config>, x: string)
    ensures MadeFor(Dropped(o)) == MadeFor(o)
    ensures ReachSandbox(Dropped(o), "network", "allowUnixSockets") == ReachSandbox(o, "network", "allowUnixSockets")
    ensures ReachSandbox(Dropped(o), "filesystem", "denyRead") == ReachSandbox(o, "filesystem", "denyRead")
    ensures Reach(Dropped(o), "permissions", "deny") == Reach(o, "permissions", "deny")
    ensures OurSocket(Dropped(o), configs, x) <==> OurSocket(o, configs, x)
    ensures OurDenied(Dropped(o), configs, x) <==> OurDenied(o, configs, x)
  {
  }

  function SocketsAfter(o: Fields, sockets: seq<string>, config: Config): seq<string> {
    if ("sandbox" in o ==> o["sandbox"].Object?) && Reach(Inner(o, "sandbox"), "network", "allowUnixSockets")
    then RememberAll(sockets, [config.socket])
    else sockets
  }

  function PathsAfter(o: Fields, denied: seq<string>, config: Config): seq<string> {
    if ("sandbox" in o ==> o["sandbox"].Object?) && Reach(Inner(o, "sandbox"), "filesystem", "denyRead")
    then RememberAll(denied, Paths(config.keys))
    else denied
  }

  function DeniedAfter(o: Fields, denied: seq<string>, config: Config): seq<string> {
    var paths := PathsAfter(o, denied, config);
    if Reach(o, "permissions", "deny") then RememberAll(paths, Rules(config.keys)) else paths
  }

  ghost predicate AddedBy(a: Added, before: Added, config: Config) {
    && (forall x <- a.sockets :: x in before.sockets || x == config.socket)
    && (forall x <- a.paths :: x in before.paths || x in Paths(config.keys))
    && (forall x <- a.rules :: x in before.rules || x in Rules(config.keys))
  }

  const NOTHING := Added([], [], [])

  lemma WithSandboxApart(o: Fields, sandbox: Fields)
    ensures var o' := WithSandbox(o, sandbox);
            && Inner(o', "permissions") == Inner(o, "permissions")
            && Reach(o', "permissions", "deny") == Reach(o, "permissions", "deny")
            && MadeAt(o', "permissions", "deny", Permissions, Deny) == MadeAt(o, "permissions", "deny", Permissions, Deny)
  {
  }

  lemma PermissionsFirst(o: Fields, sandbox: Fields, made: set<Made>, denied: seq<string>, config: Config) returns (rules: seq<string>)
    ensures AddPermissions(WithSandbox(o, sandbox), made, denied, config)
         == Edit(ExtendAt(WithSandbox(o, sandbox), "permissions", "deny", rules),
                 made + MadeAt(o, "permissions", "deny", Permissions, Deny),
                 if Reach(o, "permissions", "deny") then RememberAll(denied, Rules(config.keys)) else denied)
    ensures forall x <- rules :: x in Rules(config.keys)
  {
    var user := ItemsIn(Inner(o, "permissions"), "deny");
    rules := Grow(user, [], Rules(config.keys));
    GrowIsWithin(user, [], Rules(config.keys));
    WithSandboxApart(o, sandbox);
    AddAtFirst(WithSandbox(o, sandbox), "permissions", "deny", Permissions, Deny, made, denied, Rules(config.keys));
  }

  lemma PermissionsAgain(o: Fields, sandbox: Fields, before: seq<string>, made: set<Made>, denied: seq<string>, config: Config) returns (rules: seq<string>)
    ensures AddPermissions(ExtendAt(WithSandbox(o, sandbox), "permissions", "deny", before), made, denied, config)
         == Edit(ExtendAt(WithSandbox(o, sandbox), "permissions", "deny", rules),
                 made,
                 if Reach(o, "permissions", "deny") then RememberAll(denied, Rules(config.keys)) else denied)
    ensures forall x <- rules :: x in before || x in Rules(config.keys)
  {
    var user := ItemsIn(Inner(o, "permissions"), "deny");
    rules := Grow(user, before, Rules(config.keys));
    GrowIsWithin(user, before, Rules(config.keys));
    WithSandboxApart(o, sandbox);
    AddAtAgain(WithSandbox(o, sandbox), "permissions", "deny", before, Permissions, Deny, made, denied, Rules(config.keys));
  }

  lemma AfterSandboxFirst(o: Fields, sandbox: Fields, e: SandboxEdit, config: Config) returns (rules: seq<string>)
    requires e.fields == WithSandbox(o, sandbox)
    requires Made(Claude, Hooks) !in e.made && Made(Claude, SessionStart) !in e.made
    ensures AfterSandbox(e, config)
         == (Dropped(ExtendAt(WithSandbox(o, sandbox), "permissions", "deny", rules)),
             Record(e.sockets,
                    if Reach(o, "permissions", "deny") then RememberAll(e.denied, Rules(config.keys)) else e.denied,
                    e.made + MadeAt(o, "permissions", "deny", Permissions, Deny)))
    ensures forall x <- rules :: x in Rules(config.keys)
  {
    rules := PermissionsFirst(o, sandbox, e.made, e.denied, config);
    DropHookIsDropped(AddPermissions(e.fields, e.made, e.denied, config).fields, Claude, e.made + MadeAt(o, "permissions", "deny", Permissions, Deny));
  }

  lemma AfterSandboxAgain(o: Fields, sandbox: Fields, before: seq<string>, e: SandboxEdit, config: Config) returns (rules: seq<string>)
    requires e.fields == ExtendAt(WithSandbox(o, sandbox), "permissions", "deny", before)
    requires Made(Claude, Hooks) !in e.made && Made(Claude, SessionStart) !in e.made
    ensures AfterSandbox(e, config)
         == (Dropped(ExtendAt(WithSandbox(o, sandbox), "permissions", "deny", rules)),
             Record(e.sockets, if Reach(o, "permissions", "deny") then RememberAll(e.denied, Rules(config.keys)) else e.denied, e.made))
    ensures forall x <- rules :: x in before || x in Rules(config.keys)
  {
    rules := PermissionsAgain(o, sandbox, before, e.made, e.denied, config);
    DropHookIsDropped(AddPermissions(e.fields, e.made, e.denied, config).fields, Claude, e.made);
  }

  lemma SetUpFirstObject(o: Fields, whole: set<Made>, config: Config) returns (a: Added)
    requires whole <= {Made(Claude, Whole)}
    ensures SetUpObject(o, Record([], [], whole), config)
         == (Dropped(Extended(o, a.sockets, a.paths, a.rules)),
             Record(SocketsAfter(o, [], config), DeniedAfter(o, [], config), whole + MadeFor(o)))
    ensures AddedBy(a, NOTHING, config)
  {
    NoHooksMade(o, whole);
    hide ExtendAt, ExtendSandbox, WithSandbox, Dropped, AddToSandbox, AfterSandbox, RememberAll, Reach, MadeAt, MadeFor, MadeInSandbox, Paths, Rules, Inner;
    var record := Record([], [], whole);
    var sockets, paths := SandboxFirst(o, record, config);
    var e := AddToSandbox(o, record, config);
    MadeOnceMore(o, whole, e.made);
    var rules := AfterSandboxFirst(o, ExtendSandbox(Inner(o, "sandbox"), sockets, paths), e, config);
    a := Added(sockets, paths, rules);
  }

  lemma NoHooksMade(o: Fields, whole: set<Made>)
    requires whole <= {Made(Claude, Whole)}
    ensures Made(Claude, Hooks) !in whole + MadeFor(o) && Made(Claude, SessionStart) !in whole + MadeFor(o)
  {
  }

  lemma MadeOnceMore(o: Fields, whole: set<Made>, made: set<Made>)
    requires made == whole + (if "sandbox" !in o then {Made(Claude, Sandbox)} else {})
                           + (if "sandbox" in o && !o["sandbox"].Object? then {} else MadeInSandbox(Inner(o, "sandbox")))
    ensures made + MadeAt(o, "permissions", "deny", Permissions, Deny) == whole + MadeFor(o)
    ensures made <= whole + MadeFor(o)
  {
  }

  lemma SetUpAgainObject(o: Fields, whole: set<Made>, record: Record, before: Added, config: Config) returns (a: Added)
    requires whole <= {Made(Claude, Whole)} && record.made == whole + MadeFor(o)
    ensures SetUpObject(Extended(o, before.sockets, before.paths, before.rules), record, config)
         == (Dropped(Extended(o, a.sockets, a.paths, a.rules)),
             Record(SocketsAfter(o, record.sockets, config), DeniedAfter(o, record.denied, config), record.made))
    ensures AddedBy(a, before, config)
  {
    NoHooksMade(o, whole);
    hide ExtendAt, ExtendSandbox, WithSandbox, Dropped, AddToSandbox, AfterSandbox, RememberAll, Reach, MadeAt, MadeFor, MadeInSandbox, Paths, Rules, Inner;
    var sockets, paths := SandboxAgain(o, before, record, config);
    var e := AddToSandbox(Extended(o, before.sockets, before.paths, before.rules), record, config);
    var rules := AfterSandboxAgain(o, ExtendSandbox(Inner(o, "sandbox"), sockets, paths), before.rules, e, config);
    a := Added(sockets, paths, rules);
  }

  /** The record counts as Kanna's what this run added to a list it could reach. */
  lemma OursAfter(o: Fields, sockets: seq<string>, denied: seq<string>, config: Config)
    ensures forall x :: x in SocketsAfter(o, sockets, config) <==> x in sockets || OurSocket(o, [config], x)
    ensures forall x :: x in DeniedAfter(o, denied, config) <==> x in denied || OurDenied(o, [config], x)
  {
    RememberAllIs(sockets, [config.socket]);
    RememberAllIs(denied, Paths(config.keys));
    RememberAllIs(PathsAfter(o, denied, config), Rules(config.keys));
  }

  lemma OursGrow(o: Fields, configs: seq<Config>, config: Config)
    ensures forall x :: OurSocket(o, configs + [config], x) <==> OurSocket(o, configs, x) || OurSocket(o, [config], x)
    ensures forall x :: OurDenied(o, configs + [config], x) <==> OurDenied(o, configs, x) || OurDenied(o, [config], x)
  {
  }

  lemma StaysOurs(o: Fields, before: Added, a: Added, record: Record, record': Record, config: Config)
    requires AddedIsOurs(o, before, record) && AddedBy(a, before, config)
    requires record'.sockets == SocketsAfter(o, record.sockets, config) && record'.denied == DeniedAfter(o, record.denied, config)
    ensures AddedIsOurs(o, a, record')
  {
    OursAfter(o, record.sockets, record.denied, config);
  }

  lemma SetUpFirst(o: Fields, whole: set<Made>, config: Config) returns (a: Added)
    requires whole <= {Made(Claude, Whole)}
    ensures var (now, record) := SetUpObject(o, Record([], [], whole), config);
            IsSetUp(Dropped(o), whole, [config], now, record, a)
  {
    hide Extended, Dropped, SetUpObject, SocketsAfter, DeniedAfter;
    a := SetUpFirstObject(o, whole, config);
    var (now, record) := SetUpObject(o, Record([], [], whole), config);
    DroppedCommutes(o, a);
    StaysOurs(o, NOTHING, a, Record([], [], whole), record, config);
    OursAfter(o, [], [], config);
    forall x {
      DroppedFrame(o, [config], x);
    }
    DroppedFrame(o, [config], "");
    assert AddedIsOurs(Dropped(o), a, record);
    assert RecordIs(Dropped(o), whole, [config], record);
  }

  lemma SetUpAgain(o: Fields, whole: set<Made>, configs: seq<Config>, now: Fields, record: Record, before: Added, config: Config) returns (a: Added)
    requires whole <= {Made(Claude, Whole)} && Dropped(o) == o
    requires IsSetUp(o, whole, configs, now, record, before)
    ensures var (now', record') := SetUpObject(now, record, config);
            IsSetUp(o, whole, configs + [config], now', record', a)
  {
    a := SetUpAgainObject(o, whole, record, before, config);
    var (now', record') := SetUpObject(now, record, config);
    DroppedCommutes(o, a);
    StaysOurs(o, before, a, record, record', config);
    OursAfter(o, record.sockets, record.denied, config);
    OursGrow(o, configs, config);
    assert RecordIs(o, whole, configs + [config], record');
  }

  // Removing

  /** The user's object with an empty sandbox Kanna made gone again. */
  lemma PruneSandbox(o: Fields, stripped: Fields, rules: seq<string>, made: set<Made>)
    requires Made(Claude, Sandbox) in made <==> "sandbox" !in o
    requires "sandbox" !in o ==> stripped == map[]
    ensures Prune(ExtendAt(WithSandbox(o, stripped), "permissions", "deny", rules), "sandbox", made, Claude, Sandbox)
         == (ExtendAt(if "sandbox" in o then WithSandbox(o, stripped) else o, "permissions", "deny", rules), made - {Made(Claude, Sandbox)})
  {
    if "sandbox" !in o {
      var o1 := ExtendAt(WithSandbox(o, stripped), "permissions", "deny", rules);
      assert o1 - {"sandbox"} == ExtendAt(o, "permissions", "deny", rules);
    } else {
      assert made - {Made(Claude, Sandbox)} == made;
    }
  }

  lemma {:induction false} SandboxMadeAgrees(o: Fields, whole: set<Made>)
    requires whole <= {Made(Claude, Whole)} && ("sandbox" in o ==> o["sandbox"].Object?)
    ensures Agree(whole + MadeFor(o), MadeInSandbox(Inner(o, "sandbox")), SANDBOX_PARTS)
  {
    hide Inner;
  }

  lemma {:induction false} SandboxIsOurs(o: Fields, a: Added, record: Record)
    requires AddedIsOurs(o, a, record) && ("sandbox" in o ==> o["sandbox"].Object?)
    ensures Reach(Inner(o, "sandbox"), "network", "allowUnixSockets") ==> forall x <- a.sockets :: x in record.sockets
    ensures Reach(Inner(o, "sandbox"), "filesystem", "denyRead") ==> forall x <- a.paths :: x in record.denied
  {
    hide Inner, Reach;
  }

  lemma {:induction false} TakeSandboxFrom(o: Fields, whole: set<Made>, a: Added, record: Record)
    requires whole <= {Made(Claude, Whole)} && record.made == whole + MadeFor(o) && AddedIsOurs(o, a, record)
    ensures TakeFromSandbox(Extended(o, a.sockets, a.paths, a.rules), record)
         == (ExtendAt(WithSandbox(o, StripSandbox(Inner(o, "sandbox"), record.sockets, record.denied)), "permissions", "deny", a.rules),
             MadeBesidesSandbox(o, record.made))
  {
    var sandbox := Inner(o, "sandbox");
    var stripped := StripSandbox(sandbox, record.sockets, record.denied);
    ExtendedSandbox(o, ExtendSandbox(sandbox, a.sockets, a.paths), stripped, a.rules);
    if "sandbox" in o ==> o["sandbox"].Object? {
      SandboxMadeAgrees(o, whole);
      SandboxIsOurs(o, a, record);
      hide MadeFor, AddedIsOurs, Reach, Agree, MadeInSandbox;
      TakeSandbox(sandbox, a.sockets, a.paths, record.sockets, record.denied, record.made);
    }
    hide ExtendAt, WithSandbox, StripSandbox, ExtendSandbox, Inner, Take, Marks, MadeFor, AddedIsOurs;
  }

  /** What stays made once the sandbox's parts are forgotten. */
  function MadeBesidesSandbox(o: Fields, made: set<Made>): set<Made> {
    if "sandbox" in o && !o["sandbox"].Object? then made else made - Marks(SANDBOX_PARTS)
  }

  lemma MadeIsForgotten(o: Fields, whole: set<Made>, made: set<Made>)
    requires whole <= {Made(Claude, Whole)} && made == whole + MadeFor(o)
    ensures Made(Claude, Sandbox) in MadeBesidesSandbox(o, made) <==> "sandbox" !in o
    ensures var rest := MadeBesidesSandbox(o, made) - {Made(Claude, Sandbox)};
            && Agree(rest, MadeAt(o, "permissions", "deny", Permissions, Deny), {Permissions, Deny})
            && rest - {Made(Claude, Permissions), Made(Claude, Deny)} == whole
  {
  }

  lemma TakePermissions(o: Fields, base: Fields, a: Added, record: Record, made: set<Made>)
    requires Inner(base, "permissions") == Inner(o, "permissions")
    requires Reach(base, "permissions", "deny") == Reach(o, "permissions", "deny")
    requires MadeAt(base, "permissions", "deny", Permissions, Deny) == MadeAt(o, "permissions", "deny", Permissions, Deny)
    requires Agree(made, MadeAt(o, "permissions", "deny", Permissions, Deny), {Permissions, Deny}) && AddedIsOurs(o, a, record)
    ensures Take(ExtendAt(base, "permissions", "deny", a.rules), "permissions", "deny", record.denied, Permissions, Deny, made)
         == (StripAt(base, "permissions", "deny", record.denied), made - {Made(Claude, Permissions), Made(Claude, Deny)})
  {
    TakeUndoes(base, "permissions", "deny", a.rules, record.denied, Permissions, Deny, made);
  }

  lemma TakeSandboxAndPermissions(o: Fields, whole: set<Made>, record: Record, a: Added)
    requires whole <= {Made(Claude, Whole)} && record.made == whole + MadeFor(o) && AddedIsOurs(o, a, record)
    ensures TakeFromObject(Extended(o, a.sockets, a.paths, a.rules), record)
         == DropHook(Stripped(o, record.sockets, record.denied), Claude, whole)
  {
    hide ExtendAt, StripSandbox, TakeFromSandbox, DropHook, Prune, Take, MadeFor, MadeBesidesSandbox, StripAt, MadeAt, Reach;
    var stripped := StripSandbox(Inner(o, "sandbox"), record.sockets, record.denied);
    TakeSandboxFrom(o, whole, a, record);
    MadeIsForgotten(o, whole, record.made);
    var made1 := MadeBesidesSandbox(o, record.made);
    StripOfNothing(record.sockets, record.denied);
    PruneSandbox(o, stripped, a.rules, made1);
    var base := if "sandbox" in o then WithSandbox(o, stripped) else o;
    WithSandboxApart(o, stripped);
    TakePermissions(o, base, a, record, made1 - {Made(Claude, Sandbox)});
  }

  lemma StripOfNothing(sockets: seq<string>, denied: seq<string>)
    ensures StripSandbox(map[], sockets, denied) == map[]
  {
  }

  lemma StrippedKeepsHooks(o: Fields, sockets: seq<string>, denied: seq<string>)
    ensures Dropped(Stripped(o, sockets, denied)) == Stripped(Dropped(o), sockets, denied)
  {
  }

  lemma TakeAll(o: Fields, whole: set<Made>, configs: seq<Config>, now: Fields, record: Record, a: Added)
    requires whole <= {Made(Claude, Whole)} && Dropped(o) == o
    requires IsSetUp(o, whole, configs, now, record, a)
    ensures TakeFromObject(now, record) == (Stripped(o, record.sockets, record.denied), whole)
  {
    TakeSandboxAndPermissions(o, whole, record, a);
    DropHookIsDropped(Stripped(o, record.sockets, record.denied), Claude, whole);
    StrippedKeepsHooks(o, record.sockets, record.denied);
  }

  // Whole runs

  function DroppedFile(file: File): File {
    if file.Holds? then Holds(Dropped(file.fields)) else file
  }

  ghost predicate OnlyClaude(made: set<Made>) {
    forall m <- made :: m.which.Claude?
  }

  lemma CodexOnlyLosesHooks(file: File, made: set<Made>)
    requires OnlyClaude(made)
    ensures DropHooksIn(file, Codex, made) == (DroppedFile(file), made)
  {
    if file.Holds? {
      DropHookIsDropped(file.fields, Codex, made);
      assert Forget(made, Codex) == made;
    }
  }

  /** The object setting up starts from: the user's without an earlier Kanna's hooks, or an empty one it makes. */
  function Base(claude: File): Fields {
    if claude.Holds? then Dropped(claude.fields) else map[]
  }

  function WholeMark(claude: File): set<Made> {
    if claude.Absent? then {Made(Claude, Whole)} else {}
  }

  ghost predicate AfterSetUps(claude: File, codex: File, configs: seq<Config>, s: State, a: Added) {
    && s.codex == DroppedFile(codex)
    && if claude.Unusable? then s.claude == claude && s.record == NO_RECORD
       else s.claude.Holds? && IsSetUp(Base(claude), WholeMark(claude), configs, s.claude.fields, s.record, a)
  }

  lemma SetUpMarksAreClaudes(o: Fields, whole: set<Made>, configs: seq<Config>, now: Fields, record: Record, a: Added)
    requires whole <= {Made(Claude, Whole)} && IsSetUp(o, whole, configs, now, record, a)
    ensures OnlyClaude(record.made)
  {
    hide Extended, AddedIsOurs, OurSocket, OurDenied;
  }

  lemma FirstSetUp(claude: File, codex: File, config: Config) returns (a: Added)
    ensures AfterSetUps(claude, codex, [config], SetUp(State(claude, codex, NO_RECORD), config), a)
  {
    hide SetUpObject, IsSetUp, Dropped, DropHooksIn;
    a := NOTHING;
    if claude.Unusable? {
      CodexOnlyLosesHooks(codex, {});
    } else {
      var o := if claude.Holds? then claude.fields else map[];
      EmptyHasNoHooks();
      a := SetUpFirst(o, WholeMark(claude), config);
      var (now, record) := SetUpObject(o, Record([], [], WholeMark(claude)), config);
      SetUpMarksAreClaudes(Base(claude), WholeMark(claude), [config], now, record, a);
      assert NO_RECORD.(made := NO_RECORD.made + {Made(Claude, Whole)}) == Record([], [], {Made(Claude, Whole)});
      CodexOnlyLosesHooks(codex, record.made);
    }
  }

  lemma EmptyHasNoHooks()
    ensures Dropped(map[]) == map[]
  {
  }

  lemma NextSetUp(claude: File, codex: File, configs: seq<Config>, s: State, before: Added, config: Config) returns (a: Added)
    requires AfterSetUps(claude, codex, configs, s, before)
    ensures AfterSetUps(claude, codex, configs + [config], SetUp(s, config), a)
  {
    hide SetUpObject, IsSetUp, Dropped, DropHooksIn;
    a := before;
    BaseHasNoHooks(claude);
    BaseHasNoHooks(codex);
    if claude.Unusable? {
      CodexOnlyLosesHooks(s.codex, {});
    } else {
      a := SetUpAgain(Base(claude), WholeMark(claude), configs, s.claude.fields, s.record, before, config);
      var (now, record) := SetUpObject(s.claude.fields, s.record, config);
      SetUpMarksAreClaudes(Base(claude), WholeMark(claude), configs + [config], now, record, a);
      CodexOnlyLosesHooks(s.codex, record.made);
    }
  }

  lemma BaseHasNoHooks(file: File)
    ensures Dropped(Base(file)) == Base(file)
  {
    if file.Holds? {
      DroppedIsClean(file.fields);
      DroppedIsClean(Base(file));
    }
  }

  lemma {:induction false} AllSetUps(claude: File, codex: File, configs: seq<Config>) returns (a: Added)
    requires configs != []
    ensures AfterSetUps(claude, codex, configs, SetUpAll(State(claude, codex, NO_RECORD), configs), a)
  {
    hide SetUp, AfterSetUps;
    var n := |configs| - 1;
    if n == 0 {
      assert configs == [configs[0]];
      assert SetUpAll(State(claude, codex, NO_RECORD), configs[..0]) == State(claude, codex, NO_RECORD);
      a := FirstSetUp(claude, codex, configs[0]);
    } else {
      var before := AllSetUps(claude, codex, configs[..n]);
      a := NextSetUp(claude, codex, configs[..n], SetUpAll(State(claude, codex, NO_RECORD), configs[..n]), before, configs[n]);
      assert configs == configs[..n] + [configs[n]];
    }
  }

  lemma {:induction false} RemoveWithNoSetUp(claude: File, codex: File)
    ensures Remove(State(claude, codex, NO_RECORD)) == State(DroppedFile(claude), DroppedFile(codex), NO_RECORD)
  {
    hide TakeFromObject, Dropped, DropHooksIn;
    CodexOnlyLosesHooks(codex, {});
    if claude.Holds? {
      NothingTaken(claude.fields);
    }
  }

  lemma {:induction false} RemoveAfterSetUps(claude: File, codex: File, configs: seq<Config>, s: State, a: Added)
    requires AfterSetUps(claude, codex, configs, s, a)
    ensures Remove(s)
         == State(if claude.Holds? then Holds(Stripped(Base(claude), s.record.sockets, s.record.denied)) else claude, DroppedFile(codex), NO_RECORD)
    ensures claude.Holds? ==> RecordIs(Base(claude), {}, configs, s.record)
  {
    hide TakeFromObject, Dropped, DropHooksIn, RecordIs, AddedIsOurs, Extended;
    BaseHasNoHooks(claude);
    BaseHasNoHooks(codex);
    if claude.Unusable? {
      CodexOnlyLosesHooks(s.codex, {});
    } else {
      SetUpMarksAreClaudes(Base(claude), WholeMark(claude), configs, s.claude.fields, s.record, a);
      CodexOnlyLosesHooks(s.codex, s.record.made);
      TakeAll(Base(claude), WholeMark(claude), configs, s.claude.fields, s.record, a);
      if claude.Absent? {
        StrippedSame(map[], s.record.sockets, s.record.denied);
      }
    }
  }

  /** Removing after any number of set ups leaves the user's object without the hooks, and without Kanna's entries in its own lists. */
  lemma {:induction false} RemovedFile(claude: File, codex: File, configs: seq<Config>) returns (sockets: seq<string>, denied: seq<string>)
    ensures Remove(SetUpAll(State(claude, codex, NO_RECORD), configs))
         == State(if claude.Holds? then Holds(Stripped(Base(claude), sockets, denied)) else claude, DroppedFile(codex), NO_RECORD)
    ensures claude.Holds? ==> forall x :: x in sockets <==> OurSocket(Base(claude), configs, x)
    ensures claude.Holds? ==> forall x :: x in denied <==> OurDenied(Base(claude), configs, x)
  {
    hide Remove, Stripped, IsSetUp, SetUp;
    if configs == [] {
      sockets, denied := [], [];
      RemoveWithNoSetUp(claude, codex);
      NothingTaken(Base(claude));
    } else {
      var s := SetUpAll(State(claude, codex, NO_RECORD), configs);
      var a := AllSetUps(claude, codex, configs);
      sockets, denied := s.record.sockets, s.record.denied;
      RemoveAfterSetUps(claude, codex, configs, s, a);
    }
  }

  /** With no record, removing only drops hooks. */
  lemma NothingTaken(o: Fields)
    ensures TakeFromObject(o, NO_RECORD) == (Dropped(o), {})
    ensures Stripped(o, [], []) == o
  {
    StrippedSame(o, [], []);
    assert NothingIn(o, [], []);
    DropHookIsDropped(o, Claude, {});
    if "sandbox" in o && o["sandbox"].Object? {
      TakesNothing(o["sandbox"].fields, "network", "allowUnixSockets", Network, AllowUnixSockets);
      TakesNothing(o["sandbox"].fields, "filesystem", "denyRead", Filesystem, DenyRead);
      assert o["sandbox" := Object(o["sandbox"].fields)] == o;
    }
    TakesNothing(o, "permissions", "deny", Permissions, Deny);
    hide Dropped, Stripped, NothingIn, DropHook, Take;
  }

  lemma TakesNothing(o: Fields, key: string, field: string, part: Part, fieldPart: Part)
    ensures Take(o, key, field, [], part, fieldPart, {}) == (o, {})
  {
    if key in o && o[key].Object? {
      var inner := o[key].fields;
      if field in inner && inner[field].Array? {
        FilterAll(NotOurs([]), inner[field].items);
        assert inner[field := Array(inner[field].items)] == inner;
      }
      assert o[key := Object(inner)] == o;
    }
  }

  // When nothing is stripped

  ghost predicate FreeOf(list: seq<Json>, ours: seq<string>) {
    forall v <- list :: !(v.String? && v.text in ours)
  }

  ghost predicate NothingIn(o: Fields, sockets: seq<string>, denied: seq<string>) {
    && FreeOf(ItemsIn(Inner(Inner(o, "sandbox"), "network"), "allowUnixSockets"), sockets)
    && FreeOf(ItemsIn(Inner(Inner(o, "sandbox"), "filesystem"), "denyRead"), denied)
    && FreeOf(ItemsIn(Inner(o, "permissions"), "deny"), denied)
  }

  lemma StripInSame(o: Fields, field: string, ours: seq<string>)
    ensures StripIn(o, field, ours) == o <==> FreeOf(ItemsIn(o, field), ours)
  {
    if field in o && o[field].Array? {
      FilterOnly(NotOurs(ours), o[field].items);
      if FreeOf(o[field].items, ours) {
        FilterAll(NotOurs(ours), o[field].items);
        assert o[field := o[field]] == o;
      } else {
        var v :| v in o[field].items && v.String? && v.text in ours;
        assert v !in Filter(NotOurs(ours), o[field].items);
        assert StripIn(o, field, ours)[field] == Array(Filter(NotOurs(ours), o[field].items));
      }
    }
  }

  lemma StripAtSame(o: Fields, key: string, field: string, ours: seq<string>)
    ensures StripAt(o, key, field, ours) == o <==> FreeOf(ItemsIn(Inner(o, key), field), ours)
  {
    if key in o && o[key].Object? {
      StripInSame(o[key].fields, field, ours);
      assert o[key := o[key]] == o;
      assert StripAt(o, key, field, ours)[key] == Object(StripIn(o[key].fields, field, ours));
    }
  }

  lemma StripSandboxSame(sandbox: Fields, sockets: seq<string>, denied: seq<string>)
    ensures StripSandbox(sandbox, sockets, denied) == sandbox <==>
            && FreeOf(ItemsIn(Inner(sandbox, "network"), "allowUnixSockets"), sockets)
            && FreeOf(ItemsIn(Inner(sandbox, "filesystem"), "denyRead"), denied)
  {
    var first := StripAt(sandbox, "network", "allowUnixSockets", sockets);
    StripAtSame(sandbox, "network", "allowUnixSockets", sockets);
    StripAtSame(sandbox, "filesystem", "denyRead", denied);
    StripAtSame(first, "filesystem", "denyRead", denied);
    if StripSandbox(sandbox, sockets, denied) == sandbox {
      assert forall key <- sandbox :: key != "filesystem" ==> StripSandbox(sandbox, sockets, denied)[key] == first[key];
      assert forall key <- sandbox :: key != "network" ==> first[key] == sandbox[key];
      assert first == sandbox;
    }
  }

  lemma StrippedSame(o: Fields, sockets: seq<string>, denied: seq<string>)
    ensures Stripped(o, sockets, denied) == o <==> NothingIn(o, sockets, denied)
  {
    var first := if "sandbox" in o && o["sandbox"].Object?
                 then o["sandbox" := Object(StripSandbox(o["sandbox"].fields, sockets, denied))]
                 else o;
    StripSandboxSame(Inner(o, "sandbox"), sockets, denied);
    StripAtSame(o, "permissions", "deny", denied);
    StripAtSame(first, "permissions", "deny", denied);
    assert "sandbox" in o ==> o["sandbox" := o["sandbox"]] == o;
    assert "sandbox" in o && o["sandbox"].Object? ==> first["sandbox"] == Object(StripSandbox(o["sandbox"].fields, sockets, denied));
    assert "sandbox" in o ==> Stripped(o, sockets, denied)["sandbox"] == first["sandbox"];
    assert Inner(first, "permissions") == Inner(o, "permissions");
  }

  // Main result

  /** None of the user's own lists holds an entry that these runs would count as Kanna's. */
  ghost predicate Clean(file: File, configs: seq<Config>) {
    file.Holds? ==>
      var o := file.fields;
      && (forall x :: OurSocket(o, configs, x) ==> String(x) !in ItemsIn(Inner(Inner(o, "sandbox"), "network"), "allowUnixSockets"))
      && (forall x :: OurDenied(o, configs, x) ==> String(x) !in ItemsIn(Inner(Inner(o, "sandbox"), "filesystem"), "denyRead"))
      && (forall x :: OurDenied(o, configs, x) ==> String(x) !in ItemsIn(Inner(o, "permissions"), "deny"))
  }

  ghost predicate HookedFile(file: File) {
    file.Holds? && Hooked(file.fields)
  }

  /**
   Setting up any number of times, with any sockets and keys, and then removing gives back both of the
   user's files, absent or whatever they held, exactly when their lists held none of Kanna's entries and
   neither held an earlier Kanna's hook.
   */
  lemma {:induction false} RemoveUndoesSetUps(claude: File, codex: File, configs: seq<Config>)
    ensures Remove(SetUpAll(State(claude, codex, NO_RECORD), configs)) == State(claude, codex, NO_RECORD)
            <==> Clean(claude, configs) && !HookedFile(claude) && !HookedFile(codex)
  {
    hide Remove, SetUpAll, Stripped, Dropped, Clean, Hooked;
    var sockets, denied := RemovedFile(claude, codex, configs);
    if codex.Holds? {
      DroppedIsClean(codex.fields);
    }
    if claude.Holds? {
      var o := claude.fields;
      DroppedIsClean(o);
      StrippedSame(o, sockets, denied);
      CleanMeans(o, configs, sockets, denied);
      if Stripped(Dropped(o), sockets, denied) == o {
        StrippedHooks(o, sockets, denied);
      }
    } else {
      NothingToClean(claude, configs);
    }
  }

  lemma NothingToClean(file: File, configs: seq<Config>)
    requires !file.Holds?
    ensures Clean(file, configs)
  {
  }

  lemma CleanMeans(o: Fields, configs: seq<Config>, sockets: seq<string>, denied: seq<string>)
    requires forall x :: x in sockets <==> OurSocket(Dropped(o), configs, x)
    requires forall x :: x in denied <==> OurDenied(Dropped(o), configs, x)
    ensures Clean(Holds(o), configs) <==> NothingIn(o, sockets, denied)
  {
    forall x {
      DroppedFrame(o, configs, x);
    }
    var a := ItemsIn(Inner(Inner(o, "sandbox"), "network"), "allowUnixSockets");
    var b := ItemsIn(Inner(Inner(o, "sandbox"), "filesystem"), "denyRead");
    var c := ItemsIn(Inner(o, "permissions"), "deny");
    assert FreeOf(a, sockets) <==> forall x :: x in sockets ==> String(x) !in a;
    assert FreeOf(b, denied) <==> forall x :: x in denied ==> String(x) !in b;
    assert FreeOf(c, denied) <==> forall x :: x in denied ==> String(x) !in c;
  }

  /** An object given back whole had no hook to drop. */
  lemma StrippedHooks(o: Fields, sockets: seq<string>, denied: seq<string>)
    requires Stripped(Dropped(o), sockets, denied) == o
    ensures Dropped(o) == o
  {
    assert "hooks" in o ==> Stripped(Dropped(o), sockets, denied)["hooks"] == Dropped(o)["hooks"];
  }

  // What setting up brings about

  function AllowedSockets(o: Fields): seq<Json> {
    ItemsIn(Inner(Inner(o, "sandbox"), "network"), "allowUnixSockets")
  }

  function DeniedPaths(o: Fields): seq<Json> {
    ItemsIn(Inner(Inner(o, "sandbox"), "filesystem"), "denyRead")
  }

  function DeniedRules(o: Fields): seq<Json> {
    ItemsIn(Inner(o, "permissions"), "deny")
  }

  /** The list begins as it did, holds every entry, and else nothing new. */
  ghost predicate Gained(before: seq<Json>, after: seq<Json>, entries: seq<string>) {
    && before <= after
    && (forall x <- entries :: String(x) in after)
    && forall v <- after :: v in before || (v.String? && v.text in entries)
  }

  lemma {:induction false} AddAllGains(list: seq<Json>, entries: seq<string>)
    ensures Gained(list, AddAll(list, entries), entries)
  {
    if entries != [] {
      var most, last := entries[..|entries| - 1], entries[|entries| - 1];
      AddAllGains(list, most);
      assert entries == most + [last];
    }
  }

  ghost predicate GainedIf(way: bool, before: seq<Json>, after: seq<Json>, entries: seq<string>) {
    if way then Gained(before, after, entries) else after == before
  }

  ghost predicate SameBeside(o: Fields, after: Fields, key: string) {
    forall other :: other != key ==> (other in after <==> other in o) && (other in o ==> after[other] == o[other])
  }

  lemma {:induction false} AddInGains(o: Fields, field: string, part: Part, made: set<Made>, ours: seq<string>, entries: seq<string>)
    ensures var after := AddIn(o, field, part, made, ours, entries).fields;
            (ReachIn(after, field) <==> ReachIn(o, field)) && GainedIf(ReachIn(o, field), ItemsIn(o, field), ItemsIn(after, field), entries)
  {
    AddAllGains(ItemsIn(o, field), entries);
    hide AddAll, Gained, RememberAll;
  }

  lemma {:induction false} AddAtGains(o: Fields, key: string, field: string, part: Part, fieldPart: Part, made: set<Made>, ours: seq<string>, entries: seq<string>)
    ensures var after := AddAt(o, key, field, part, fieldPart, made, ours, entries).fields;
            && (Reach(after, key, field) <==> Reach(o, key, field))
            && GainedIf(Reach(o, key, field), ItemsIn(Inner(o, key), field), ItemsIn(Inner(after, key), field), entries)
            && SameBeside(o, after, key)
  {
    hide AddIn, Gained, ReachIn, ItemsIn;
    AddInGains(Inner(o, key), field, fieldPart, EnsureObject(o, key, made, part).1, ours, entries);
  }

  /** Which of the three lists can be added to. */
  datatype Ways = Ways(sockets: bool, paths: bool, rules: bool)

  ghost function WaysOf(o: Fields): Ways {
    Ways(ReachSandbox(o, "network", "allowUnixSockets"), ReachSandbox(o, "filesystem", "denyRead"), Reach(o, "permissions", "deny"))
  }

  lemma {:induction false} SandboxFieldsGain(sandbox: Fields, record: Record, made: set<Made>, config: Config)
    ensures var e1 := AddAt(sandbox, "network", "allowUnixSockets", Network, AllowUnixSockets, made, record.sockets, [config.socket]);
            var after := AddAt(e1.fields, "filesystem", "denyRead", Filesystem, DenyRead, e1.made, record.denied, Paths(config.keys)).fields;
            && (Reach(after, "network", "allowUnixSockets") <==> Reach(sandbox, "network", "allowUnixSockets"))
            && (Reach(after, "filesystem", "denyRead") <==> Reach(sandbox, "filesystem", "denyRead"))
            && GainedIf(Reach(sandbox, "network", "allowUnixSockets"),
                        ItemsIn(Inner(sandbox, "network"), "allowUnixSockets"), ItemsIn(Inner(after, "network"), "allowUnixSockets"), [config.socket])
            && GainedIf(Reach(sandbox, "filesystem", "denyRead"),
                        ItemsIn(Inner(sandbox, "filesystem"), "denyRead"), ItemsIn(Inner(after, "filesystem"), "denyRead"), Paths(config.keys))
  {
    hide AddAt, Gained, GainedIf, Paths, ReachIn, ItemsIn;
    AddAtGains(sandbox, "network", "allowUnixSockets", Network, AllowUnixSockets, made, record.sockets, [config.socket]);
    var e1 := AddAt(sandbox, "network", "allowUnixSockets", Network, AllowUnixSockets, made, record.sockets, [config.socket]);
    AddAtGains(e1.fields, "filesystem", "denyRead", Filesystem, DenyRead, e1.made, record.denied, Paths(config.keys));
  }

  lemma {:induction false} SandboxGains(o: Fields, record: Record, config: Config)
    ensures var after := AddToSandbox(o, record, config).fields;
            && WaysOf(after) == WaysOf(o) && SameBeside(o, after, "sandbox")
            && GainedIf(WaysOf(o).sockets, AllowedSockets(o), AllowedSockets(after), [config.socket])
            && GainedIf(WaysOf(o).paths, DeniedPaths(o), DeniedPaths(after), Paths(config.keys))
  {
    hide AddAt, Gained, Paths, ReachIn, ItemsIn;
    SandboxFieldsGain(Inner(o, "sandbox"), record, EnsureObject(o, "sandbox", record.made, Sandbox).1, config);
  }

  lemma {:induction false} DropHookKeeps(o: Fields, which: Which, made: set<Made>)
    ensures SameBeside(o, DropHook(o, which, made).0, "hooks")
  {
    hide CleanGroups, Filter;
  }

  /** What is under the two keys decides the rest. */
  lemma {:induction false} SameLists(o: Fields, after: Fields, key: string)
    requires SameBeside(o, after, key)
    ensures key != "sandbox" && key != "permissions" ==> WaysOf(after) == WaysOf(o)
    ensures key != "sandbox" ==> AllowedSockets(after) == AllowedSockets(o) && DeniedPaths(after) == DeniedPaths(o)
    ensures key != "sandbox" ==> WaysOf(after).sockets == WaysOf(o).sockets && WaysOf(after).paths == WaysOf(o).paths
    ensures key != "permissions" ==> DeniedRules(after) == DeniedRules(o) && WaysOf(after).rules == WaysOf(o).rules
  {
    hide ReachIn, ItemsIn;
  }

  lemma {:induction false} SetUpObjectGains(o: Fields, record: Record, config: Config)
    ensures var after := SetUpObject(o, record, config).0;
            && WaysOf(after) == WaysOf(o)
            && GainedIf(WaysOf(o).sockets, AllowedSockets(o), AllowedSockets(after), [config.socket])
            && GainedIf(WaysOf(o).paths, DeniedPaths(o), DeniedPaths(after), Paths(config.keys))
            && GainedIf(WaysOf(o).rules, DeniedRules(o), DeniedRules(after), Rules(config.keys))
  {
    hide AddToSandbox, GainedIf, Paths, Rules, AddAt, DropHook, SameBeside, ReachSandbox, Reach, AllowedSockets, DeniedPaths;
    var e := AddToSandbox(o, record, config);
    SandboxGains(o, record, config);
    SameLists(o, e.fields, "sandbox");
    AddAtGains(e.fields, "permissions", "deny", Permissions, Deny, e.made, e.denied, Rules(config.keys));
    var permissions := AddPermissions(e.fields, e.made, e.denied, config);
    SameLists(e.fields, permissions.fields, "permissions");
    DropHookKeeps(permissions.fields, Claude, permissions.made);
    SameLists(permissions.fields, SetUpObject(o, record, config).0, "hooks");
  }

  /** What the file holds for the editor: nothing when it isn't there. */
  function FieldsOf(file: File): Fields {
    if file.Holds? then file.fields else map[]
  }

  ghost predicate TookHold(ways: Ways, o: Fields, config: Config) {
    && (ways.sockets ==> String(config.socket) in AllowedSockets(o))
    && (ways.paths ==> forall x <- Paths(config.keys) :: String(x) in DeniedPaths(o))
    && (ways.rules ==> forall x <- Rules(config.keys) :: String(x) in DeniedRules(o))
  }

  lemma {:induction false} TakesHold(ways: Ways, o: Fields, after: Fields, config: Config)
    requires GainedIf(ways.sockets, AllowedSockets(o), AllowedSockets(after), [config.socket])
    requires GainedIf(ways.paths, DeniedPaths(o), DeniedPaths(after), Paths(config.keys))
    requires GainedIf(ways.rules, DeniedRules(o), DeniedRules(after), Rules(config.keys))
    ensures TookHold(ways, after, config)
    ensures forall other :: TookHold(ways, o, other) ==> TookHold(ways, after, other)
  {
    hide AllowedSockets, DeniedPaths, DeniedRules, Paths, Rules;
    PrefixHas(AllowedSockets(o), AllowedSockets(after));
    PrefixHas(DeniedPaths(o), DeniedPaths(after));
    PrefixHas(DeniedRules(o), DeniedRules(after));
    assert config.socket in [config.socket];
  }

  lemma {:induction false} PrefixHas(before: seq<Json>, after: seq<Json>)
    ensures before <= after ==> forall v <- before :: v in after
  {
    if before <= after {
      assert after[..|before|] == before;
    }
  }

  lemma {:induction false} SetUpTakesHold(s: State, config: Config)
    requires !s.claude.Unusable?
    ensures var after := SetUp(s, config).claude;
            && after.Holds? && WaysOf(after.fields) == WaysOf(FieldsOf(s.claude))
            && TookHold(WaysOf(after.fields), after.fields, config)
            && forall other :: TookHold(WaysOf(after.fields), FieldsOf(s.claude), other) ==> TookHold(WaysOf(after.fields), after.fields, other)
  {
    var o := FieldsOf(s.claude);
    var record := if s.claude.Absent? then s.record.(made := s.record.made + {Made(Claude, Whole)}) else s.record;
    hide SetUpObject, GainedIf, TookHold, WaysOf, DropHooksIn;
    SetUpObjectGains(o, record, config);
    TakesHold(WaysOf(o), o, SetUpObject(o, record, config).0, config);
  }

  lemma {:induction false} SetUpsTakeHold(s: State, configs: seq<Config>)
    requires !s.claude.Unusable?
    ensures var after := SetUpAll(s, configs).claude;
            && !after.Unusable? && (configs != [] ==> after.Holds?) && WaysOf(FieldsOf(after)) == WaysOf(FieldsOf(s.claude))
            && forall config <- configs :: TookHold(WaysOf(FieldsOf(after)), FieldsOf(after), config)
  {
    hide SetUp, WaysOf, TookHold;
    if configs != [] {
      var most, last := configs[..|configs| - 1], configs[|configs| - 1];
      SetUpsTakeHold(s, most);
      SetUpTakesHold(SetUpAll(s, most), last);
      assert configs == most + [last];
    }
  }

  /** Whether a permission rule keeps an agent from reading the file: it names it, or a folder it is in. */
  predicate RuleDenies(rule: string, file: string) {
    || rule == "Read(" + file + ")"
    || exists n :: 0 <= n < |file| - 1 && file[n] == '/' && rule == "Read(" + file[..n] + "/**)"
  }

  lemma {:induction false} FolderRuleDenies(path: string, name: string)
    requires name != ""
    ensures RuleDenies("Read(" + path + "/**)", path + "/" + name)
  {
    var file, n := path + "/" + name, |path|;
    assert file[..n] == path && file[n] == '/';
    assert 0 <= n < |file| - 1;
  }

  /**
   From whatever state, once a Kanna has set up, its socket stays allowed, the paths of its secret
   files denied to the sandbox, and reading them denied, every file of its folder of secrets
   included; however many others set up afterwards, wherever the user's file can be added to.
   */
  lemma {:induction false} SecretsAreDenied(s: State, configs: seq<Config>, config: Config, key: string, name: string)
    requires !s.claude.Unusable? && config in configs && key in config.keys && name != ""
    ensures SetUpAll(s, configs).claude.Holds?
    ensures var o, before := SetUpAll(s, configs).claude.fields, FieldsOf(s.claude);
            var path := "/" + key;
            && (ReachSandbox(before, "network", "allowUnixSockets") ==> String(config.socket) in AllowedSockets(o))
            && (ReachSandbox(before, "filesystem", "denyRead") ==> String(path) in DeniedPaths(o))
            && (Reach(before, "permissions", "deny") ==>
                  exists rule :: String(rule) in DeniedRules(o) && RuleDenies(rule, if EndsWith(path, SECRETS) then path + "/" + name else path))
  {
    SetUpsTakeHold(s, configs);
    var i :| 0 <= i < |config.keys| && config.keys[i] == key;
    var path, rule := "/" + key, Rules(config.keys)[i];
    assert Paths(config.keys)[i] == path && path in Paths(config.keys) && rule in Rules(config.keys);
    FolderRuleDenies(path, name);
    var o := SetUpAll(s, configs).claude.fields;
    hide SetUpAll, AllowedSockets, DeniedPaths, DeniedRules, ReachSandbox, Reach;
    assert TookHold(WaysOf(o), o, config);
    assert RuleDenies(rule, if EndsWith(path, SECRETS) then path + "/" + name else path);
  }

  // The files as they are edited

  /** Adds each entry that isn't there, and remembers all of them. */
  method AddEntries(list: seq<Json>, ours: seq<string>, entries: seq<string>) returns (more: seq<Json>, mine: seq<string>)
    ensures more == AddAll(list, entries) && mine == RememberAll(ours, entries)
  {
    more, mine := list, ours;
    for i := 0 to |entries|
      invariant more == AddAll(list, entries[..i]) && mine == RememberAll(ours, entries[..i])
    {
      assert entries[..i + 1][..i] == entries[..i];
      if entries[i] !in mine {
        mine := mine + [entries[i]];
      }
      if String(entries[i]) !in more {
        more := more + [String(entries[i])];
      }
    }
    assert entries[..|entries|] == entries;
  }

  /** Makes the object and the list when they aren't there, and adds to the list when it is one. */
  method AddToList(o: Fields, key: string, field: string, part: Part, fieldPart: Part, made: set<Made>, ours: seq<string>, entries: seq<string>)
    returns (fields: Fields, parts: set<Made>, mine: seq<string>)
    ensures Edit(fields, parts, mine) == AddAt(o, key, field, part, fieldPart, made, ours, entries)
  {
    fields, parts, mine := o, made, ours;
    if key !in fields {
      fields, parts := fields[key := Object(map[])], parts + {Made(Claude, part)};
    }
    if !fields[key].Object? {
      return;
    }
    var inner;
    inner, parts, mine := AddToField(fields[key].fields, field, fieldPart, parts, mine, entries);
    hide AddIn;
    fields := fields[key := Object(inner)];
  }

  method AddToField(o: Fields, field: string, part: Part, made: set<Made>, ours: seq<string>, entries: seq<string>)
    returns (fields: Fields, parts: set<Made>, mine: seq<string>)
    ensures Edit(fields, parts, mine) == AddIn(o, field, part, made, ours, entries)
  {
    fields, parts, mine := o, made, ours;
    if field !in fields {
      fields, parts := fields[field := Array([])], parts + {Made(Claude, part)};
    }
    if fields[field].Array? {
      var more;
      more, mine := AddEntries(fields[field].items, mine, entries);
      fields := fields[field := Array(more)];
    }
  }

  method KeepOnly(items: seq<Json>, keep: Json -> bool) returns (kept: seq<Json>)
    ensures kept == Filter(keep, items)
  {
    kept := [];
    for i := 0 to |items|
      invariant kept == Filter(keep, items[..i])
    {
      assert items[..i + 1][..i] == items[..i];
      if keep(items[i]) {
        kept := kept + [items[i]];
      }
    }
    assert items[..|items|] == items;
  }

  /** Drops the groups that are all Kanna's, then Kanna's hooks from the others. */
  method CleanStarts(starts: seq<Json>) returns (clean: seq<Json>)
    ensures clean == CleanGroups(Filter(NotKannaGroup(), starts))
  {
    var groups := KeepOnly(starts, NotKannaGroup());
    clean := groups;
    for i := 0 to |groups|
      invariant |clean| == |groups|
      invariant forall k :: 0 <= k < i ==> clean[k] == CleanGroup(groups[k])
      invariant forall k :: i <= k < |groups| ==> clean[k] == groups[k]
    {
      if HooksOf(groups[i]).Some? {
        var hooks := KeepOnly(HooksOf(groups[i]).value, NotKannaHook());
        clean := clean[i := Object(groups[i].fields["hooks" := Array(hooks)])];
      }
    }
  }

  method DropHooks(o: Fields, which: Which, made: set<Made>) returns (fields: Fields, parts: set<Made>)
    ensures (fields, parts) == DropHook(o, which, made)
  {
    fields, parts := o, made;
    if "hooks" in o && o["hooks"].Object? {
      var hooks := o["hooks"].fields;
      if "SessionStart" in hooks && hooks["SessionStart"].Array? {
        var clean := CleanStarts(hooks["SessionStart"].items);
        hooks := hooks["SessionStart" := Array(clean)];
      }
      var pruned := Prune(hooks, "SessionStart", parts, which, SessionStart);
      hooks, parts := pruned.0, pruned.1;
      fields := fields["hooks" := Object(hooks)];
    }
    var left := Prune(fields, "hooks", parts, which, Hooks);
    fields, parts := left.0, left.1;
  }

  class Agents {
    var claude: File
    var codex: File
    var record: Record

    ghost function Now(): State
      reads this
    {
      State(claude, codex, record)
    }

    constructor (claude: File, codex: File)
      ensures Now() == State(claude, codex, NO_RECORD)
    {
      this.claude, this.codex, record := claude, codex, NO_RECORD;
    }

    /** Edits the agent's settings, then drops an earlier Kanna's hooks from the other agent's. */
    method Settings(config: Config)
      modifies this
      ensures Now() == SetUp(old(Now()), config)
    {
      if !claude.Unusable? {
        var o := if claude.Holds? then claude.fields else map[];
        var made := if claude.Absent? then record.made + {Made(Claude, Whole)} else record.made;
        var sockets, denied := record.sockets, record.denied;
        o, made, sockets, denied := EditSandbox(o, made, sockets, denied, config);
        o, made, denied := AddToList(o, "permissions", "deny", Permissions, Deny, made, denied, Rules(config.keys));
        o, made := DropHooks(o, Claude, made);
        claude, record := Holds(o), Record(sockets, denied, made);
      }
      DropFromCodex();
    }

    static method EditSandbox(o: Fields, made: set<Made>, sockets: seq<string>, denied: seq<string>, config: Config)
      returns (fields: Fields, parts: set<Made>, mySockets: seq<string>, myDenied: seq<string>)
      ensures SandboxEdit(fields, parts, mySockets, myDenied) == AddToSandbox(o, Record(sockets, denied, made), config)
    {
      fields, parts, mySockets, myDenied := o, made, sockets, denied;
      if "sandbox" !in fields {
        fields, parts := fields["sandbox" := Object(map[])], parts + {Made(Claude, Sandbox)};
      }
      if !fields["sandbox"].Object? {
        return;
      }
      hide AddAt;
      var sandbox := fields["sandbox"].fields;
      sandbox, parts, mySockets := AddToList(sandbox, "network", "allowUnixSockets", Network, AllowUnixSockets, parts, mySockets, [config.socket]);
      sandbox, parts, myDenied := AddToList(sandbox, "filesystem", "denyRead", Filesystem, DenyRead, parts, myDenied, Paths(config.keys));
      fields := fields["sandbox" := Object(sandbox)];
    }

    method DropFromCodex()
      modifies this`codex, this`record
      ensures (codex, record.made) == DropHooksIn(old(codex), Codex, old(record.made))
      ensures record == old(record).(made := record.made)
    {
      if !codex.Holds? {
        return;
      }
      var o, made := DropHooks(codex.fields, Codex, record.made);
      if o == map[] && Made(Codex, Whole) in made {
        codex, made := Absent, made - {Made(Codex, Whole)};
      } else {
        codex := Holds(o);
      }
      record := record.(made := Forget(made, Codex));
    }

    /** Takes out what the record says is Kanna's; the record is then empty. */
    method Unsettings()
      modifies this
      ensures Now() == Remove(old(Now()))
    {
      ghost var before := Now();
      var all := record;
      if claude.Holds? {
        var o, made := claude.fields, record.made;
        if "sandbox" in o && o["sandbox"].Object? {
          var first := Take(o["sandbox"].fields, "network", "allowUnixSockets", all.sockets, Network, AllowUnixSockets, made);
          var second := Take(first.0, "filesystem", "denyRead", all.denied, Filesystem, DenyRead, first.1);
          o, made := o["sandbox" := Object(second.0)], second.1;
        }
        var pruned := Prune(o, "sandbox", made, Claude, Sandbox);
        var third := Take(pruned.0, "permissions", "deny", all.denied, Permissions, Deny, pruned.1);
        o, made := DropHooks(third.0, Claude, third.1);
        claude := if o == map[] && Made(Claude, Whole) in made then Absent else Holds(o);
      }
      DropFromCodex();
      record := NO_RECORD;
    }
  }
}
