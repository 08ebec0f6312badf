/**
 The text of a call tree: what each line says, and how a tree written out reads back. A
 call's line is its name, its place and its notes, with two spaces between.
 */
module CallText {
  import opened Prelude
  import CallTree
  import Civil

  /** White space as Unicode has it. */
  predicate IsSpace(c: char) {
    || '\t' <= c <= '\r' || c == ' ' || c == '\U{85}' || c == '\U{A0}' || c == '\U{1680}'
    || '\U{2000}' <= c <= '\U{200A}' || c == '\U{2028}' || c == '\U{2029}' || c == '\U{202F}' || c == '\U{205F}' || c == '\U{3000}'
  }

  function TrimStart(s: string): string {
    if s != "" && IsSpace(s[0]) then TrimStart(s[1..]) else s
  }

  function TrimEnd(s: string): string {
    if s != "" && IsSpace(s[|s| - 1]) then TrimEnd(s[..|s| - 1]) else s
  }

  function Trim(s: string): string {
    TrimEnd(TrimStart(s))
  }

  /** Where the first two spaces in a row are. */
  function Gap(s: string): (at: Option<nat>)
    ensures at.Some? ==> at.value + 2 <= |s| && s[at.value] == ' ' && s[at.value + 1] == ' '
    ensures at.Some? && at.value > 0 ==> s[at.value - 1] != ' '
  {
    if |s| < 2 then None
    else if s[0] == ' ' && s[1] == ' ' then Some(0)
    else
      var later := Gap(s[1..]);
      if later.Some? then Some(later.value + 1) else None
  }

  lemma {:induction false} TrimStartShortens(s: string)
    ensures |TrimStart(s)| <= |s|
    ensures s != "" && s[0] == ' ' ==> |TrimStart(s)| < |s|
    ensures TrimStart(s) != "" ==> !IsSpace(TrimStart(s)[0])
  {
    if s != "" && IsSpace(s[0]) {
      TrimStartShortens(s[1..]);
    }
  }

  /** The fields of a trimmed line, parted by two spaces or more. */
  function Split(rest: string): seq<string>
    decreases |rest|
  {
    var gap := Gap(rest);
    if rest == "" then []
    else if gap.None? then [rest]
    else
      TrimStartShortens(rest[gap.value..]);
      [rest[..gap.value]] + Split(TrimStart(rest[gap.value..]))
  }

  method Fields(text: string) returns (out: seq<string>)
    ensures out == Split(Trim(text))
  {
    out := [];
    var rest := Trim(text);
    while rest != ""
      invariant Split(Trim(text)) == out + Split(rest)
      decreases |rest|
    {
      var gap := Gap(rest);
      if gap.None? {
        out := out + [rest];
        break;
      }
      TrimStartShortens(rest[gap.value..]);
      ConcatAssoc(out, [rest[..gap.value]], Split(TrimStart(rest[gap.value..])));
      out := out + [rest[..gap.value]];
      rest := TrimStart(rest[gap.value..]);
    }
  }

  const MAX_LINE: nat := 0xFFFF_FFFF_FFFF_FFFF

  predicate AllDigits(s: string) {
    forall c <- s :: '0' <= c <= '9'
  }

  /** A number as Rust reads one: digits, after a plus sign if there is one. */
  function ReadNumber(s: string): Option<int> {
    var digits := if s != "" && s[0] == '+' then s[1..] else s;
    if digits != "" && AllDigits(digits) && Civil.Number(digits) <= MAX_LINE then Some(Civil.Number(digits)) else None
  }

  function LastColon(s: string): (at: Option<nat>)
    ensures at.Some? ==> at.value < |s| && s[at.value] == ':'
  {
    if s == "" then None
    else if s[|s| - 1] == ':' then Some(|s| - 1)
    else LastColon(s[..|s| - 1])
  }

  predicate HasSpace(s: string) {
    exists c <- s :: IsSpace(c)
  }

  function Location(field: string): (place: Option<(string, nat)>)
    ensures place.Some? ==> place.value.0 != "" && 0 < place.value.1 <= MAX_LINE
  {
    var at := LastColon(field);
    if at.None? then None
    else
      var path, line := field[..at.value], ReadNumber(field[at.value + 1..]);
      if line.None? || path == "" || line.value <= 0 || HasSpace(path) then None
      else Some((path, line.value))
  }

  function Joined(words: seq<string>, between: string): string {
    if words == [] then ""
    else if |words| == 1 then words[0]
    else words[0] + (between + Joined(words[1..], between))
  }

  function Indent(text: string): nat {
    if text != "" && text[0] == ' ' then 1 + Indent(text[1..]) else 0
  }

  function Classify(text: string): CallTree.Line {
    var trimmed := Trim(text);
    if trimmed == "" then CallTree.Blank
    else if |trimmed| >= 2 && trimmed[..2] == "->" then CallTree.Hop(Trim(trimmed[2..]))
    else
      var parts := Split(trimmed);
      var place := if |parts| > 1 then Location(parts[1]) else None;
      if place.Some? then CallTree.Call(Indent(text), parts[0], place.value.0, place.value.1, Joined(parts[2..], " "))
      else if Indent(text) == 0 then CallTree.Process(trimmed)
      else CallTree.Bad
  }

  // Fields that read back

  /** A field as it can stand between two others. */
  predicate Solid(field: string) {
    field != "" && !IsSpace(field[0]) && field[|field| - 1] != ' ' && Gap(field).None?
  }

  lemma {:induction false} GapOf(field: string, tail: string)
    requires Gap(field).None? && field != "" && field[|field| - 1] != ' '
    ensures Gap(field + ("  " + tail)) == Some(|field|)
  {
    var s := field + ("  " + tail);
    if |field| == 1 {
      assert s[1..] == "  " + tail;
      assert s[0] != ' ';
    } else {
      assert s[0] == field[0] && s[1] == field[1] && s[1..] == field[1..] + ("  " + tail);
      GapOf(field[1..], tail);
    }
  }

  lemma {:induction false} TrimGap(tail: string)
    requires tail != "" && !IsSpace(tail[0])
    ensures TrimStart("  " + tail) == tail
  {
    assert ("  " + tail)[1..] == " " + tail && (" " + tail)[1..] == tail;
    assert TrimStart("  " + tail) == TrimStart(" " + tail) == TrimStart(tail);
  }

  lemma {:induction false} SplitFirst(first: string, tail: string)
    requires Solid(first) && tail != "" && !IsSpace(tail[0])
    ensures Split(first + ("  " + tail)) == [first] + Split(tail)
  {
    var s := first + ("  " + tail);
    GapOf(first, tail);
    TrimGap(tail);
    hide Gap, TrimStart, IsSpace;
    assert s[..|first|] == first && s[|first|..] == "  " + tail;
  }

  /** Fields put together with two spaces between split into the same again. */
  lemma {:induction false} SplitReadsBack(fields: seq<string>)
    requires forall f <- fields :: Solid(f)
    ensures Split(Joined(fields, "  ")) == fields
    ensures fields != [] ==> Joined(fields, "  ") != "" && !IsSpace(Joined(fields, "  ")[0])
  {
    if |fields| == 1 {
      assert fields[0] in fields;
      assert fields == [fields[0]];
    } else if fields != [] {
      var first, rest := fields[0], fields[1..];
      assert first in fields && Solid(first);
      assert fields == [first] + rest;
      SplitReadsBack(rest);
      SplitFirst(first, Joined(rest, "  "));
      hide Split, Gap, IsSpace;
    }
  }

  lemma {:induction false} GapNone(s: string, n: nat)
    requires n <= |s| && (Gap(s).Some? ==> n <= Gap(s).value)
    ensures Gap(s[..n]).None?
  {
    if n >= 2 {
      assert s[..n][1..] == s[1..][..n - 1];
      GapNone(s[1..], n - 1);
    }
  }

  lemma {:induction false} TrimStartIsEnd(s: string)
    ensures |TrimStart(s)| <= |s| && s[|s| - |TrimStart(s)|..] == TrimStart(s)
  {
    if s != "" && IsSpace(s[0]) {
      TrimStartIsEnd(s[1..]);
    }
  }

  predicate Trimmed(s: string) {
    s == "" || (!IsSpace(s[0]) && !IsSpace(s[|s| - 1]))
  }

  lemma {:induction false} TrimEndIsTrimmed(s: string)
    ensures |TrimEnd(s)| <= |s| && s[..|TrimEnd(s)|] == TrimEnd(s)
    ensures TrimEnd(s) != "" ==> !IsSpace(TrimEnd(s)[|TrimEnd(s)| - 1])
  {
    if s != "" && IsSpace(s[|s| - 1]) {
      TrimEndIsTrimmed(s[..|s| - 1]);
    }
  }

  lemma {:induction false} TrimTrims(s: string)
    ensures Trimmed(Trim(s))
  {
    TrimStartShortens(s);
    TrimEndIsTrimmed(TrimStart(s));
  }

  /** The fields of any trimmed line are solid. */
  lemma {:induction false} SplitIsSolid(rest: string)
    requires Trimmed(rest)
    ensures forall f <- Split(rest) :: Solid(f)
    decreases |rest|
  {
    if rest != "" {
      var gap := Gap(rest);
      if gap.Some? {
        var first, more := rest[..gap.value], TrimStart(rest[gap.value..]);
        TrimStartShortens(rest[gap.value..]);
        TrimStartIsEnd(rest[gap.value..]);
        GapNone(rest, gap.value);
        assert gap.value > 0 && Solid(first);
        if more != "" {
          assert more[|more| - 1] == rest[|rest| - 1];
        }
        SplitIsSolid(more);
      }
    }
  }

  /** So, written out with two spaces between, they are the same fields again. */
  lemma {:induction false} FieldsAreStable(text: string)
    ensures Split(Joined(Split(Trim(text)), "  ")) == Split(Trim(text))
  {
    TrimTrims(text);
    SplitIsSolid(Trim(text));
    SplitReadsBack(Split(Trim(text)));
  }

  // A call's line

  predicate IsPath(path: string) {
    path != "" && !HasSpace(path)
  }

  function Place(path: string, line: nat): string {
    path + (":" + Civil.Pad(line, 1))
  }

  lemma {:induction false} NumberIsText(line: nat)
    requires 0 < line <= MAX_LINE
    ensures Civil.Pad(line, 1) != "" && AllDigits(Civil.Pad(line, 1)) && ReadNumber(Civil.Pad(line, 1)) == Some(line)
  {
    Civil.PadDigits(line, 1);
    Civil.PadReads(line, 1);
    var digits := Civil.Pad(line, 1);
    assert digits[0] in digits;
  }

  lemma {:induction false} LocationReadsBack(path: string, line: nat)
    requires IsPath(path) && 0 < line <= MAX_LINE
    ensures Location(Place(path, line)) == Some((path, line))
  {
    var digits := Civil.Pad(line, 1);
    NumberIsText(line);
    assert ':' !in digits;
    hide Civil.Pad, HasSpace, ReadNumber, Location;
    assert IsPlaceOf(Place(path, line), path, line, digits);
    LocationIff(Place(path, line), path, line);
  }

  lemma {:induction false} NoSpaceNoGap(s: string)
    requires forall c <- s :: c != ' '
    ensures Gap(s).None?
  {
    if Gap(s).Some? {
      assert s[Gap(s).value] in s;
    }
  }

  lemma {:induction false} DigitIsNoSpace(c: char)
    requires '0' <= c <= '9' || c == ':'
    ensures !IsSpace(c)
  {
  }

  lemma {:induction false} PlaceHasNoSpace(path: string, digits: string)
    requires IsPath(path) && AllDigits(digits)
    ensures forall c <- path + (":" + digits) :: !IsSpace(c) && c != '\n'
  {
    forall c <- path + (":" + digits) ensures !IsSpace(c) {
      if c !in path {
        assert c == ':' || c in digits;
        DigitIsNoSpace(c);
      }
    }
    assert IsSpace('\n');
    hide IsSpace;
  }

  lemma {:induction false} PlaceIsSolid(path: string, line: nat)
    requires IsPath(path) && 0 < line <= MAX_LINE
    ensures Solid(Place(path, line)) && Tight(Place(path, line)) && '\n' !in Place(path, line)
  {
    var field := Place(path, line);
    NumberIsText(line);
    PlaceHasNoSpace(path, Civil.Pad(line, 1));
    assert IsSpace(' ');
    hide IsSpace;
    assert field[0] in field && field[|field| - 1] in field;
    NoSpaceNoGap(field);
  }

  /** A field that can also end a line. */
  predicate Tight(field: string) {
    field != "" && !IsSpace(field[|field| - 1])
  }

  /** A call to write out. */
  datatype Call = Call(depth: nat, name: string, path: string, line: nat, notes: seq<string>) {
    predicate Writable() {
      && Solid(name) && !(|name| >= 2 && name[..2] == "->")
      && IsPath(path) && 0 < line <= MAX_LINE
      && (forall n <- notes :: Solid(n) && Tight(n))
      && '\n' !in name && forall n <- notes :: '\n' !in n
    }

    function Fields(): seq<string> {
      [name, Place(path, line)] + notes
    }

    function Text(): string {
      Spaces(2 * depth) + Joined(Fields(), "  ")
    }

    function Line(): CallTree.Line {
      CallTree.Call(2 * depth, name, path, line, Joined(notes, " "))
    }
  }

  function Spaces(n: nat): string {
    if n == 0 then "" else " " + Spaces(n - 1)
  }

  lemma {:induction false} IndentOf(n: nat, rest: string)
    requires rest != "" && !IsSpace(rest[0])
    ensures Indent(Spaces(n) + rest) == n && TrimStart(Spaces(n) + rest) == rest
  {
    if n == 0 {
      assert Spaces(n) + rest == rest;
    } else {
      var s := Spaces(n) + rest;
      assert s[0] == ' ' && s[1..] == Spaces(n - 1) + rest;
      IndentOf(n - 1, rest);
    }
  }

  lemma {:induction false} JoinedEnds(fields: seq<string>, between: string)
    requires fields != [] && forall i :: 0 <= i < |fields| ==> fields[i] != ""
    ensures var s := Joined(fields, between); s != "" && s[|s| - 1] == fields[|fields| - 1][|fields[|fields| - 1]| - 1]
  {
    if |fields| > 1 {
      JoinedEnds(fields[1..], between);
    }
  }

  /** A call written out is classified as that call. */
  lemma {:induction false} CallReadsBack(call: Call)
    requires call.Writable()
    ensures Classify(call.Text()) == call.Line()
  {
    var fields := call.Fields();
    var body := Joined(fields, "  ");
    PlaceIsSolid(call.path, call.line);
    forall f <- fields ensures Solid(f) {
      assert f == call.name || f == Place(call.path, call.line) || f in call.notes;
    }
    SplitReadsBack(fields);
    assert fields[0] == call.name;
    var last := fields[|fields| - 1];
    assert Tight(last) by {
      assert call.notes != [] ==> last in call.notes;
    }
    assert forall i :: 0 <= i < |fields| ==> fields[i] in fields;
    JoinedEnds(fields, "  ");
    IndentOf(2 * call.depth, body);
    assert Trim(call.Text()) == body;
    NotAHop(call.name, fields);
    LocationReadsBack(call.path, call.line);
    assert fields[1] == Place(call.path, call.line) && fields[2..] == call.notes;
  }

  lemma {:induction false} NotAHop(name: string, fields: seq<string>)
    requires Solid(name) && !(|name| >= 2 && name[..2] == "->")
    requires |fields| > 1 && fields[0] == name
    ensures var s := Joined(fields, "  "); !(|s| >= 2 && s[..2] == "->")
  {
    var s := Joined(fields, "  ");
    assert s[0] == name[0];
    if |name| >= 2 {
      assert s[..2] == name[..2];
    } else {
      assert s[1] == ' ';
    }
  }

  // Every line, written out well or not

  lemma {:induction false} LastColonIs(path: string, rest: string)
    requires ':' !in rest
    ensures LastColon(path + (":" + rest)) == Some(|path|)
  {
    var s := path + (":" + rest);
    if rest == "" {
      assert s[|s| - 1] == ':';
    } else {
      var n := |rest| - 1;
      assert rest[n] in rest && s[|s| - 1] == rest[n];
      assert s[..|s| - 1] == path + (":" + rest[..n]);
      LastColonIs(path, rest[..n]);
    }
  }

  lemma {:induction false} NoColonAfter(s: string)
    ensures LastColon(s).Some? ==> ':' !in s[LastColon(s).value + 1..]
    ensures LastColon(s).None? ==> ':' !in s
  {
    if s != "" && s[|s| - 1] != ':' {
      var most := s[..|s| - 1];
      NoColonAfter(most);
      assert s == most + [s[|s| - 1]];
      if LastColon(most).Some? {
        var at := LastColon(most).value + 1;
        assert s[at..] == most[at..] + [s[|s| - 1]];
      }
    }
  }

  /** The field is a path, a colon and a number. */
  ghost predicate IsPlaceOf(field: string, path: string, line: nat, number: string) {
    field == path + (":" + number) && ':' !in number && ReadNumber(number) == Some(line)
  }

  /** A field is a place exactly when it is a path without white space, a colon, and a line number above zero. */
  lemma {:induction false} LocationIff(field: string, path: string, line: nat)
    ensures Location(field) == Some((path, line)) <==>
            path != "" && !HasSpace(path) && line > 0 && exists number :: IsPlaceOf(field, path, line, number)
  {
    hide ReadNumber, HasSpace;
    if Location(field) == Some((path, line)) {
      NoColonAfter(field);
      var at := LastColon(field).value;
      assert field == field[..at] + (":" + field[at + 1..]);
      assert IsPlaceOf(field, path, line, field[at + 1..]);
    }
    if number :| IsPlaceOf(field, path, line, number) {
      LastColonIs(path, number);
      assert field[..|path|] == path && field[|path| + 1..] == number;
    }
  }

  lemma {:induction false} TrimIsEmptyIff(s: string)
    ensures Trim(s) == "" <==> forall c <- s :: IsSpace(c)
  {
    hide IsSpace;
    TrimStartIsEmptyIff(s);
    TrimTrims(s);
    if TrimStart(s) != "" {
      TrimStartShortens(s);
      TrimEndKeepsFirst(TrimStart(s));
    }
  }

  lemma {:induction false} TrimStartIsEmptyIff(s: string)
    ensures TrimStart(s) == "" <==> forall c <- s :: IsSpace(c)
  {
    hide IsSpace;
    if s != "" {
      assert s == [s[0]] + s[1..] && s[0] in s;
      TrimStartIsEmptyIff(s[1..]);
    }
  }

  lemma {:induction false} TrimEndKeepsFirst(s: string)
    requires s != "" && !IsSpace(s[0])
    ensures TrimEnd(s) != ""
  {
    if |s| > 1 && IsSpace(s[|s| - 1]) {
      TrimEndKeepsFirst(s[..|s| - 1]);
    }
  }

  predicate StartsHop(text: string) {
    |Trim(text)| >= 2 && Trim(text)[..2] == "->"
  }

  /** The second of the line's fields is a place. */
  ghost predicate HasPlace(text: string) {
    |Split(Trim(text))| > 1 && exists path, line: nat :: Location(Split(Trim(text))[1]) == Some((path, line))
  }

  /**
   What every line is taken for: blank when it is all white space; a hop when it starts with an arrow; else a
   call when its second field is a place; else a process when it isn't indented; and else a mistake.
   */
  lemma {:induction false} KindIff(text: string)
    ensures Classify(text).Blank? <==> forall c <- text :: IsSpace(c)
    ensures Classify(text).Hop? <==> StartsHop(text)
    ensures Classify(text).Call? <==> !StartsHop(text) && HasPlace(text)
    ensures Classify(text).Process? <==> Trim(text) != "" && !StartsHop(text) && !HasPlace(text) && text[0] != ' '
    ensures Classify(text).Bad? <==> Trim(text) != "" && !StartsHop(text) && !HasPlace(text) && text[0] == ' '
  {
    TrimIsEmptyIff(text);
    var trimmed := Trim(text);
    var parts := Split(trimmed);
    assert text == "" ==> trimmed == "";
    assert trimmed == "" ==> parts == [];
    if |parts| > 1 && Location(parts[1]).Some? {
      assert Location(parts[1]) == Some((Location(parts[1]).value.0, Location(parts[1]).value.1));
    }
    hide IsSpace, Location, Split, Trim, Joined;
  }

  // A whole tree

  predicate IsProcess(name: string) {
    name != "" && Trimmed(name) && !(|name| >= 2 && name[..2] == "->")
    && (|Split(name)| > 1 ==> Location(Split(name)[1]).None?)
  }

  lemma {:induction false} TrimsToItself(s: string)
    requires s != "" && Trimmed(s)
    ensures Trim(s) == s && Indent(s) == 0
  {
  }

  lemma {:induction false} ProcessReadsBack(name: string)
    requires IsProcess(name)
    ensures Classify(name) == CallTree.Process(name)
  {
    TrimsToItself(name);
  }

  lemma {:induction false} SpacesAreBlank(n: nat)
    ensures |Spaces(n)| == n && TrimStart(Spaces(n)) == "" && '\n' !in Spaces(n) && (n > 0 ==> Spaces(n)[n - 1] == ' ')
  {
    if n > 0 {
      SpacesAreBlank(n - 1);
      assert Spaces(n)[1..] == Spaces(n - 1);
    }
  }

  lemma {:induction false} HopReadsBack(target: string)
    requires target != "" && Trimmed(target)
    ensures Classify("-> " + target) == CallTree.Hop(target)
  {
    var s := "-> " + target;
    assert s[|s| - 1] == target[|target| - 1];
    TrimsToItself(s);
    assert s[..2] == "->" && s[2..] == " " + target;
    assert (" " + target)[1..] == target;
    assert TrimStart(" " + target) == TrimStart(target) == target;
    TrimsToItself(target);
  }

  function Classified(text: seq<string>): seq<CallTree.Line> {
    seq(|text|, i requires 0 <= i < |text| => Classify(text[i]))
  }

  /** A line of a tree as it is meant. */
  datatype Entry = OfProcess(name: string) | OfHop(target: string) | OfCall(call: Call) | OfBlank(width: nat) {
    predicate Writable() {
      match this
      case OfProcess(name) => IsProcess(name) && '\n' !in name
      case OfHop(target) => target != "" && Trimmed(target) && '\n' !in target
      case OfCall(call) => call.Writable()
      case OfBlank(_) => true
    }

    function Text(): string {
      match this
      case OfProcess(name) => name
      case OfHop(target) => "-> " + target
      case OfCall(call) => call.Text()
      case OfBlank(width) => Spaces(width)
    }

    function Line(): CallTree.Line {
      match this
      case OfProcess(name) => CallTree.Process(name)
      case OfHop(target) => CallTree.Hop(target)
      case OfCall(call) => call.Line()
      case OfBlank(_) => CallTree.Blank
    }
  }

  lemma {:induction false} EntryReadsBack(e: Entry)
    requires e.Writable()
    ensures Classify(e.Text()) == e.Line()
  {
    match e {
      case OfProcess(name) => ProcessReadsBack(name);
      case OfHop(target) => HopReadsBack(target);
      case OfCall(call) => CallReadsBack(call);
      case OfBlank(width) => SpacesAreBlank(width);
    }
  }

  // The text as a whole

  function LineEnd(text: string): (at: nat)
    ensures at <= |text| && '\n' !in text[..at] && (at < |text| ==> text[at] == '\n')
  {
    if text == "" || text[0] == '\n' then 0
    else
      var rest := LineEnd(text[1..]);
      assert text[..rest + 1] == [text[0]] + text[1..][..rest];
      rest + 1
  }

  /** The lines of a text as Rust gives them: each up to its line feed, without a carriage return before that. */
  function SourceLines(text: string): seq<string> {
    if text == "" then []
    else
      var at := LineEnd(text);
      if at == |text| then [text]
      else [if at > 0 && text[at - 1] == '\r' then text[..at - 1] else text[..at]] + SourceLines(text[at + 1..])
  }

  function Unlines(lines: seq<string>): string {
    if lines == [] then "" else lines[0] + ("\n" + Unlines(lines[1..]))
  }

  predicate OneLine(line: string) {
    '\n' !in line && (line == "" || line[|line| - 1] != '\r')
  }

  lemma {:induction false} LineEndIs(line: string, rest: string)
    requires '\n' !in line
    ensures LineEnd(line + ("\n" + rest)) == |line|
  {
    var text := line + ("\n" + rest);
    if line != "" {
      assert text[0] == line[0] && text[1..] == line[1..] + ("\n" + rest);
      LineEndIs(line[1..], rest);
    }
  }

  lemma {:induction false} FirstLine(first: string, rest: string)
    requires OneLine(first)
    ensures SourceLines(first + ("\n" + rest)) == [first] + SourceLines(rest)
  {
    var text := first + ("\n" + rest);
    LineEndIs(first, rest);
    hide LineEnd;
    assert text[..|first|] == first && text[|first| + 1..] == rest;
    assert |first| > 0 ==> text[|first| - 1] == first[|first| - 1];
  }

  lemma {:induction false} LinesReadBack(lines: seq<string>)
    requires forall line <- lines :: OneLine(line)
    ensures SourceLines(Unlines(lines)) == lines
  {
    if lines != [] {
      assert lines[0] in lines && lines == [lines[0]] + lines[1..];
      hide OneLine;
      LinesReadBack(lines[1..]);
      FirstLine(lines[0], Unlines(lines[1..]));
      hide SourceLines;
    }
  }

  lemma {:induction false} JoinedIsOneLine(fields: seq<string>, between: string)
    requires '\n' !in between && forall f <- fields :: '\n' !in f
    ensures '\n' !in Joined(fields, between)
  {
    if fields != [] {
      assert fields[0] in fields;
      JoinedIsOneLine(fields[1..], between);
    }
  }

  lemma {:induction false} CallIsOneLine(call: Call)
    requires call.Writable()
    ensures OneLine(call.Text())
  {
    var fields := call.Fields();
    PlaceIsSolid(call.path, call.line);
    forall f <- fields ensures '\n' !in f && f != "" {
      assert f == call.name || f == Place(call.path, call.line) || f in call.notes;
    }
    JoinedIsOneLine(fields, "  ");
    SpacesAreBlank(2 * call.depth);
    assert forall i :: 0 <= i < |fields| ==> fields[i] in fields;
    JoinedEnds(fields, "  ");
    var last := fields[|fields| - 1];
    assert Tight(last) by {
      assert call.notes != [] ==> last in call.notes;
    }
    assert call.Text()[|call.Text()| - 1] == last[|last| - 1];
  }

  lemma {:induction false} EntryIsOneLine(e: Entry)
    requires e.Writable()
    ensures OneLine(e.Text())
  {
    match e {
      case OfProcess(name) =>
      case OfHop(target) => assert e.Text()[|e.Text()| - 1] == target[|target| - 1];
      case OfCall(call) => CallIsOneLine(call);
      case OfBlank(width) => SpacesAreBlank(width);
    }
  }

  function Texts(doc: seq<Entry>): seq<string> {
    seq(|doc|, i requires 0 <= i < |doc| => doc[i].Text())
  }

  function Lines(doc: seq<Entry>): seq<CallTree.Line> {
    seq(|doc|, i requires 0 <= i < |doc| => doc[i].Line())
  }

  predicate AllWritable(doc: seq<Entry>) {
    forall e <- doc :: e.Writable()
  }

  /** A document written out, line by line, reads back as its entries: so its tree is theirs. */
  lemma {:induction false} DocumentReadsBack(doc: seq<Entry>)
    requires AllWritable(doc)
    ensures Classified(SourceLines(Unlines(Texts(doc)))) == Lines(doc)
  {
    forall i | 0 <= i < |doc| ensures OneLine(doc[i].Text()) && Classify(doc[i].Text()) == doc[i].Line() {
      assert doc[i] in doc;
      EntryIsOneLine(doc[i]);
      EntryReadsBack(doc[i]);
    }
    LinesReadBack(Texts(doc));
  }

  // The tree of a document

  /** The process that the last line before `n` to name one names. */
  function LaneAt(doc: seq<Entry>, n: nat): Option<string>
    requires n <= |doc|
  {
    if n == 0 then None else if doc[n - 1].OfProcess? then Some(doc[n - 1].name) else LaneAt(doc, n - 1)
  }

  function DepthAt(doc: seq<Entry>, n: nat): Option<nat>
    requires n <= |doc|
  {
    if n == 0 then None else if doc[n - 1].OfCall? then Some(doc[n - 1].call.depth) else DepthAt(doc, n - 1)
  }

  /** Where the calls are among the first `n` entries. */
  function CallsIn(doc: seq<Entry>, n: nat): seq<nat>
    requires n <= |doc|
  {
    if n == 0 then [] else CallsIn(doc, n - 1) + if doc[n - 1].OfCall? then [n - 1] else []
  }

  /** The first entry from `n` on that isn't blank names a process. */
  predicate ProcessFollows(doc: seq<Entry>, n: nat) {
    exists m :: n <= m < |doc| && doc[m].OfProcess? && forall k :: n <= k < m ==> doc[k].OfBlank?
  }

  /** A call comes after a process, no more than a level deeper than the last call; a hop comes before a process. */
  predicate RightAt(doc: seq<Entry>, n: nat)
    requires n < |doc|
  {
    match doc[n]
    case OfCall(call) => LaneAt(doc, n).Some? && call.depth <= if DepthAt(doc, n).Some? then DepthAt(doc, n).value + 1 else 0
    case OfHop(_) => ProcessFollows(doc, n + 1)
    case _ => true
  }

  predicate IsCallOf(c: CallTree.CallInfo, processes: seq<string>, doc: seq<Entry>, p: nat) {
    && p < |doc| && doc[p].OfCall? && c.process < |processes| && Some(processes[c.process]) == LaneAt(doc, p)
    && var call := doc[p].call;
    && c.depth == call.depth && c.name == call.name && c.path == call.path && c.line == call.line
    && c.note == Joined(call.notes, " ") && c.sourceLine == p + 1
  }

  /** The reading of the first `n` entries: the calls there are, each of its process, and where the next one would stand. */
  predicate ReadTo(r: CallTree.Reading, doc: seq<Entry>, n: nat)
    requires n <= |doc|
  {
    && r.errors == []
    && (r.process.Some? <==> LaneAt(doc, n).Some?)
    && (r.process.Some? ==> r.process.value < |r.processes| && LaneAt(doc, n) == Some(r.processes[r.process.value]))
    && r.lastDepth == DepthAt(doc, n)
    && |r.calls| == |CallsIn(doc, n)|
    && forall k :: 0 <= k < |r.calls| ==> IsCallOf(r.calls[k], r.processes, doc, CallsIn(doc, n)[k])
  }

  lemma {:induction false} FirstTextIs(doc: seq<Entry>, n: nat)
    requires n <= |doc|
    ensures var next := CallTree.FirstText(Lines(doc)[n..]); next.Some? && next.value.Process? <==> ProcessFollows(doc, n)
    decreases |doc| - n
  {
    var lines := Lines(doc);
    if n < |doc| {
      assert lines[n..][0] == doc[n].Line() && lines[n..][1..] == lines[n + 1..];
      if doc[n].OfBlank? {
        FirstTextIs(doc, n + 1);
        assert ProcessFollows(doc, n) <==> ProcessFollows(doc, n + 1) by {
          if m :| n + 1 <= m < |doc| && doc[m].OfProcess? && forall k :: n + 1 <= k < m ==> doc[k].OfBlank? {
            assert forall k :: n <= k < m ==> doc[k].OfBlank?;
          }
        }
      } else if doc[n].OfProcess? {
        assert ProcessFollows(doc, n);
      }
    }
  }

  lemma {:induction false} ReadProcess(r: CallTree.Reading, doc: seq<Entry>, n: nat)
    requires n < |doc| && doc[n].OfProcess? && ReadTo(r, doc, n)
    ensures ReadTo(CallTree.ReadLine(Lines(doc), n, r), doc, n + 1)
  {
    var next := CallTree.ReadLine(Lines(doc), n, r);
    forall k | 0 <= k < |r.calls| ensures IsCallOf(next.calls[k], next.processes, doc, CallsIn(doc, n + 1)[k]) {
      assert IsCallOf(r.calls[k], r.processes, doc, CallsIn(doc, n)[k]);
    }
  }

  lemma {:induction false} ReadCall(r: CallTree.Reading, doc: seq<Entry>, n: nat)
    requires n < |doc| && doc[n].OfCall? && ReadTo(r, doc, n)
    ensures var next := CallTree.ReadLine(Lines(doc), n, r);
            if RightAt(doc, n) then ReadTo(next, doc, n + 1) else next.errors != []
  {
    var next := CallTree.ReadLine(Lines(doc), n, r);
    assert Lines(doc)[n] == doc[n].call.Line();
    if RightAt(doc, n) {
      forall k | 0 <= k < |next.calls| ensures IsCallOf(next.calls[k], next.processes, doc, CallsIn(doc, n + 1)[k]) {
        if k < |r.calls| {
          assert IsCallOf(r.calls[k], r.processes, doc, CallsIn(doc, n)[k]);
        }
      }
    }
  }

  lemma {:induction false} ReadHop(r: CallTree.Reading, doc: seq<Entry>, n: nat)
    requires n < |doc| && doc[n].OfHop? && ReadTo(r, doc, n)
    ensures var next := CallTree.ReadLine(Lines(doc), n, r);
            if RightAt(doc, n) then ReadTo(next, doc, n + 1) else next.errors != []
  {
    FirstTextIs(doc, n + 1);
  }

  lemma {:induction false} ErrorsStay(lines: seq<CallTree.Line>, n: nat, r: CallTree.Reading)
    requires n < |lines| && r.errors != []
    ensures CallTree.ReadLine(lines, n, r).errors != []
  {
  }

  lemma {:induction false} ReadBlank(r: CallTree.Reading, doc: seq<Entry>, n: nat)
    requires n < |doc| && doc[n].OfBlank? && ReadTo(r, doc, n)
    ensures ReadTo(CallTree.ReadLine(Lines(doc), n, r), doc, n + 1)
  {
    assert CallsIn(doc, n) + [] == CallsIn(doc, n);
  }

  lemma {:induction false} ReadEntry(r: CallTree.Reading, doc: seq<Entry>, n: nat)
    requires n < |doc| && ReadTo(r, doc, n)
    ensures var next := CallTree.ReadLine(Lines(doc), n, r);
            if RightAt(doc, n) then ReadTo(next, doc, n + 1) else next.errors != []
  {
    match doc[n] {
      case OfProcess(_) => ReadProcess(r, doc, n);
      case OfCall(_) => ReadCall(r, doc, n);
      case OfHop(_) => ReadHop(r, doc, n);
      case OfBlank(_) => ReadBlank(r, doc, n);
    }
    hide ReadTo;
  }

  predicate AllRight(doc: seq<Entry>, n: nat)
    requires n <= |doc|
  {
    forall k :: 0 <= k < n ==> RightAt(doc, k)
  }

  lemma {:induction false} ReadsSoFar(doc: seq<Entry>, n: nat)
    requires n <= |doc|
    ensures var r := CallTree.Read(Lines(doc), n);
            if AllRight(doc, n) then ReadTo(r, doc, n) else r.errors != []
  {
    if n > 0 {
      hide CallTree.ReadLine, RightAt, CallsIn, LaneAt, DepthAt, IsCallOf;
      ReadsSoFar(doc, n - 1);
      var r := CallTree.Read(Lines(doc), n - 1);
      assert AllRight(doc, n) <==> AllRight(doc, n - 1) && RightAt(doc, n - 1);
      if r.errors != [] {
        ErrorsStay(Lines(doc), n - 1, r);
      } else {
        ReadEntry(r, doc, n - 1);
      }
    }
  }

  /**
   A document of processes, hops, calls and blank lines, written out as text, reads back: it
   has no mistake exactly when every entry is where it may be, and then its calls are those
   written, in order, each with its depth, place, notes and process.
   */
  lemma {:induction false} TreeReadsBack(doc: seq<Entry>)
    requires AllWritable(doc)
    ensures var lines := Classified(SourceLines(Unlines(Texts(doc))));
            && |lines| == |doc|
            && (CallTree.Parsed(lines).errors == [] <==> AllRight(doc, |doc|))
            && (CallTree.Parsed(lines).errors == [] ==> ReadTo(CallTree.Read(lines, |lines|), doc, |doc|))
  {
    DocumentReadsBack(doc);
    ReadsSoFar(doc, |doc|);
  }
}
