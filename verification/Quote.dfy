/**
 Quoting words for a shell, and reading them back by section 2.2 (Quoting) of the POSIX
 Shell Command Language. `Words` reads one line of words, and gives up at whatever a shell
 would expand or take for an operator. `Simple` gives up too where a shell would take the
 first word for an assignment or a reserved word.
 */
module Quote {
  import opened Prelude

  const NUL: char := '\0'

  predicate Plain(c: char) {
    'a' <= c <= 'z' || 'A' <= c <= 'Z' || '0' <= c <= '9' || c in "-_./:=@,+"
  }

  predicate IsPlain(word: string) {
    word != "" && forall c <- word :: Plain(c)
  }

  /** Each quote mark closes the quotes, stands escaped, and opens them again. */
  function Escaped(word: string): string {
    if word == "" then ""
    else (if word[0] == '\'' then "'\\''" else [word[0]]) + Escaped(word[1..])
  }

  function Quoted(word: string): string {
    if IsPlain(word) then word else "'" + (Escaped(word) + "'")
  }

  function Spaced(parts: seq<string>): string {
    if parts == [] then ""
    else if |parts| == 1 then parts[0]
    else parts[0] + (" " + Spaced(parts[1..]))
  }

  function QuotedAll(words: seq<string>): seq<string> {
    seq(|words|, i requires 0 <= i < |words| => Quoted(words[i]))
  }

  function Command(words: seq<string>): string {
    Spaced(QuotedAll(words))
  }

  // The shell's reading

  datatype Mode = Bare | Single | Double

  /** What ends a word, starts an expansion or a pattern, or separates commands, unless it is quoted. */
  predicate Special(c: char) {
    c in "|&;<>()$`\n*?[#~%"
  }

  function Grow(word: Option<string>, more: string): Option<string> {
    Some((if word.Some? then word.value else "") + more)
  }

  function Then(word: Option<string>, rest: Option<seq<string>>): Option<seq<string>> {
    if rest.None? then None else if word.None? then rest else Some([word.value] + rest.value)
  }

  /** The words of `s`, with `word` the one begun before it. */
  function Read(s: string, word: Option<string>, mode: Mode): Option<seq<string>>
    decreases |s|
  {
    if s == "" then if mode.Bare? then Then(word, Some([])) else None
    else
      var c, rest := s[0], s[1..];
      if c == NUL then None
      else match mode
        case Bare =>
          if c == ' ' || c == '\t' then Then(word, Read(rest, None, Bare))
          else if c == '\'' then Read(rest, Grow(word, ""), Single)
          else if c == '"' then Read(rest, Grow(word, ""), Double)
          else if c == '\\' then
            if rest == "" || rest[0] == NUL then None
            else if rest[0] == '\n' then Read(rest[1..], word, Bare)
            else Read(rest[1..], Grow(word, [rest[0]]), Bare)
          else if Special(c) then None
          else Read(rest, Grow(word, [c]), Bare)
        case Single =>
          if c == '\'' then Read(rest, word, Bare) else Read(rest, Grow(word, [c]), Single)
        case Double =>
          if c == '"' then Read(rest, word, Bare)
          else if c == '$' || c == '`' then None
          else if c == '\\' && rest != "" && rest[0] in "$`\"\\" then Read(rest[1..], Grow(word, [rest[0]]), Double)
          else if c == '\\' && rest != "" && rest[0] == '\n' then Read(rest[1..], word, Double)
          else Read(rest, Grow(word, [c]), Double)
  }

  function Words(s: string): Option<seq<string>> {
    Read(s, None, Bare)
  }

  // Reading a quoted word

  lemma {:induction false} PlainIsLiteral(c: char)
    requires Plain(c)
    ensures c != NUL && c != ' ' && c != '\t' && c != '\'' && c != '"' && c != '\\' && !Special(c)
  {
  }

  lemma {:induction false} ReadPlain(word: string, tail: string, begun: Option<string>)
    requires forall c <- word :: Plain(c)
    ensures word != "" ==> Read(word + tail, begun, Bare) == Read(tail, Grow(begun, word), Bare)
  {
    if word != "" {
      var c, rest := word[0], word[1..];
      assert c in word;
      PlainIsLiteral(c);
      assert (word + tail)[1..] == rest + tail;
      assert Read(word + tail, begun, Bare) == Read(rest + tail, Grow(begun, [c]), Bare);
      if rest == "" {
        assert word == [c] && rest + tail == tail;
      } else {
        ReadPlain(rest, tail, Grow(begun, [c]));
        assert Grow(Grow(begun, [c]), rest) == Grow(begun, word) by {
          var b := if begun.Some? then begun.value else "";
          assert word == [c] + rest;
          assert (b + [c]) + rest == b + word;
        }
      }
    }
  }

  /** A quote mark inside quotes: out, escaped, and in again. */
  lemma {:induction false} ReadMark(tail: string, begun: string)
    ensures Read("'\\''" + tail, Some(begun), Single) == Read(tail, Some(begun + "'"), Single)
  {
    var s := "'\\''" + tail;
    assert s[1..] == "\\''" + tail && s[1..][1..] == "''" + tail && s[1..][1..][1..] == "'" + tail && s[1..][1..][1..][1..] == tail;
    assert Read(s, Some(begun), Single) == Read(s[1..], Some(begun), Bare);
    assert Read(s[1..], Some(begun), Bare) == Read(s[1..][1..][1..], Some(begun + "'"), Bare);
    assert begun + "'" + "" == begun + "'";
    assert Read("'" + tail, Some(begun + "'"), Bare) == Read(tail, Some(begun + "'"), Single);
  }

  lemma {:induction false} ReadEscaped(word: string, tail: string, begun: string)
    ensures Read(Escaped(word) + ("'" + tail), Some(begun), Single) == if NUL in word then None else Read(tail, Some(begun + word), Bare)
  {
    if word == "" {
      assert Escaped(word) + ("'" + tail) == "'" + tail;
      assert ("'" + tail)[1..] == tail && begun + word == begun;
    } else {
      var c, rest := word[0], word[1..];
      assert word == [c] + rest;
      var after := Escaped(rest) + ("'" + tail);
      assert begun + word == (begun + [c]) + rest;
      if c == '\'' {
        assert Escaped(word) + ("'" + tail) == "'\\''" + after;
        ReadMark(after, begun);
        ReadEscaped(rest, tail, begun + "'");
      } else {
        var s := Escaped(word) + ("'" + tail);
        assert s == [c] + after;
        assert s[0] == c && s[1..] == after;
        if c != NUL {
          ReadEscaped(rest, tail, begun + [c]);
        }
      }
    }
  }

  lemma {:induction false} ReadQuoted(word: string, tail: string)
    ensures Read(Quoted(word) + tail, None, Bare) == if NUL in word then None else Read(tail, Some(word), Bare)
  {
    if IsPlain(word) {
      assert NUL !in word;
      ReadPlain(word, tail, None);
      assert "" + word == word;
    } else {
      var s := Quoted(word) + tail;
      assert s == "'" + (Escaped(word) + ("'" + tail));
      assert s[1..] == Escaped(word) + ("'" + tail);
      assert "" + "" == "";
      assert Read(s, None, Bare) == Read(s[1..], Some(""), Single);
      ReadEscaped(word, tail, "");
      assert "" + word == word;
    }
  }

  // Main results

  predicate NoNul(words: seq<string>) {
    forall w <- words :: NUL !in w
  }

  /** A list of quoted words, put in one line, reads back as those words exactly when none holds a NUL. */
  lemma {:induction false} CommandReadsBack(words: seq<string>)
    ensures Words(Command(words)) == if NoNul(words) then Some(words) else None
  {
    if words == [] {
    } else if |words| == 1 {
      ReadQuoted(words[0], "");
      assert Quoted(words[0]) + "" == Quoted(words[0]);
      assert words == [words[0]] && [words[0]] + [] == words;
    } else {
      var first, rest := words[0], words[1..];
      assert words == [first] + rest;
      assert QuotedAll(words)[1..] == QuotedAll(rest);
      var tail := " " + Command(rest);
      assert Command(words) == Quoted(first) + tail;
      ReadQuoted(first, tail);
      assert tail[1..] == Command(rest);
      assert Read(tail, Some(first), Bare) == Then(Some(first), Read(Command(rest), None, Bare));
      CommandReadsBack(rest);
      assert NoNul(words) <==> NUL !in first && NoNul(rest);
    }
  }

  /** So different lists of words make different commands. */
  lemma {:induction false} CommandsAreDistinct(a: seq<string>, b: seq<string>)
    requires NoNul(a) && NoNul(b) && Command(a) == Command(b)
    ensures a == b
  {
    CommandReadsBack(a);
    CommandReadsBack(b);
  }

  // The first word

  predicate NameChar(c: char) {
    'a' <= c <= 'z' || 'A' <= c <= 'Z' || '0' <= c <= '9' || c == '_'
  }

  /** How far the name goes that `s` begins with. */
  function NameEnd(s: string): (n: nat)
    ensures n <= |s| && (forall i :: 0 <= i < n ==> NameChar(s[i])) && (n < |s| ==> !NameChar(s[n]))
  {
    if s == "" || !NameChar(s[0]) then 0 else 1 + NameEnd(s[1..])
  }

  /** An unquoted name and an equals sign: section 2.10.2, rule 7, of the same language. */
  predicate Assigns(s: string) {
    0 < NameEnd(s) < |s| && !('0' <= s[0] <= '9') && s[NameEnd(s)] == '='
  }

  predicate IsReserved(word: string) {
    word in {"!", "{", "}", "case", "do", "done", "elif", "else", "esac", "fi", "for", "if", "in", "then", "until", "while"}
  }

  predicate Blank(c: char) {
    c == ' ' || c == '\t'
  }

  /** The first word, unquoted, is a reserved one: section 2.4. */
  predicate Reserved(s: string) {
    exists n :: 0 <= n <= |s| && IsReserved(s[..n]) && (n == |s| || Blank(s[n]))
  }

  function SkipBlanks(s: string): string {
    if s != "" && Blank(s[0]) then SkipBlanks(s[1..]) else s
  }

  /** The words of a line that is one simple command, its name first. */
  function Simple(s: string): Option<seq<string>> {
    if Assigns(SkipBlanks(s)) || Reserved(SkipBlanks(s)) then None else Words(s)
  }

  lemma {:induction false} ReservedIsLetters(r: string)
    requires IsReserved(r)
    ensures r != "" && forall i :: 0 <= i < |r| ==> !Blank(r[i]) && r[i] != '\''
  {
  }

  lemma {:induction false} NameEndIs(s: string, n: nat)
    requires n <= |s| && (forall i :: 0 <= i < n ==> NameChar(s[i])) && (n < |s| ==> !NameChar(s[n]))
    ensures NameEnd(s) == n
  {
  }

  predicate Ends(tail: string) {
    tail == "" || tail[0] == ' '
  }

  lemma {:induction false} AssignsAlike(word: string, tail: string)
    requires word != "" && Ends(tail)
    ensures Assigns(word + tail) <==> Assigns(word)
  {
    var n, s := NameEnd(word), word + tail;
    assert forall i :: 0 <= i < |word| ==> s[i] == word[i];
    assert tail != "" ==> s[|word|] == ' ';
    NameEndIs(s, n);
  }

  lemma {:induction false} PlainIsNotBlank(word: string, i: nat)
    requires IsPlain(word) && i < |word|
    ensures !Blank(word[i]) && word[i] != '\''
  {
    assert word[i] in word;
    PlainIsLiteral(word[i]);
  }

  lemma {:induction false} ReservedAlike(word: string, tail: string)
    requires IsPlain(word) && Ends(tail)
    ensures Reserved(word + tail) <==> IsReserved(word)
  {
    var s := word + tail;
    assert s[..|word|] == word && (tail != "" ==> s[|word|] == ' ');
    assert forall i :: 0 <= i < |word| ==> s[i] == word[i];
    hide IsReserved, IsPlain;
    if Reserved(s) {
      var n :| 0 <= n <= |s| && IsReserved(s[..n]) && (n == |s| || Blank(s[n]));
      ReservedIsLetters(s[..n]);
      if n < |word| {
        PlainIsNotBlank(word, n);
      }
    }
  }

  lemma {:induction false} QuotedIsNeither(s: string)
    requires s != "" && s[0] == '\''
    ensures !Assigns(s) && !Reserved(s)
  {
    NameEndIs(s, 0);
    hide IsReserved;
    forall n | 0 <= n <= |s| ensures !IsReserved(s[..n]) {
      QuoteIsNotReserved(s[..n]);
    }
  }

  lemma {:induction false} QuoteIsNotReserved(r: string)
    requires r == "" || r[0] == '\''
    ensures !IsReserved(r)
  {
  }

  /** The word stands unquoted, and a shell takes it for something else when it comes first. */
  predicate TakenFirst(word: string) {
    IsPlain(word) && (Assigns(word) || IsReserved(word))
  }

  lemma {:induction false} CommandStarts(words: seq<string>) returns (tail: string)
    requires words != []
    ensures Command(words) == Quoted(words[0]) + tail && Ends(tail)
  {
    if |words| == 1 {
      tail := "";
      assert Quoted(words[0]) + "" == Quoted(words[0]);
    } else {
      tail := " " + Spaced(QuotedAll(words)[1..]);
    }
  }

  lemma {:induction false} NothingIsTaken()
    ensures !Assigns("") && !Reserved("")
  {
    NameEndIs("", 0);
    assert forall n :: 0 <= n <= 0 ==> ""[..n] == "";
  }

  lemma {:induction false} FirstWordStands(words: seq<string>)
    ensures var s := Command(words);
            SkipBlanks(s) == s && (Assigns(s) || Reserved(s) <==> words != [] && TakenFirst(words[0]))
  {
    if words == [] {
      NothingIsTaken();
    } else {
      var word, s := words[0], Command(words);
      var tail := CommandStarts(words);
      if IsPlain(word) {
        AssignsAlike(word, tail);
        ReservedAlike(word, tail);
        PlainIsNotBlank(word, 0);
        assert s[0] == word[0];
      } else {
        assert s[0] == '\'';
        QuotedIsNeither(s);
      }
      hide Command, IsPlain, Assigns, Reserved, IsReserved;
    }
  }

  /**
   As a simple command, a list of quoted words reads back exactly when none holds a NUL and
   the first, left unquoted, is neither an assignment nor a reserved word.
   */
  lemma {:induction false} SimpleCommandReadsBackIff(words: seq<string>)
    ensures Simple(Command(words)) == if NoNul(words) && (words == [] || !TakenFirst(words[0])) then Some(words) else None
  {
    CommandReadsBack(words);
    FirstWordStands(words);
    hide Assigns, Reserved, Words, Command, TakenFirst, NoNul;
  }

  /** One that doesn't: the first word passes for an assignment. */
  lemma {:induction false} AssignmentIsTaken()
    ensures Simple(Command(["A=b", "c"])) == None
  {
    NameEndIs("A=b", 1);
    assert IsPlain("A=b");
    SimpleCommandReadsBackIff(["A=b", "c"]);
  }

  // One shell inside another

  /** What runs a command as the user inside an instance. */
  function InstancePrefix(instance: string): seq<string> {
    ["sudo", "incus", "exec", instance, "--user", "1000", "--group", "1000", "--cwd", "/home/kanna",
     "--env", "HOME=/home/kanna", "--env", "USER=kanna", "--env", "XDG_RUNTIME_DIR=/run/user/1000",
     "--env", "PATH=/home/kanna/.local/bin:" + "/usr/local/bin:/usr/bin:/bin", "--", "bash", "-c"]
  }

  function AsKanna(instance: string, command: string): string {
    Spaced(InstancePrefix(instance) + [Quoted(command)])
  }

  /** The form of an instance's name: "kc-" and eight lower-case hexadecimal digits. */
  predicate IsInstance(name: string) {
    |name| == 11 && name[..3] == "kc-" && forall c <- name[3..] :: '0' <= c <= '9' || 'a' <= c <= 'f'
  }

  lemma {:induction false} InstanceIsPlain(name: string)
    requires IsInstance(name)
    ensures IsPlain(name)
  {
    forall c <- name ensures Plain(c) {
      assert name == name[..3] + name[3..];
      assert c in "kc-" || c in name[3..];
    }
  }

  lemma {:induction false} PlainParts()
    ensures IsPlain("sudo") && IsPlain("incus") && IsPlain("exec") && IsPlain("bash") && IsPlain("-c") && IsPlain("--")
  {
  }

  lemma {:induction false} PlainOptions()
    ensures IsPlain("--user") && IsPlain("--group") && IsPlain("--cwd") && IsPlain("--env") && IsPlain("1000")
  {
  }

  lemma {:induction false} PlainPaths()
    ensures IsPlain("/home/kanna") && IsPlain("HOME=/home/kanna") && IsPlain("USER=kanna")
  {
  }

  lemma {:induction false} PlainRuntime()
    ensures IsPlain("XDG_RUNTIME_DIR=/run/user/1000")
  {
  }

  lemma {:induction false} PlainPath()
    ensures IsPlain("PATH=/home/kanna/.local/bin:" + "/usr/local/bin:/usr/bin:/bin")
  {
    PlainHome();
    PlainSystem();
    hide IsPlain;
    PlainConcat("PATH=/home/kanna/.local/bin:", "/usr/local/bin:/usr/bin:/bin");
  }

  lemma {:induction false} PlainHome()
    ensures IsPlain("PATH=/home/kanna/.local/bin:")
  {
  }

  lemma {:induction false} PlainSystem()
    ensures IsPlain("/usr/local/bin:/usr/bin:/bin")
  {
  }

  lemma {:induction false} PlainConcat(a: string, b: string)
    requires IsPlain(a) && IsPlain(b)
    ensures IsPlain(a + b)
  {
  }

  lemma {:induction false} PrefixIsPlain(instance: string)
    requires IsPlain(instance)
    ensures forall w <- InstancePrefix(instance) :: IsPlain(w)
  {
    PlainParts();
    PlainOptions();
    PlainPaths();
    PlainRuntime();
    PlainPath();
    hide IsPlain;
  }

  /** The outer shell hands the inner one the command as it is; the inner one reads the words. */
  lemma {:induction false} NestedCommandReadsBack(instance: string, words: seq<string>)
    requires IsInstance(instance) && NoNul(words)
    ensures Words(AsKanna(instance, Command(words))) == Some(InstancePrefix(instance) + [Command(words)])
    ensures Words(Command(words)) == Some(words)
    ensures Simple(AsKanna(instance, Command(words))) == Some(InstancePrefix(instance) + [Command(words)])
    ensures Simple(Command(words)) == Some(words) <==> words == [] || !TakenFirst(words[0])
  {
    SimpleCommandReadsBackIff(words);
    CommandReadsBack(words);
    CommandHasNoNul(words);
    InstanceIsPlain(instance);
    OuterReadsBack(instance, Command(words));
  }

  /** Any command without a NUL reaches the inner shell unchanged. */
  lemma {:induction false} OuterReadsBack(instance: string, command: string)
    requires IsPlain(instance)
    ensures Words(AsKanna(instance, command)) == if NUL in command then None else Some(InstancePrefix(instance) + [command])
    ensures Simple(AsKanna(instance, command)) == Words(AsKanna(instance, command))
  {
    var all := InstancePrefix(instance) + [command];
    PrefixIsPlain(instance);
    PlainOnesStay(InstancePrefix(instance), command);
    CommandReadsBack(all);
    SimpleCommandReadsBackIff(all);
    SudoIsAName();
    assert NoNul(all) <==> NUL !in command by {
      assert command in all;
      forall w <- all ensures w == command || NUL !in w {
        assert w in InstancePrefix(instance) || w == command;
      }
    }
  }

  lemma {:induction false} SudoIsAName()
    ensures !TakenFirst("sudo")
  {
    NameEndIs("sudo", 4);
  }

  lemma {:induction false} PlainOnesStay(plain: seq<string>, last: string)
    requires forall w <- plain :: IsPlain(w)
    ensures QuotedAll(plain + [last]) == plain + [Quoted(last)]
  {
    forall i | 0 <= i < |plain| ensures Quoted(plain[i]) == plain[i] {
      assert plain[i] in plain;
    }
  }

  lemma {:induction false} EscapedHasNoNul(word: string)
    requires NUL !in word
    ensures NUL !in Escaped(word)
  {
    if word != "" {
      EscapedHasNoNul(word[1..]);
    }
  }

  lemma {:induction false} SpacedHasNoNul(parts: seq<string>)
    requires NoNul(parts)
    ensures NUL !in Spaced(parts)
  {
    if parts != [] {
      assert parts[0] in parts;
      SpacedHasNoNul(parts[1..]);
    }
  }

  lemma {:induction false} CommandHasNoNul(words: seq<string>)
    requires NoNul(words)
    ensures NUL !in Command(words)
  {
    forall w <- QuotedAll(words) ensures NUL !in w {
      var i :| 0 <= i < |words| && w == Quoted(words[i]);
      assert words[i] in words;
      EscapedHasNoNul(words[i]);
    }
    SpacedHasNoNul(QuotedAll(words));
  }

  /** The setup command: its own words, through both shells, whatever the options hold. */
  lemma {:induction false} SetUpReadsBack(dir: string, instance: string, tarball: string, agents: string, relay: string)
    requires IsPlain(dir) && IsInstance(instance) && NUL !in tarball && NUL !in agents && NUL !in relay
    ensures var setup := Spaced([dir + "/vm-setup.sh", Quoted(instance), Quoted(tarball), Quoted(agents), Quoted(relay)]);
            && Words(AsKanna(instance, setup)) == Some(InstancePrefix(instance) + [setup])
            && Words(setup) == Some([dir + "/vm-setup.sh", instance, tarball, agents, relay])
  {
    var script := dir + "/vm-setup.sh";
    var words := [script, instance, tarball, agents, relay];
    InstanceIsPlain(instance);
    assert IsPlain(script) by {
      forall c <- script ensures Plain(c) {
        assert c in dir || c in "/vm-setup.sh";
      }
    }
    assert QuotedAll(words) == [script, Quoted(instance), Quoted(tarball), Quoted(agents), Quoted(relay)];
    assert NoNul(words) by {
      assert forall c <- script :: Plain(c);
      assert forall c <- instance :: Plain(c);
    }
    NestedCommandReadsBack(instance, words);
  }
}
