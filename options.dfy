/**
  * The install settings of `add` in index.js (lines 189-264 and 319-322):
  * the defaults taken when an option is missing, the quoting of argument
  * lists, the encodings of the dependency list and of the run levels, the
  * control file paths, and the two substitution tables the renderer
  * applies.
  *
  * An option counts as given the way JavaScript's `||` and `?:` test it: a
  * string option must be present and non-empty, while a list option need
  * only be present (an empty array is truthy).
  */
module Options {
  import opened Strings
  import opened Wrappers
  import opened Templates
  import opened Render

  /** The `options` object passed to `add`; `None` marks a missing property. */
  datatype ServiceOptions = ServiceOptions(
    displayName: Option<string>,
    nodePath: Option<string>,
    nodeArgs: Option<seq<string>>,
    programPath: Option<string>,
    programArgs: Option<seq<string>>,
    runLevels: Option<seq<nat>>,
    dependencies: Option<seq<string>>,
    username: Option<string>,
    password: Option<string>,
    systemdWantedBy: Option<string>)

  /** The object `{}` that `add(name, cb)` uses as its options. */
  const NoOptions := ServiceOptions(None, None, None, None, None, None, None, None, None, None)

  /** What the running process supplies: `process.execPath` and `process.argv[1]`. */
  datatype ProcessInfo = ProcessInfo(execPath: string, script: string)

  /**
    * The options every guarded read (`options && options.x`) sees: those
    * given, or none at all for a null `options`.
    */
  function Effective(options: Option<ServiceOptions>): ServiceOptions {
    if options.Some? then options.value else NoOptions
  }

  // ----- Defaults -----

  /** A string option is taken when it is present and not empty. */
  predicate Given(v: Option<string>) {
    v.Some? && v.value != ""
  }

  /** `v || fallback` for a string option. */
  function StringOr(v: Option<string>, fallback: string): (r: string)
    ensures Given(v) ==> r == v.value
    ensures !Given(v) ==> r == fallback
    ensures r != "" <==> Given(v) || fallback != ""
  {
    if Given(v) then v.value else fallback
  }

  /** `v ? v : fallback` for a list option: any present list is taken, even an empty one. */
  function ListOr<T>(v: Option<seq<T>>, fallback: seq<T>): seq<T> {
    if v.Some? then v.value else fallback
  }

  /** The program that runs the service: `options.nodePath`, else the running executable. */
  function ChosenNodePath(o: ServiceOptions, proc: ProcessInfo): string {
    StringOr(o.nodePath, proc.execPath)
  }

  /** The script the service runs: `options.programPath`, else the running script. */
  function ChosenProgramPath(o: ServiceOptions, proc: ProcessInfo): string {
    StringOr(o.programPath, proc.script)
  }

  /** The name the Windows service manager shows: `options.displayName`, else the service name. */
  function ChosenDisplayName(o: ServiceOptions, name: string): string {
    StringOr(o.displayName, name)
  }

  /** `options.username || null` and `options.password || null`. */
  function Credential(v: Option<string>): (r: Option<string>)
    ensures r.Some? <==> Given(v)
    ensures r.Some? ==> r == v && r.value != ""
  {
    if Given(v) then v else None
  }

  const DefaultRunLevels: seq<nat> := [2, 3, 4, 5]

  const DefaultWantedBy := "multi-user.target"

  function ChosenRunLevels(o: ServiceOptions): seq<nat> {
    ListOr(o.runLevels, DefaultRunLevels)
  }

  function ChosenWantedBy(o: ServiceOptions): string {
    StringOr(o.systemdWantedBy, DefaultWantedBy)
  }

  /**
    * With no options at all, every setting takes its default, and a null
    * `options` reads the same as `{}`.
    */
  lemma {:induction false} DefaultsOfNoOptions(options: Option<ServiceOptions>, name: string, proc: ProcessInfo)
    requires options == None || options == Some(NoOptions)
    ensures ChosenNodePath(Effective(options), proc) == proc.execPath
    ensures ChosenProgramPath(Effective(options), proc) == proc.script
    ensures ChosenDisplayName(Effective(options), name) == name
    ensures Credential(Effective(options).username) == None && Credential(Effective(options).password) == None
    ensures ChosenRunLevels(Effective(options)) == [2, 3, 4, 5]
    ensures ChosenWantedBy(Effective(options)) == "multi-user.target"
    ensures ListOr(Effective(options).nodeArgs, []) == [] && ListOr(Effective(options).programArgs, []) == []
  {
    assert Effective(options) == NoOptions;
  }

  /** The defaults never yield an empty display name or service target. */
  lemma ChosenNonEmpty(o: ServiceOptions, name: string)
    requires name != ""
    ensures ChosenDisplayName(o, name) != "" && ChosenWantedBy(o) != ""
  {
    assert DefaultWantedBy[0] == 'm';
  }

  // ----- Argument quoting -----

  /** `"\"" + a + "\""`. */
  function Quote(a: string): (r: string)
    ensures |r| == |a| + 2 && r[0] == '"' && r[|r| - 1] == '"'
    ensures r[1..|r| - 1] == a
  {
    "\"" + a + "\""
  }

  /** Every argument of the list, quoted. */
  function Quoted(args: seq<string>): seq<string> {
    seq(|args|, i requires 0 <= i < |args| => Quote(args[i]))
  }

  /**
    * The quoting loop of the POSIX branch (index.js lines 242-250): each
    * argument of a present list, quoted, is pushed onto a new list; an
    * absent list gives none.
    */
  method QuoteArgs(args: Option<seq<string>>) returns (quoted: seq<string>)
    ensures quoted == Quoted(ListOr(args, []))
  {
    quoted := [];
    if args.Some? {
      var list := args.value;
      for i := 0 to |list|
        invariant quoted == Quoted(list[..i])
      {
        quoted := quoted + [Quote(list[i])];
      }
      assert list[..|list|] == list;
    }
  }

  /** The Windows service command line, unquoted: node, its arguments, the program, its arguments. */
  function ServiceArgs(nodePath: string, nodeArgs: seq<string>, programPath: string, programArgs: seq<string>): seq<string> {
    [nodePath] + nodeArgs + [programPath] + programArgs
  }

  /**
    * The Windows branch (index.js lines 211-228): the arguments are pushed
    * onto one list, then quoted in place, then joined with spaces.
    */
  method ServiceCommandLine(nodePath: string, nodeArgs: Option<seq<string>>, programPath: string,
                            programArgs: Option<seq<string>>) returns (path: string)
    ensures path == Join(Quoted(ServiceArgs(nodePath, ListOr(nodeArgs, []), programPath, ListOr(programArgs, []))), " ")
  {
    var serviceArgs := PushAll([nodePath], nodeArgs);
    serviceArgs := PushAll(serviceArgs + [programPath], programArgs);
    var a := new string[|serviceArgs|](i requires 0 <= i < |serviceArgs| => serviceArgs[i]);
    assert a[..] == serviceArgs;
    QuoteInPlace(a);
    path := Join(a[..], " ");
  }

  /** `for (...) list.push(extra[i])` over a list option that may be absent. */
  method PushAll(list: seq<string>, extra: Option<seq<string>>) returns (r: seq<string>)
    ensures r == list + ListOr(extra, [])
  {
    r := list;
    if extra.Some? {
      for i := 0 to |extra.value|
        invariant r == list + extra.value[..i]
      {
        r := r + [extra.value[i]];
      }
      assert extra.value[..|extra.value|] == extra.value;
    }
  }

  /** `for (...) a[i] = "\"" + a[i] + "\""`: every element quoted in place. */
  method QuoteInPlace(a: array<string>)
    modifies a
    ensures a[..] == Quoted(old(a[..]))
  {
    for i := 0 to a.Length
      invariant forall k | 0 <= k < i :: a[k] == Quote(old(a[k]))
      invariant forall k | i <= k < a.Length :: a[k] == old(a[k])
    {
      a[i] := Quote(a[i]);
    }
  }

  /** The words of a command line of quoted words: the text between each pair of double quotes. */
  function ParseQuoted(s: string): seq<string> {
    var parts := Split(s, '"');
    seq(|parts| / 2, i requires 0 <= i < |parts| / 2 => parts[2 * i + 1])
  }

  /**
    * A quoted argument list, joined with spaces, reads back as the same
    * list in the same order, provided no argument holds a double quote.
    */
  lemma ParseQuotedJoin(args: seq<string>)
    requires forall k | 0 <= k < |args| :: '"' !in args[k]
    ensures ParseQuoted(Join(Quoted(args), " ")) == args
  {
    QuotedParts(args);
  }

  /** Splitting a quoted, space-joined list at the double quotes puts the arguments at the odd places. */
  lemma {:induction false} QuotedParts(args: seq<string>)
    requires forall k | 0 <= k < |args| :: '"' !in args[k]
    ensures |Split(Join(Quoted(args), " "), '"')| == 2 * |args| + 1
    ensures forall i | 0 <= i < |args| :: Split(Join(Quoted(args), " "), '"')[2 * i + 1] == args[i]
    decreases |args|
  {
    if |args| > 0 {
      var a, r := args[0], args[1..];
      assert Quoted(args) == [Quote(a)] + Quoted(r);
      if |r| == 0 {
        assert Join(Quoted(args), " ") == [] + ['"'] + (a + ['"'] + []);
        SplitAfter([], '"', a + ['"'] + []);
        SplitAfter(a, '"', []);
      } else {
        var rest := Join(Quoted(r), " ");
        QuotedParts(r);
        assert Join(Quoted(args), " ") == Quote(a) + " " + rest;
        QuotedStep(a, rest);
        var parts := Split(Join(Quoted(args), " "), '"');
        forall i | 0 <= i < |args|
          ensures parts[2 * i + 1] == args[i]
        {
          if i > 0 {
            assert parts[2 * i + 1] == Split(rest, '"')[2 * (i - 1) + 1];
          }
        }
      }
    }
  }

  /** Splitting a quoted word, a space and a text that opens with a quote. */
  lemma QuotedStep(a: string, rest: string)
    requires '"' !in a
    requires |rest| > 0 && rest[0] == '"'
    ensures Split(Quote(a) + " " + rest, '"') == ["", a, " "] + Split(rest, '"')[1..]
  {
    QuoteThen(a, rest);
    SplitThree(a, " ", rest[1..], '"');
    assert rest == [] + ['"'] + rest[1..];
    SplitAfter([], '"', rest[1..]);
  }

  /** Splitting a text made of a separator, then `a`, a separator, `b`, a separator and `y`. */
  lemma SplitThree(a: string, b: string, y: string, c: char)
    requires c !in a && c !in b
    ensures Split([] + [c] + (a + [c] + (b + [c] + y)), c) == ["", a, b] + Split(y, c)
  {
    SplitAfter(b, c, y);
    SplitAfter(a, c, b + [c] + y);
    SplitAfter([], c, a + [c] + (b + [c] + y));
    assert [""] + ([a] + ([b] + Split(y, c))) == ["", a, b] + Split(y, c);
  }

  lemma QuoteThen(a: string, rest: string)
    requires |rest| > 0 && rest[0] == '"'
    ensures Quote(a) + " " + rest == [] + ['"'] + (a + ['"'] + (" " + ['"'] + rest[1..]))
  {
    var l, r := Quote(a) + " " + rest, [] + ['"'] + (a + ['"'] + (" " + ['"'] + rest[1..]));
    assert |l| == |r|;
    forall i | 0 <= i < |l|
      ensures l[i] == r[i]
    {
      if i == 0 {
      } else if i <= |a| {
        assert l[i] == a[i - 1];
      } else if i > |a| + 2 {
        assert l[i] == rest[i - |a| - 3];
      }
    }
  }

  // ----- Dependencies -----

  /** `options.dependencies.join(" ")` on POSIX hosts, or `""` when absent. */
  function PosixDependencies(o: ServiceOptions): (r: string)
    ensures o.dependencies.None? ==> r == ""
  {
    if o.dependencies.Some? then Join(o.dependencies.value, " ") else ""
  }

  /** The space-joined dependency list splits back into the names when none holds a space. */
  lemma PosixDependenciesSplit(o: ServiceOptions)
    requires o.dependencies.Some? && |o.dependencies.value| >= 1
    requires forall k | 0 <= k < |o.dependencies.value| :: ' ' !in o.dependencies.value[k]
    ensures Split(PosixDependencies(o), ' ') == o.dependencies.value
  {
    SplitJoin(o.dependencies.value, ' ');
  }

  /**
    * The dependency string of the Windows branch (index.js lines 230-232):
    * the names separated and terminated by NUL characters, with one more
    * NUL closing the list, or `""` when absent. The read is not guarded by
    * `options &&`, so a null `options` throws a TypeError there, which the
    * model gives as `None`.
    */
  function WindowsDependencies(options: Option<ServiceOptions>): (r: Option<string>)
    ensures r.None? <==> options.None?
    ensures options.Some? && options.value.dependencies.None? ==> r == Some("")
    ensures options.Some? && options.value.dependencies.Some? ==> |r.value| >= 2 && r.value[|r.value| - 2..] == "\0\0"
  {
    if options.None? then None
    else if options.value.dependencies.None? then Some("")
    else Some(Join(options.value.dependencies.value, "\0") + "\0\0")
  }

  /** The names a NUL-separated list holds, read the way the Windows service manager reads it: up to the first empty one. */
  function MultiStringNames(s: string): seq<string> {
    NamesBeforeEmpty(Split(s, '\0'))
  }

  function NamesBeforeEmpty(parts: seq<string>): seq<string>
    decreases |parts|
  {
    if |parts| == 0 || parts[0] == "" then [] else [parts[0]] + NamesBeforeEmpty(parts[1..])
  }

  lemma {:induction false} NamesBeforeEmptyPrefix(names: seq<string>, rest: seq<string>)
    requires forall k | 0 <= k < |names| :: names[k] != ""
    ensures NamesBeforeEmpty(names + rest) == names + NamesBeforeEmpty(rest)
    decreases |names|
  {
    if |names| > 0 {
      var all := names + rest;
      assert all[0] == names[0] != "";
      assert all[1..] == names[1..] + rest;
      assert NamesBeforeEmpty(all) == [names[0]] + NamesBeforeEmpty(all[1..]);
      NamesBeforeEmptyPrefix(names[1..], rest);
      assert [names[0]] + names[1..] == names;
    } else {
      assert names + rest == rest;
    }
  }

  /**
    * The Windows dependency string reads back as the dependency list,
    * provided every name is non-empty and free of NUL characters.
    */
  lemma WindowsDependenciesRoundTrip(o: ServiceOptions)
    requires o.dependencies.Some?
    requires forall k | 0 <= k < |o.dependencies.value| :: o.dependencies.value[k] != "" && '\0' !in o.dependencies.value[k]
    ensures MultiStringNames(WindowsDependencies(Some(o)).value) == o.dependencies.value
  {
    var names := o.dependencies.value;
    var s := WindowsDependencies(Some(o)).value;
    assert Split([], '\0') == [""];
    SplitAfter([], '\0', []);
    assert Split("\0", '\0') == ["", ""];
    if |names| == 0 {
      assert s == [] + ['\0'] + "\0";
      SplitAfter([], '\0', "\0");
    } else {
      assert s == Join(names, ['\0']) + ['\0'] + "\0";
      SplitJoinThen(names, '\0', "\0");
      NamesBeforeEmptyPrefix(names, ["", ""]);
    }
  }

  // ----- Run levels -----

  /** `String(n)` for every run level. */
  function Numerals(levels: seq<nat>): seq<string> {
    seq(|levels|, i requires 0 <= i < |levels| => Decimal(levels[i]))
  }

  /** The value of `##RUN_LEVELS_ARR##`: `runLevels.join(" ")`. */
  function LevelsSpaced(levels: seq<nat>): string {
    Join(Numerals(levels), " ")
  }

  /** The value of `##RUN_LEVELS_STR##`: `runLevels.join("")`. */
  function LevelsPacked(levels: seq<nat>): string {
    Join(Numerals(levels), "")
  }

  /** The default run levels give `"2 3 4 5"` and `"2345"`. */
  lemma DefaultLevelStrings()
    ensures LevelsSpaced(DefaultRunLevels) == "2 3 4 5"
    ensures LevelsPacked(DefaultRunLevels) == "2345"
  {
    var n := Numerals(DefaultRunLevels);
    assert n == ["2", "3", "4", "5"];
    assert Join(n[3..], " ") == "5";
    assert Join(n[2..], " ") == "4 5";
    assert Join(n[1..], " ") == "3 4 5";
    assert Join(n[3..], "") == "5";
    assert Join(n[2..], "") == "45";
    assert Join(n[1..], "") == "345";
  }

  /** The space-joined run levels split back into their numerals. */
  lemma LevelsSpacedSplit(levels: seq<nat>)
    requires |levels| >= 1
    ensures Split(LevelsSpaced(levels), ' ') == Numerals(levels)
  {
    forall k | 0 <= k < |levels|
      ensures ' ' !in Numerals(levels)[k]
    {
      NumeralDigits(levels[k]);
    }
    SplitJoin(Numerals(levels), ' ');
  }

  /** A numeral is made of digits only. */
  lemma NumeralDigits(n: nat)
    ensures forall c | c in Decimal(n) :: '0' <= c <= '9'
  {
    var d := Decimal(n);
    forall c | c in d
      ensures '0' <= c <= '9'
    {
      var k :| 0 <= k < |d| && d[k] == c;
    }
  }

  /** Single-digit run levels concatenate to one digit per level, in order. */
  lemma {:induction false} LevelsPackedDigits(levels: seq<nat>)
    requires forall i | 0 <= i < |levels| :: levels[i] < 10
    ensures |LevelsPacked(levels)| == |levels|
    ensures forall i | 0 <= i < |levels| :: LevelsPacked(levels)[i] == Digit(levels[i])
    decreases |levels|
  {
    if |levels| > 1 {
      LevelsPackedDigits(levels[1..]);
      assert Numerals(levels)[1..] == Numerals(levels[1..]);
      assert LevelsPacked(levels) == [Digit(levels[0])] + LevelsPacked(levels[1..]);
    }
  }

  /** Run-level strings hold no `#`, no line break and no `$`. */
  lemma LevelsPlain(levels: seq<nat>, c: char)
    requires c == '#' || c == '\n' || c == '$'
    ensures c !in LevelsSpaced(levels) && c !in LevelsPacked(levels)
  {
    forall k | 0 <= k < |levels|
      ensures c !in Numerals(levels)[k]
    {
      NumeralDigits(levels[k]);
    }
    JoinAvoids(Numerals(levels), " ", c);
    JoinAvoids(Numerals(levels), "", c);
  }

  // ----- Paths -----

  const SystemDir := "/usr/lib/systemd/system"

  /** The init script of a service: `"/etc/init.d/" + name`. */
  function InitPath(name: string): string {
    "/etc/init.d/" + name
  }

  /** The unit file of a service, as `add` writes it (index.js line 264). */
  function UnitPath(name: string): string {
    "/usr/lib/systemd/system/" + name + ".service"
  }

  /** The unit file of a service, as `remove` derives it from the directory (index.js lines 373-375). */
  function UnitPathIn(dir: string, name: string): string {
    dir + "/" + name + ".service"
  }

  /** `remove` targets exactly the unit file `add` writes. */
  lemma UnitPathsAgree(name: string)
    ensures UnitPathIn(SystemDir, name) == UnitPath(name)
  {
  }

  /** Different services have different control files, and an init script is never a unit file. */
  lemma PathsInjective(a: string, b: string)
    ensures InitPath(a) == InitPath(b) ==> a == b
    ensures UnitPath(a) == UnitPath(b) ==> a == b
    ensures InitPath(a) != UnitPath(b)
  {
    if InitPath(a) == InitPath(b) {
      assert a == InitPath(a)[12..];
    }
    if UnitPath(a) == UnitPath(b) {
      assert a == UnitPath(a)[24..24 + |a|];
      assert b == UnitPath(b)[24..24 + |b|];
    }
    assert InitPath(a)[1] == 'e' && UnitPath(b)[1] == 'u';
  }

  // ----- Substitution tables -----

  /** The values the POSIX branch substitutes. */
  datatype Settings = Settings(
    name: string,
    nodePath: string,
    nodeArgs: string,
    programPath: string,
    programArgs: string,
    runLevels: seq<nat>,
    dependencies: string,
    wantedBy: string)

  /**
    * The settings of the POSIX branch (index.js lines 189-261 and 319-322):
    * the chosen paths, the quoted argument lists joined with spaces, the
    * run levels, the space-joined dependencies and the systemd target.
    */
  method PosixSettings(name: string, options: Option<ServiceOptions>, proc: ProcessInfo) returns (s: Settings)
    ensures s.name == name
    ensures s.nodePath == ChosenNodePath(Effective(options), proc)
    ensures s.programPath == ChosenProgramPath(Effective(options), proc)
    ensures s.nodeArgs == Join(Quoted(ListOr(Effective(options).nodeArgs, [])), " ")
    ensures s.programArgs == Join(Quoted(ListOr(Effective(options).programArgs, [])), " ")
    ensures s.runLevels == ChosenRunLevels(Effective(options))
    ensures s.dependencies == PosixDependencies(Effective(options))
    ensures s.wantedBy == ChosenWantedBy(Effective(options))
    ensures s == ChosenSettings(name, options, proc)
  {
    var o := Effective(options);
    var nodeArgs := QuoteArgs(o.nodeArgs);
    var programArgs := QuoteArgs(o.programArgs);
    s := Settings(name, ChosenNodePath(o, proc), Join(nodeArgs, " "), ChosenProgramPath(o, proc),
                  Join(programArgs, " "), ChosenRunLevels(o), PosixDependencies(o), ChosenWantedBy(o));
  }

  /** The settings `PosixSettings` computes, as one value. */
  function ChosenSettings(name: string, options: Option<ServiceOptions>, proc: ProcessInfo): Settings {
    var o := Effective(options);
    Settings(name, ChosenNodePath(o, proc), Join(Quoted(ListOr(o.nodeArgs, [])), " "), ChosenProgramPath(o, proc),
             Join(Quoted(ListOr(o.programArgs, [])), " "), ChosenRunLevels(o), PosixDependencies(o), ChosenWantedBy(o))
  }

  /** The replacements applied to each line of the init script, in order (index.js lines 277-284). */
  function InitTable(s: Settings): seq<Binding> {
    [ Binding(Name, s.name), Binding(NodePath, s.nodePath), Binding(NodeArgs, s.nodeArgs),
      Binding(ProgramPath, s.programPath), Binding(ProgramArgs, s.programArgs),
      Binding(RunLevelsArr, LevelsSpaced(s.runLevels)), Binding(RunLevelsStr, LevelsPacked(s.runLevels)),
      Binding(Dependencies, s.dependencies) ]
  }

  /** The replacements applied to each line of the systemd unit, in order (index.js lines 327-333). */
  function UnitTable(s: Settings): seq<Binding> {
    [ Binding(Name, s.name), Binding(NodePath, s.nodePath), Binding(NodeArgs, s.nodeArgs),
      Binding(ProgramPath, s.programPath), Binding(ProgramArgs, s.programArgs),
      Binding(SystemdWantedBy, s.wantedBy), Binding(Dependencies, s.dependencies) ]
  }

  /** The tokens a table replaces, in order. */
  function Tokens(table: seq<Binding>): seq<Token> {
    seq(|table|, i requires 0 <= i < |table| => table[i].token)
  }

  /** A table binds exactly the tokens it lists. */
  lemma {:induction false} LookupListed(table: seq<Binding>, t: Token)
    ensures Lookup(table, t).Some? <==> t in Tokens(table)
    decreases |table|
  {
    if |table| > 0 {
      LookupListed(table[1..], t);
      assert Tokens(table) == [table[0].token] + Tokens(table[1..]);
    }
  }

  /** A table in which each token's entry sits at a position the token determines replaces each token once. */
  lemma DistinctByPosition(table: seq<Binding>, position: Token -> int)
    requires forall i | 0 <= i < |table| :: position(table[i].token) == i
    ensures Distinct(table)
  {
  }

  /** The init table replaces each token once, and binds every token but the systemd target. */
  lemma InitTableSound(s: Settings)
    ensures Distinct(InitTable(s))
    ensures forall t: Token :: Lookup(InitTable(s), t).Some? <==> t != SystemdWantedBy
  {
    DistinctByPosition(InitTable(s), (t: Token) => match t case Name => 0 case NodePath => 1 case NodeArgs => 2 case ProgramPath => 3
      case ProgramArgs => 4 case RunLevelsArr => 5 case RunLevelsStr => 6 case Dependencies => 7 case SystemdWantedBy => 8);
    forall t: Token
      ensures Lookup(InitTable(s), t).Some? <==> t != SystemdWantedBy
    {
      assert Tokens(InitTable(s)) == [Name, NodePath, NodeArgs, ProgramPath, ProgramArgs, RunLevelsArr, RunLevelsStr, Dependencies];
      LookupListed(InitTable(s), t);
    }
  }

  /** The unit table replaces each token once, and binds every token but the two run-level ones. */
  lemma UnitTableSound(s: Settings)
    ensures Distinct(UnitTable(s))
    ensures forall t: Token :: Lookup(UnitTable(s), t).Some? <==> t != RunLevelsArr && t != RunLevelsStr
  {
    DistinctByPosition(UnitTable(s), (t: Token) => match t case Name => 0 case NodePath => 1 case NodeArgs => 2 case ProgramPath => 3
      case ProgramArgs => 4 case SystemdWantedBy => 5 case Dependencies => 6 case RunLevelsArr => 7 case RunLevelsStr => 8);
    forall t: Token
      ensures Lookup(UnitTable(s), t).Some? <==> t != RunLevelsArr && t != RunLevelsStr
    {
      assert Tokens(UnitTable(s)) == [Name, NodePath, NodeArgs, ProgramPath, ProgramArgs, SystemdWantedBy, Dependencies];
      LookupListed(UnitTable(s), t);
    }
  }

  /** No substituted value holds a placeholder start. */
  predicate CleanSettings(s: Settings) {
    NoMarker(s.name) && NoMarker(s.nodePath) && NoMarker(s.nodeArgs) && NoMarker(s.programPath)
    && NoMarker(s.programArgs) && NoMarker(s.dependencies) && NoMarker(s.wantedBy)
  }

  /** No substituted string holds a `$`, so no value is read as a replacement pattern. */
  predicate DollarFreeSettings(s: Settings) {
    '$' !in s.name && '$' !in s.nodePath && '$' !in s.nodeArgs && '$' !in s.programPath
    && '$' !in s.programArgs && '$' !in s.dependencies && '$' !in s.wantedBy
  }

  /** No substituted value holds a line break. */
  predicate SingleLineSettings(s: Settings) {
    '\n' !in s.name && '\n' !in s.nodePath && '\n' !in s.nodeArgs && '\n' !in s.programPath
    && '\n' !in s.programArgs && '\n' !in s.dependencies && '\n' !in s.wantedBy
  }

  lemma HashFreeNoMarker(s: string)
    requires '#' !in s
    ensures NoMarker(s)
  {
  }

  /**
    * A rendered init-script template holds no placeholder when no value
    * holds a placeholder start; `InitScript` is such a template.
    */
  lemma InitScriptComplete(template: seq<InitLine>, s: Settings, u: Token)
    requires CleanSettings(s)
    ensures !Contains(Join(RenderedLines(template, InitTable(s)), "\n"), Placeholder(u))
  {
    InitTableSound(s);
    LevelsPlain(s.runLevels, '#');
    HashFreeNoMarker(LevelsSpaced(s.runLevels));
    HashFreeNoMarker(LevelsPacked(s.runLevels));
    RenderedTextComplete(template, InitTable(s), u);
  }

  /**
    * A rendered unit template holds no placeholder when no value holds a
    * placeholder start; `SystemUnit` is such a template.
    */
  lemma UnitComplete(template: seq<UnitLine>, s: Settings, u: Token)
    requires CleanSettings(s)
    ensures !Contains(Join(RenderedLines(template, UnitTable(s)), "\n"), Placeholder(u))
  {
    UnitTableSound(s);
    RenderedTextComplete(template, UnitTable(s), u);
  }

  /** With single-line values, a rendered init-script template has exactly one line per template line. */
  lemma InitScriptLines(template: seq<InitLine>, s: Settings)
    requires |template| >= 1 && SingleLineSettings(s)
    ensures |Split(Join(RenderedLines(template, InitTable(s)), "\n"), '\n')| == |template|
  {
    LevelsPlain(s.runLevels, '\n');
    RenderedTextLines(template, InitTable(s));
  }

  /** With single-line values, a rendered unit template has exactly one line per template line. */
  lemma UnitLines(template: seq<UnitLine>, s: Settings)
    requires |template| >= 1 && SingleLineSettings(s)
    ensures |Split(Join(RenderedLines(template, UnitTable(s)), "\n"), '\n')| == |template|
  {
    RenderedTextLines(template, UnitTable(s));
  }
}
