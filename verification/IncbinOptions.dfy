/** incbin's command line: a loop over argv that deletes the arguments it consumes from the array.

    `argv` holds the arguments after the program name and then the null pointer.  Names are assumed
    to fit the fixed buffers they are copied to.
 */
module IncbinOptions {

  import opened Wrappers

  const SEARCH_PATHS_MAX: nat := 64
  const FILE_PATHS_MAX: nat := 1024

  datatype Options = Options(outfile: string, prefix: string, snake: bool, paths: seq<string>, files: seq<string>)

  const DEFAULTS := Options("data.c", "g", false, [], [])

  datatype Outcome =
    | Parsed(o: Options)
    | Usage
    | TooManyPaths
    | TooManyFiles
    | NullRead      // the null pointer after the arguments is dereferenced

  // ---------------------------------------------------------------------------
  // The recursive parse
  // ---------------------------------------------------------------------------

  function ToLower(c: char): char {
    if 'A' <= c <= 'Z' then (c as int + 32) as char else c
  }

  function Lower(s: string): (r: string)
    ensures |r| == |s|
  {
    seq(|s|, i requires 0 <= i < |s| => ToLower(s[i]))
  }

  /** The style an -S option names, regardless of case: is it snake case? */
  function StyleOf(name: string): Option<bool> {
    if Lower(name) == "camel" || Lower(name) == "camelcase" then Some(false)
    else if Lower(name) == "snake" || Lower(name) == "snakecase" then Some(true)
    else None
  }

  predicate Dashed(s: string) {
    s != [] && s[0] == '-'
  }

  predicate StartsWith(s: string, p: string) {
    p <= s
  }

  /** An argument that is taken on its own: a path, a style, a request for help, or a file. */
  function TakeOne(a: string, o: Options): Outcome {
    if StartsWith(a, "-I") then
      if |o.paths| >= SEARCH_PATHS_MAX then TooManyPaths else Parsed(o.(paths := o.paths + [a[2..]]))
    else if StartsWith(a, "-S") then
      match StyleOf(a[2..])
      case None => Usage
      case Some(snake) => Parsed(o.(snake := snake))
    else if a == "-help" then Usage
    else if |o.files| >= FILE_PATHS_MAX then TooManyFiles
    else Parsed(o.(files := o.files + [a]))
  }

  /** What the arguments mean; `consumed` says whether an option before them took an argument of its own. */
  function Parse(args: seq<string>, consumed: bool, o: Options): Outcome
    decreases |args|
  {
    if args == [] then Parsed(o)
    else
      var a, rest := args[0], args[1..];
      if a == "-o" then
        if rest == [] then Parsed(o) else Parse(rest[1..], true, o.(outfile := rest[0]))
      else if a == "-p" then
        if rest == [] then (if consumed then Parsed(o.(prefix := "")) else NullRead)
        else if rest[0] == "-" then Parse(rest[1..], true, o.(prefix := ""))
        else if Dashed(rest[0]) then Parse(rest, consumed, o.(prefix := ""))
        else Parse(rest[1..], true, o.(prefix := rest[0]))
      else
        match TakeOne(a, o)
        case Parsed(o') => Parse(rest, consumed, o')
        case other => other
  }

  function Meaning(args: seq<string>): Outcome {
    if args == [] then Usage else Parse(args, false, DEFAULTS)
  }

  // ---------------------------------------------------------------------------
  // What the parse comes to
  // ---------------------------------------------------------------------------

  /** The arguments as they are taken: an output name or a prefix with its option, or an argument on its own. */
  datatype Token = Out(name: string) | Pre(name: string) | Alone(arg: string)

  function Tokens(args: seq<string>): seq<Token>
    decreases |args|
  {
    if args == [] then []
    else
      var a, rest := args[0], args[1..];
      if a == "-o" then
        if rest == [] then [] else [Out(rest[0])] + Tokens(rest[1..])
      else if a == "-p" then
        if rest == [] then [Pre("")]
        else if rest[0] == "-" then [Pre("")] + Tokens(rest[1..])
        else if Dashed(rest[0]) then [Pre("")] + Tokens(rest)
        else [Pre(rest[0])] + Tokens(rest[1..])
      else [Alone(a)] + Tokens(rest)
  }

  predicate IsPath(a: string) {
    |a| >= 2 && a[0] == '-' && a[1] == 'I'
  }

  predicate IsStyle(a: string) {
    |a| >= 2 && a[0] == '-' && a[1] == 'S'
  }

  predicate IsFile(a: string) {
    !IsPath(a) && !IsStyle(a) && a != "-help"
  }

  /** The files, the search paths, and the last of each of the other settings; `o` holds if there is none. */
  function Files(ts: seq<Token>): seq<string> {
    if ts == [] then [] else (if ts[0].Alone? && IsFile(ts[0].arg) then [ts[0].arg] else []) + Files(ts[1..])
  }

  function Paths(ts: seq<Token>): seq<string> {
    if ts == [] then [] else (if ts[0].Alone? && IsPath(ts[0].arg) then [ts[0].arg[2..]] else []) + Paths(ts[1..])
  }

  function LastOut(ts: seq<Token>, name: string): string {
    if ts == [] then name
    else if ts[|ts| - 1].Out? then ts[|ts| - 1].name
    else LastOut(ts[..|ts| - 1], name)
  }

  function LastPrefix(ts: seq<Token>, prefix: string): string {
    if ts == [] then prefix
    else if ts[|ts| - 1].Pre? then ts[|ts| - 1].name
    else LastPrefix(ts[..|ts| - 1], prefix)
  }

  function LastStyle(ts: seq<Token>, snake: bool): bool {
    if ts == [] then snake
    else
      var t := ts[|ts| - 1];
      if t.Alone? && IsStyle(t.arg) && StyleOf(t.arg[2..]).Some? then StyleOf(t.arg[2..]).value
      else LastStyle(ts[..|ts| - 1], snake)
  }

  /** Nothing asks for help, and every style is known. */
  predicate Understood(ts: seq<Token>) {
    forall i :: 0 <= i < |ts| && ts[i].Alone? ==>
      ts[i].arg != "-help" && (IsStyle(ts[i].arg) ==> StyleOf(ts[i].arg[2..]).Some?)
  }

  lemma {:induction false} LastOutCons(t: Token, ts: seq<Token>, name: string)
    ensures LastOut([t] + ts, name) == LastOut(ts, if t.Out? then t.name else name)
    decreases |ts|
  {
    if ts == [] {
      assert [t] + ts == [t] && [t][..0] == [];
    } else {
      assert ([t] + ts)[..|ts|] == [t] + ts[..|ts| - 1];
      LastOutCons(t, ts[..|ts| - 1], name);
    }
  }

  lemma {:induction false} LastPrefixCons(t: Token, ts: seq<Token>, prefix: string)
    ensures LastPrefix([t] + ts, prefix) == LastPrefix(ts, if t.Pre? then t.name else prefix)
    decreases |ts|
  {
    if ts == [] {
      assert [t] + ts == [t] && [t][..0] == [];
    } else {
      assert ([t] + ts)[..|ts|] == [t] + ts[..|ts| - 1];
      LastPrefixCons(t, ts[..|ts| - 1], prefix);
    }
  }

  function StyleAfter(t: Token, snake: bool): bool {
    if t.Alone? && IsStyle(t.arg) && StyleOf(t.arg[2..]).Some? then StyleOf(t.arg[2..]).value else snake
  }

  lemma {:induction false} LastStyleCons(t: Token, ts: seq<Token>, snake: bool)
    ensures LastStyle([t] + ts, snake) == LastStyle(ts, StyleAfter(t, snake))
    decreases |ts|
  {
    if ts == [] {
      assert [t] + ts == [t] && [t][..0] == [];
    } else {
      assert ([t] + ts)[..|ts|] == [t] + ts[..|ts| - 1];
      LastStyleCons(t, ts[..|ts| - 1], snake);
    }
  }

  /** The options `o` with what the tokens set. */
  function Setting(ts: seq<Token>, o: Options): Options {
    Options(LastOut(ts, o.outfile), LastPrefix(ts, o.prefix), LastStyle(ts, o.snake),
            o.paths + Paths(ts), o.files + Files(ts))
  }

  /** The options with what one token sets. */
  function SetOne(t: Token, o: Options): Options {
    match t
    case Out(name) => o.(outfile := name)
    case Pre(name) => o.(prefix := name)
    case Alone(a) =>
      if IsPath(a) then o.(paths := o.paths + [a[2..]])
      else if IsStyle(a) then o.(snake := StyleAfter(t, o.snake))
      else if IsFile(a) then o.(files := o.files + [a])
      else o
  }

  lemma FilesCons(t: Token, ts: seq<Token>, o: Options)
    ensures o.files + Files([t] + ts) == SetOne(t, o).files + Files(ts)
  {
    assert ([t] + ts)[0] == t && ([t] + ts)[1..] == ts;
  }

  lemma PathsCons(t: Token, ts: seq<Token>, o: Options)
    ensures o.paths + Paths([t] + ts) == SetOne(t, o).paths + Paths(ts)
  {
    assert ([t] + ts)[0] == t && ([t] + ts)[1..] == ts;
  }

  lemma SettingCons(t: Token, ts: seq<Token>, o: Options)
    ensures Setting([t] + ts, o) == Setting(ts, SetOne(t, o))
  {
    LastOutCons(t, ts, o.outfile);
    LastPrefixCons(t, ts, o.prefix);
    LastStyleCons(t, ts, o.snake);
    FilesCons(t, ts, o);
    PathsCons(t, ts, o);
  }

  /** The arguments are understood and fit into what `o` leaves of the tables. */
  predicate Fits(ts: seq<Token>, o: Options) {
    && Understood(ts)
    && |o.paths| + |Paths(ts)| <= SEARCH_PATHS_MAX && |o.files| + |Files(ts)| <= FILE_PATHS_MAX
  }

  lemma FitsCons(t: Token, ts: seq<Token>, o: Options)
    requires |o.paths| <= SEARCH_PATHS_MAX && |o.files| <= FILE_PATHS_MAX
    ensures Fits([t] + ts, o) <==>
      && Understood([t]) && Fits(ts, SetOne(t, o))
      && (t.Alone? && IsPath(t.arg) ==> |o.paths| < SEARCH_PATHS_MAX)
      && (t.Alone? && IsFile(t.arg) ==> |o.files| < FILE_PATHS_MAX)
  {
    var all := [t] + ts;
    assert all[0] == t && all[1..] == ts && [t][0] == t;
    assert forall i :: 1 <= i < |all| ==> all[i] == ts[i - 1];
    assert forall i :: 0 <= i < |ts| ==> ts[i] == all[i + 1];
  }

  /** An argument on its own is taken exactly when it is understood and there is room for it. */
  lemma TakeOneIs(a: string, o: Options)
    requires a != "-o" && a != "-p" && |o.paths| <= SEARCH_PATHS_MAX && |o.files| <= FILE_PATHS_MAX
    ensures var t := Alone(a);
      if Understood([t]) && (IsPath(a) ==> |o.paths| < SEARCH_PATHS_MAX) && (IsFile(a) ==> |o.files| < FILE_PATHS_MAX)
      then TakeOne(a, o) == Parsed(SetOne(t, o)) else !TakeOne(a, o).Parsed?
  {
    assert StartsWith(a, "-I") <==> IsPath(a);
    assert StartsWith(a, "-S") <==> IsStyle(a);
    assert [Alone(a)][0] == Alone(a);
  }

  /** What parsing should come to. */
  ghost predicate ParsedAs(args: seq<string>, consumed: bool, o: Options) {
    var r := Parse(args, consumed, o);
    && (r.Parsed? <==> Fits(Tokens(args), o) && r != NullRead)
    && (r.Parsed? ==> r.o == Setting(Tokens(args), o))
  }

  /** One option with its argument. */
  lemma StepParsedAs(args: seq<string>, consumed: bool, o: Options, t: Token, left: seq<string>, consumed': bool)
    requires |o.paths| <= SEARCH_PATHS_MAX && |o.files| <= FILE_PATHS_MAX && !t.Alone?
    requires Parse(args, consumed, o) == Parse(left, consumed', SetOne(t, o)) && Tokens(args) == [t] + Tokens(left)
    requires ParsedAs(left, consumed', SetOne(t, o))
    ensures ParsedAs(args, consumed, o)
  {
    SettingCons(t, Tokens(left), o);
    FitsCons(t, Tokens(left), o);
  }

  lemma AloneParsedAs(args: seq<string>, consumed: bool, o: Options)
    requires |o.paths| <= SEARCH_PATHS_MAX && |o.files| <= FILE_PATHS_MAX
    requires args != [] && args[0] != "-o" && args[0] != "-p"
    requires TakeOne(args[0], o).Parsed? ==> ParsedAs(args[1..], consumed, SetOne(Alone(args[0]), o))
    ensures ParsedAs(args, consumed, o)
  {
    var t, ts := Alone(args[0]), Tokens(args[1..]);
    TakeOneIs(args[0], o);
    SettingCons(t, ts, o);
    FitsCons(t, ts, o);
    assert Tokens(args) == [t] + ts;
  }

  lemma LastPrefixParsedAs(consumed: bool, o: Options)
    requires |o.paths| <= SEARCH_PATHS_MAX && |o.files| <= FILE_PATHS_MAX
    ensures ParsedAs(["-p"], consumed, o)
  {
    var t := Pre("");
    SettingCons(t, [], o);
    FitsCons(t, [], o);
    assert Setting([], o.(prefix := "")) == o.(prefix := "");
    assert Tokens(["-p"]) == [t] && [t] + [] == [t];
  }

  /** Main result on options: the command line is parsed exactly when its arguments are understood and fit, and
      nothing is read through the null pointer; the result is then what its tokens set, in order. */
  lemma {:induction false} ParseIs(args: seq<string>, consumed: bool, o: Options)
    requires |o.paths| <= SEARCH_PATHS_MAX && |o.files| <= FILE_PATHS_MAX
    ensures ParsedAs(args, consumed, o)
    decreases |args|
  {
    if args == [] || (args[0] == "-o" && |args| == 1) {
      assert Setting([], o) == o;
    } else if args[0] == "-p" && |args| == 1 {
      assert args == ["-p"];
      LastPrefixParsedAs(consumed, o);
    } else {
      var a, rest := args[0], args[1..];
      if a == "-o" {
        ParseIs(rest[1..], true, o.(outfile := rest[0]));
        StepParsedAs(args, consumed, o, Out(rest[0]), rest[1..], true);
      } else if a == "-p" && (rest[0] == "-" || !Dashed(rest[0])) {
        var prefix := if rest[0] == "-" then "" else rest[0];
        ParseIs(rest[1..], true, o.(prefix := prefix));
        StepParsedAs(args, consumed, o, Pre(prefix), rest[1..], true);
      } else if a == "-p" {
        ParseIs(rest, consumed, o.(prefix := ""));
        StepParsedAs(args, consumed, o, Pre(""), rest, consumed);
      } else {
        if TakeOne(a, o).Parsed? {
          TakeOneIs(a, o);
          ParseIs(rest, consumed, SetOne(Alone(a), o));
        }
        AloneParsedAs(args, consumed, o);
      }
    }
  }

  /** So for a whole command line: it needs an argument, and then its settings replace the defaults. */
  lemma MeaningIs(args: seq<string>)
    requires args != [] && Meaning(args) != NullRead
    ensures Meaning(args).Parsed? <==>
      Understood(Tokens(args)) && |Paths(Tokens(args))| <= SEARCH_PATHS_MAX && |Files(Tokens(args))| <= FILE_PATHS_MAX
    ensures Meaning(args).Parsed? ==> var o := Meaning(args).o; var ts := Tokens(args);
      && o.files == Files(ts) && o.paths == Paths(ts)
      && o.outfile == LastOut(ts, "data.c") && o.prefix == LastPrefix(ts, "g") && o.snake == LastStyle(ts, false)
  {
    ParseIs(args, false, DEFAULTS);
  }

  // ---------------------------------------------------------------------------
  // Command lines as they are written
  // ---------------------------------------------------------------------------

  function WithPaths(paths: seq<string>): seq<string> {
    if paths == [] then [] else ["-I" + paths[0]] + WithPaths(paths[1..])
  }

  /** A command line for the options `o`. */
  function CommandLine(o: Options): seq<string> {
    ["-o", o.outfile] + (["-p", o.prefix] + ([if o.snake then "-Ssnake" else "-Scamel"] + (WithPaths(o.paths) + o.files)))
  }

  /** A file name that is not an option. */
  predicate Plain(a: string) {
    IsFile(a) && a != "-o" && a != "-p"
  }

  lemma {:induction false} FilesParse(files: seq<string>, o: Options)
    requires forall i :: 0 <= i < |files| ==> Plain(files[i])
    requires |o.files| + |files| <= FILE_PATHS_MAX && |o.paths| <= SEARCH_PATHS_MAX
    ensures Parse(files, true, o) == Parsed(o.(files := o.files + files))
    decreases |files|
  {
    if files == [] {
      assert o.files + files == o.files;
    } else {
      var o1 := o.(files := o.files + [files[0]]);
      TakeOneIs(files[0], o);
      assert [Alone(files[0])][0] == Alone(files[0]);
      FilesParse(files[1..], o1);
      assert o1.files + files[1..] == o.files + files;
    }
  }

  lemma {:induction false} PathsParse(paths: seq<string>, left: seq<string>, o: Options)
    requires |o.paths| + |paths| <= SEARCH_PATHS_MAX
    ensures Parse(WithPaths(paths) + left, true, o) == Parse(left, true, o.(paths := o.paths + paths))
    decreases |paths|
  {
    if paths == [] {
      assert WithPaths(paths) + left == left && o.paths + paths == o.paths;
    } else {
      var a := "-I" + paths[0];
      var args := WithPaths(paths) + left;
      assert args[0] == a && args[1..] == WithPaths(paths[1..]) + left;
      assert a[..2] == "-I" && a[2..] == paths[0] && a[1] == 'I';
      assert TakeOne(a, o) == Parsed(o.(paths := o.paths + [paths[0]]));
      PathsParse(paths[1..], left, o.(paths := o.paths + [paths[0]]));
      assert o.paths + [paths[0]] + paths[1..] == o.paths + paths;
    }
  }

  lemma StyleParses(snake: bool, left: seq<string>, o: Options)
    ensures Parse([if snake then "-Ssnake" else "-Scamel"] + left, true, o) == Parse(left, true, o.(snake := snake))
  {
    var a := if snake then "-Ssnake" else "-Scamel";
    var name := if snake then "snake" else "camel";
    assert a == "-S" + name && a[..2] == "-S" && a[2..] == name && a[0] == '-' && a[1] == 'S';
    StyleIff(name);
    assert ([a] + left)[0] == a && ([a] + left)[1..] == left;
    assert TakeOne(a, o) == Parsed(o.(snake := snake));
  }

  /** Round trip: for any output name, undashed prefix, style, search paths and file names that are not options, as
      many as there is room for, the command line that writes them is parsed to exactly them. */
  lemma WrittenIsParsed(o: Options)
    requires !Dashed(o.prefix) && forall i :: 0 <= i < |o.files| ==> Plain(o.files[i])
    requires |o.paths| <= SEARCH_PATHS_MAX && |o.files| <= FILE_PATHS_MAX
    ensures Meaning(CommandLine(o)) == Parsed(o)
  {
    var tail := WithPaths(o.paths) + o.files;
    var styled := [if o.snake then "-Ssnake" else "-Scamel"] + tail;
    var prefixed := ["-p", o.prefix] + styled;
    var o1 := DEFAULTS.(outfile := o.outfile);
    var o2 := o1.(prefix := o.prefix);
    var o3 := o2.(snake := o.snake);
    assert CommandLine(o)[1..][1..] == prefixed && prefixed[1..][1..] == styled;
    assert Parse(CommandLine(o), false, DEFAULTS) == Parse(prefixed, true, o1);
    assert Parse(prefixed, true, o1) == Parse(styled, true, o2);
    StyleParses(o.snake, tail, o2);
    PathsParse(o.paths, o.files, o3);
    assert [] + o.paths == o.paths && [] + o.files == o.files;
    FilesParse(o.files, o3.(paths := o.paths));
  }

  /** The letters of two names differ in case only. */
  predicate SameButCase(s: string, t: string) {
    |s| == |t| && forall i :: 0 <= i < |s| ==> SameLetter(s[i], t[i])
  }

  predicate SameLetter(c: char, d: char) {
    || c == d
    || ('a' <= c <= 'z' && 'A' <= d <= 'Z' && c as int - 'a' as int == d as int - 'A' as int)
    || ('A' <= c <= 'Z' && 'a' <= d <= 'z' && c as int - 'A' as int == d as int - 'a' as int)
  }

  lemma LowerLetterIff(c: char, d: char)
    ensures ToLower(c) == ToLower(d) <==> SameLetter(c, d)
  {
  }

  lemma LowerIff(s: string, t: string)
    ensures Lower(s) == Lower(t) <==> SameButCase(s, t)
  {
    if |s| == |t| {
      forall i | 0 <= i < |s|
        ensures Lower(s)[i] == Lower(t)[i] <==> SameLetter(s[i], t[i])
      {
        LowerLetterIff(s[i], t[i]);
      }
    } else {
      assert |Lower(s)| != |Lower(t)|;
    }
  }

  /** The styles known, in any mixture of cases. */
  lemma StyleIff(name: string)
    ensures StyleOf(name) == Some(false) <==> SameButCase(name, "camel") || SameButCase(name, "camelcase")
    ensures StyleOf(name) == Some(true) <==> SameButCase(name, "snake") || SameButCase(name, "snakecase")
  {
    LowerIff(name, "camel");
    LowerIff(name, "camelcase");
    LowerIff(name, "snake");
    LowerIff(name, "snakecase");
    assert Lower("camel") == "camel" && Lower("camelcase") == "camelcase";
    assert Lower("snake") == "snake" && Lower("snakecase") == "snakecase";
  }

  // ---------------------------------------------------------------------------
  // "-p" with no prefix
  // ---------------------------------------------------------------------------

  /** Every argument is taken on its own, and `o` is what they set; none of them consumes the next. */
  function TakenSingly(args: seq<string>, next: string, o: Options): Option<Options>
    decreases |args|
  {
    if args == [] then Some(o)
    else
      var a, rest := args[0], args[1..];
      var following := if rest == [] then next else rest[0];
      if a == "-o" then None
      else if a == "-p" then
        if Dashed(following) && following != "-" then TakenSingly(rest, next, o.(prefix := "")) else None
      else
        match TakeOne(a, o)
        case Parsed(o') => TakenSingly(rest, next, o')
        case _ => None
  }

  /** The program promises to accept "-p" with no prefix.  It does, unless "-p" is the last argument and
      every argument before it was taken on its own: then it reads through the null pointer. */
  lemma {:induction false} NullReadIff(args: seq<string>, consumed: bool, o: Options)
    ensures Parse(args, consumed, o) == NullRead <==>
      && !consumed && args != [] && args[|args| - 1] == "-p"
      && TakenSingly(args[..|args| - 1], "-p", o).Some?
    decreases |args|
  {
    if |args| == 1 {
      assert args[..0] == [];
    } else if |args| > 1 {
      var a, rest := args[0], args[1..];
      assert args[..|args| - 1][1..] == rest[..|rest| - 1];
      assert args[|args| - 1] == rest[|rest| - 1];
      if a == "-o" {
        NullReadIff(rest[1..], true, o.(outfile := rest[0]));
      } else if a == "-p" {
        if rest[0] == "-" {
          NullReadIff(rest[1..], true, o.(prefix := ""));
        } else if Dashed(rest[0]) {
          NullReadIff(rest, consumed, o.(prefix := ""));
        } else {
          NullReadIff(rest[1..], true, o.(prefix := rest[0]));
        }
      } else if TakeOne(a, o).Parsed? {
        NullReadIff(rest, consumed, TakeOne(a, o).o);
      }
    }
  }

  /** The shortest case: "-p" alone. */
  lemma PrefixAloneReadsNull()
    ensures Meaning(["-p"]) == NullRead
  {
  }

  // ---------------------------------------------------------------------------
  // The loop
  // ---------------------------------------------------------------------------

  ghost predicate AllSome(argv: seq<Option<string>>, i: nat, argc: nat) {
    i <= argc <= |argv| && forall k :: i <= k < argc ==> argv[k].Some?
  }

  /** The arguments from `i` on, while `argc` of them are left. */
  ghost function Left(argv: seq<Option<string>>, i: nat, argc: nat): (l: seq<string>)
    requires AllSome(argv, i, argc)
    ensures |l| == argc - i && forall k :: 0 <= k < |l| ==> l[k] == argv[i + k].value
  {
    seq(argc - i, k requires 0 <= k < argc - i => argv[i + k].value)
  }

  /** The array after the element behind position `i` has been moved over by the ones after it, up to `argc`. */
  function Deleted(v: seq<Option<string>>, i: nat, argc: nat): seq<Option<string>>
    requires i + 1 < argc < |v|
  {
    v[..i + 1] + v[i + 2..argc] + v[argc - 1..]
  }

  lemma DeletedLeaves(v: seq<Option<string>>, i: nat, argc: nat)
    requires i + 1 < argc < |v| && AllSome(v, i, argc)
    ensures var w := Deleted(v, i, argc);
      && |w| == |v| && AllSome(w, i + 1, argc - 1) && Left(w, i + 1, argc - 1) == Left(v, i, argc)[1..][1..]
      && (i + 1 < argc - 1 ==> w[argc - 1] == w[argc - 2])
  {
    var w := Deleted(v, i, argc);
    assert forall k :: i + 1 <= k < argc - 1 ==> w[k] == v[k + 1];
    assert Left(w, i + 1, argc - 1) == Left(v, i, argc)[1..][1..];
  }

  /** The arguments after the one behind position `i` move down by one place. */
  method DeleteNext(argv: array<Option<string>>, i: nat, argc: nat)
    requires i + 1 < argc < argv.Length
    modifies argv
    ensures argv[..] == Deleted(old(argv[..]), i, argc)
  {
    for k := i + 1 to argc - 1
      invariant forall j :: i + 1 <= j < k ==> argv[j] == old(argv[j + 1])
      invariant forall j :: k <= j < argv.Length ==> argv[j] == old(argv[j])
      invariant forall j :: 0 <= j <= i ==> argv[j] == old(argv[j])
    {
      argv[k] := argv[k + 1];
    }
  }

  /** The array during the loop: behind the `argc` arguments comes the null pointer, or, once an
      argument has been deleted, the last of them again. */
  ghost predicate InLoop(v: seq<Option<string>>, i: nat, argc: nat, consumed: bool) {
    && AllSome(v, i, argc) && argc < |v|
    && (!consumed ==> v[argc] == None)
    && (consumed && i < argc ==> v[argc] == v[argc - 1])
  }

  lemma NextArgument(v: seq<Option<string>>, i: nat, argc: nat, consumed: bool)
    requires InLoop(v, i, argc, consumed) && i < argc
    ensures InLoop(v, i + 1, argc, consumed) && Left(v, i, argc)[1..] == Left(v, i + 1, argc)
  {
    assert Left(v, i, argc)[1..] == Left(v, i + 1, argc);
  }

  /** "-o": take the next argument, if there is one, as the output file. */
  method TakeOutfile(argv: array<Option<string>>, i: nat, argc: nat, ghost consumed: bool, o: Options)
    returns (left: nat, ghost consumed': bool, o': Options)
    requires InLoop(argv[..], i, argc, consumed) && i < argc && argv[i] == Some("-o")
    modifies argv
    ensures i < left <= argc && InLoop(argv[..], i + 1, left, consumed')
    ensures Parse(old(Left(argv[..], i, argc)), consumed, o) == Parse(Left(argv[..], i + 1, left), consumed', o')
  {
    left, consumed', o' := argc, consumed, o;
    NextArgument(argv[..], i, argc, consumed);
    if i + 1 < argc {
      o' := o.(outfile := argv[i + 1].value);
      DeletedLeaves(argv[..], i, argc);
      DeleteNext(argv, i, argc);
      left, consumed' := argc - 1, true;
    }
  }

  /** "-p": an argument that begins with a dash means no prefix and is left alone unless it is "-";
      any other is the prefix.  No options are returned when the null pointer is read. */
  method TakePrefix(argv: array<Option<string>>, i: nat, argc: nat, ghost consumed: bool, o: Options)
    returns (left: nat, ghost consumed': bool, r: Option<Options>)
    requires InLoop(argv[..], i, argc, consumed) && i < argc && argv[i] == Some("-p")
    modifies argv
    ensures r.None? ==> Parse(old(Left(argv[..], i, argc)), consumed, o) == NullRead
    ensures r.Some? ==> i < left <= argc && InLoop(argv[..], i + 1, left, consumed')
    ensures r.Some? ==>
      Parse(old(Left(argv[..], i, argc)), consumed, o) == Parse(Left(argv[..], i + 1, left), consumed', r.value)
  {
    left, consumed' := argc, consumed;
    NextArgument(argv[..], i, argc, consumed);
    if argv[i + 1] == None {
      return argc, consumed, None;
    }
    var next := argv[i + 1].value;
    r := Some(o.(prefix := ""));
    if !Dashed(next) || (i + 1 < argc && next == "-") {
      if !Dashed(next) {
        r := Some(o.(prefix := next));
      }
      DeletedLeaves(argv[..], i, argc);
      DeleteNext(argv, i, argc);
      left, consumed' := argc - 1, true;
    }
  }

  /** The option loop, on an array that holds the arguments and then the null pointer. */
  method ParseLoop(argv: array<Option<string>>, given: nat) returns (r: Outcome)
    requires given < argv.Length && AllSome(argv[..], 0, given) && argv[given] == None
    modifies argv
    ensures r == Meaning(old(Left(argv[..], 0, given)))
  {
    if given == 0 {
      return Usage;
    }
    var argc := given;
    var o := DEFAULTS;
    ghost var consumed := false;
    ghost var args := Left(argv[..], 0, given);
    var i := 0;
    while i < argc
      invariant i <= argc && InLoop(argv[..], i, argc, consumed)
      invariant Parse(Left(argv[..], i, argc), consumed, o) == Parse(args, false, DEFAULTS)
      decreases argc - i
    {
      var a := argv[i].value;
      if a == "-o" {
        argc, consumed, o := TakeOutfile(argv, i, argc, consumed, o);
      } else if a == "-p" {
        var taken;
        argc, consumed, taken := TakePrefix(argv, i, argc, consumed, o);
        if taken == None {
          return NullRead;
        }
        o := taken.value;
      } else {
        NextArgument(argv[..], i, argc, consumed);
        var t := TakeOne(a, o);
        if !t.Parsed? {
          return t;
        }
        o := t.o;
      }
      i := i + 1;
    }
    return Parsed(o);
  }
}
