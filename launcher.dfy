/**
 * The launcher of src/main.cpp: collect the positional arguments, join them into one
 * command line, copy it into a NUL-terminated buffer and start the child process with
 * CREATE_NO_WINDOW, or not, depending on how the arguments were obtained.
 *
 * Option parsing (getopt_long) and all Win32 calls are inputs, gathered in `Environment`.
 */
module Launcher {
  import opened Common
  import opened CodePages
  import opened Encoding
  import opened PointerLists
  import opened Argv

  const SPACE: Byte := 0x20
  const QUOTE: Byte := 0x22

  /** The extra cells main allocates beyond the command line. */
  const HEADROOM: nat := 1000

  // ---------------------------------------------------------------------------
  // Positional arguments

  /** The `cml.push_back` loop: the arguments from `optind` on, in order. */
  method CollectCommand(rargv: seq<String>, optind: nat) returns (cml: seq<String>)
    ensures optind <= |rargv| ==> cml == rargv[optind..]
    ensures optind > |rargv| ==> cml == []
  {
    cml := [];
    var i := optind;
    while i < |rargv|
      invariant optind <= |rargv| ==> optind <= i <= |rargv| && cml == rargv[optind..i]
      invariant optind > |rargv| ==> i == optind && cml == []
    {
      cml := cml + [rargv[i]];
      i := i + 1;
    }
  }

  // ---------------------------------------------------------------------------
  // The command line

  /** A token containing a space is wrapped in double quotes; nothing is escaped. */
  function Quote(s: String): String {
    if SPACE in s then [QUOTE] + s + [QUOTE] else s
  }

  function QuoteAll(toks: seq<String>): (r: seq<String>)
    ensures |r| == |toks| && forall i :: 0 <= i < |toks| ==> r[i] == Quote(toks[i])
  {
    seq(|toks|, i requires 0 <= i < |toks| => Quote(toks[i]))
  }

  /** The tokens with the leading empty ones removed. */
  function DropLeadingEmpty(toks: seq<String>): (r: seq<String>)
    ensures |r| <= |toks|
    ensures forall i :: 0 <= i < |toks| - |r| ==> toks[i] == []
    ensures r == [] || r[0] != []
  {
    if toks == [] then []
    else if toks[0] == [] then DropLeadingEmpty(toks[1..])
    else toks
  }

  /** The pieces joined with one space between each neighbouring pair. */
  function Intercalate(xs: seq<String>): String {
    if |xs| == 0 then []
    else if |xs| == 1 then xs[0]
    else Intercalate(xs[..|xs| - 1]) + [SPACE] + xs[|xs| - 1]
  }

  /**
   * The command line main builds: the quoted tokens joined by single spaces.  A separator
   * is added only once the line is non-empty, so empty tokens at the front leave no trace.
   */
  function CommandLine(toks: seq<String>): String {
    Intercalate(QuoteAll(DropLeadingEmpty(toks)))
  }

  lemma {:induction false} IntercalateStartsWithFirst(xs: seq<String>)
    requires xs != []
    ensures |Intercalate(xs)| >= |xs[0]| && Intercalate(xs)[..|xs[0]|] == xs[0]
  {
    if |xs| > 1 {
      var init := xs[..|xs| - 1];
      IntercalateStartsWithFirst(init);
      assert init[0] == xs[0];
    }
  }

  /** What survives is the input with its leading empty tokens cut off. */
  lemma {:induction false} DropLeadingEmptyIsSuffix(toks: seq<String>)
    ensures DropLeadingEmpty(toks) == toks[|toks| - |DropLeadingEmpty(toks)|..]
  {
    if toks != [] && toks[0] == [] {
      DropLeadingEmptyIsSuffix(toks[1..]);
      assert toks[1..][|toks| - 1 - |DropLeadingEmpty(toks[1..])|..] == toks[|toks| - |DropLeadingEmpty(toks)|..];
    }
  }

  lemma {:induction false} DropLeadingEmptySnoc(toks: seq<String>, t: String)
    ensures DropLeadingEmpty(toks + [t]) ==
            if DropLeadingEmpty(toks) == [] then DropLeadingEmpty([t]) else DropLeadingEmpty(toks) + [t]
  {
    if toks != [] {
      assert (toks + [t])[1..] == toks[1..] + [t];
      if toks[0] == [] {
        DropLeadingEmptySnoc(toks[1..], t);
      }
    }
  }

  lemma CommandLineEmpty(toks: seq<String>)
    ensures CommandLine(toks) == [] <==> DropLeadingEmpty(toks) == []
  {
  }

  /** Appending one token to the list extends the line exactly as the loop body does. */
  lemma JoinStep(toks: seq<String>, t: String)
    ensures CommandLine(toks + [t]) ==
            if CommandLine(toks) == [] then Quote(t) else CommandLine(toks) + [SPACE] + Quote(t)
  {
    DropLeadingEmptySnoc(toks, t);
    CommandLineEmpty(toks);
    var d := DropLeadingEmpty(toks);
    if d == [] {
      if t == [] {
        assert DropLeadingEmpty([t]) == [];
      } else {
        assert DropLeadingEmpty([t]) == [t];
        assert QuoteAll([t]) == [Quote(t)];
      }
    } else {
      assert DropLeadingEmpty(toks + [t]) == d + [t];
      var q := QuoteAll(d + [t]);
      assert |q| >= 2;
      assert q[..|q| - 1] == QuoteAll(d);
      assert q[|q| - 1] == Quote(t);
      assert Intercalate(q) == Intercalate(q[..|q| - 1]) + [SPACE] + q[|q| - 1];
    }
  }

  /** The `CommandLine +=` loop of main. */
  method JoinCommandLine(cml: seq<String>) returns (cl: String)
    ensures cl == Intercalate(QuoteAll(DropLeadingEmpty(cml)))
  {
    cl := [];
    var i := 0;
    while i < |cml|
      invariant 0 <= i <= |cml|
      invariant cl == CommandLine(cml[..i])
    {
      var s := cml[i];
      if SPACE in s { s := [QUOTE] + s + [QUOTE]; }
      JoinStep(cml[..i], cml[i]);
      assert cml[..i + 1] == cml[..i] + [cml[i]];
      if cl == [] { cl := s; } else { cl := cl + [SPACE] + s; }
      i := i + 1;
    }
    assert cml[..i] == cml;
    assert cl == CommandLine(cml);
  }

  /** A non-empty piece with no space at either end. */
  predicate Trimmed(s: String) {
    s != [] && s[0] != SPACE && s[|s| - 1] != SPACE
  }

  /** No two neighbouring spaces. */
  predicate NoDoubleSpace(s: String) {
    forall k :: 0 <= k < |s| - 1 ==> !(s[k] == SPACE && s[k + 1] == SPACE)
  }

  /**
   * Joining trimmed pieces gives a trimmed line in which each separator is a single space, so
   * double spaces can only come from inside the pieces.
   */
  lemma {:induction false} IntercalateTrimmed(xs: seq<String>)
    requires xs != []
    requires forall i :: 0 <= i < |xs| ==> Trimmed(xs[i])
    ensures Trimmed(Intercalate(xs))
    ensures (forall i :: 0 <= i < |xs| ==> NoDoubleSpace(xs[i])) ==> NoDoubleSpace(Intercalate(xs))
  {
    if |xs| > 1 {
      var init := xs[..|xs| - 1];
      var last := xs[|xs| - 1];
      IntercalateTrimmed(init);
      var a := Intercalate(init);
      var line := a + [SPACE] + last;
      assert Intercalate(xs) == line;
      assert line[0] == a[0] && line[|line| - 1] == last[|last| - 1];
      if forall i :: 0 <= i < |xs| ==> NoDoubleSpace(xs[i]) {
        assert forall i :: 0 <= i < |init| ==> init[i] == xs[i];
        assert NoDoubleSpace(last);
        forall k | 0 <= k < |line| - 1
          ensures !(line[k] == SPACE && line[k + 1] == SPACE)
        {
          if k < |a| - 1 {
            assert line[k] == a[k] && line[k + 1] == a[k + 1];
          } else if k == |a| - 1 {
            assert line[k] == a[|a| - 1];
          } else if k == |a| {
            assert line[k + 1] == last[0];
          } else {
            assert line[k] == last[k - |a| - 1] && line[k + 1] == last[k - |a|];
          }
        }
      }
    }
  }

  /** A token wrapped in quotes is trimmed, and gains no double space. */
  lemma QuotedTrimmed(t: String)
    ensures Trimmed([QUOTE] + t + [QUOTE])
    ensures NoDoubleSpace(t) ==> NoDoubleSpace([QUOTE] + t + [QUOTE])
  {
    var q := [QUOTE] + t + [QUOTE];
    if NoDoubleSpace(t) {
      forall k | 0 <= k < |q| - 1
        ensures !(q[k] == SPACE && q[k + 1] == SPACE)
      {
        if k == 0 {
          assert q[0] == QUOTE;
        } else if k == |q| - 2 {
          assert q[k + 1] == QUOTE;
        } else {
          assert q[k] == t[k - 1] && q[k + 1] == t[k];
        }
      }
    }
  }

  /** A non-empty token is quoted into a trimmed piece, and gains no double space. */
  lemma QuoteTrimmed(t: String)
    requires t != []
    ensures Trimmed(Quote(t))
    ensures NoDoubleSpace(t) ==> NoDoubleSpace(Quote(t))
  {
    if SPACE in t {
      QuotedTrimmed(t);
    } else {
      assert t[0] in t && t[|t| - 1] in t;
    }
  }

  /**
   * With no empty argument every argument is kept: the line is the quoted arguments joined by
   * single spaces, it neither starts nor ends with a space, and it has a double space only where
   * an argument has one.
   */
  lemma NonEmptyTokensJoinCleanly(toks: seq<String>)
    requires toks != []
    requires forall i :: 0 <= i < |toks| ==> toks[i] != []
    ensures CommandLine(toks) == Intercalate(QuoteAll(toks))
    ensures Trimmed(CommandLine(toks))
    ensures (forall i :: 0 <= i < |toks| ==> NoDoubleSpace(toks[i])) ==> NoDoubleSpace(CommandLine(toks))
  {
    assert DropLeadingEmpty(toks) == toks;
    var q := QuoteAll(toks);
    forall i | 0 <= i < |toks|
      ensures Trimmed(q[i]) && (NoDoubleSpace(toks[i]) ==> NoDoubleSpace(q[i]))
    {
      QuoteTrimmed(toks[i]);
    }
    IntercalateTrimmed(q);
  }

  /**
   * Empty arguments are neither quoted nor kept apart: at the front they vanish, at the end they
   * leave a trailing space, and in the middle a double space.
   */
  lemma EmptyArgumentsLost()
    ensures CommandLine([[], [0x61]]) == [0x61]
    ensures CommandLine([[0x61], []]) == [0x61, SPACE]
    ensures CommandLine([[0x61], [], [0x62]]) == [0x61, SPACE, SPACE, 0x62]
  {
    var front: seq<String> := [[], [0x61]];
    assert front[1..] == [[0x61]];
    assert DropLeadingEmpty(front) == [[0x61]];
    assert QuoteAll([[0x61]]) == [[0x61]];

    var back: seq<String> := [[0x61], []];
    assert DropLeadingEmpty(back) == back;
    assert QuoteAll(back) == back;
    assert back[..1] == [back[0]];
    assert Intercalate(back) == back[0] + [SPACE] + back[1];

    var mid: seq<String> := [[0x61], [], [0x62]];
    assert DropLeadingEmpty(mid) == mid;
    assert QuoteAll(mid) == mid;
    assert mid[..2] == back && mid[..2][..1] == [mid[0]];
    assert Intercalate(mid) == Intercalate(back) + [SPACE] + mid[2];
  }

  /** Quoting as evidently meant: an empty argument is written as `""` so that it survives. */
  function QuoteCorrected(s: String): String {
    if SPACE in s || s == [] then [QUOTE] + s + [QUOTE] else s
  }

  /** The command line with corrected quoting; as no piece is empty, no argument is dropped. */
  function CommandLineCorrected(toks: seq<String>): String {
    Intercalate(seq(|toks|, i requires 0 <= i < |toks| => QuoteCorrected(toks[i])))
  }

  /**
   * With corrected quoting the line keeps every argument as one trimmed piece joined by single
   * spaces, has no space at either end, and agrees with main whenever no argument is empty.
   */
  lemma CorrectedQuotingKeepsArguments(toks: seq<String>)
    requires toks != []
    ensures Trimmed(CommandLineCorrected(toks))
    ensures (forall i :: 0 <= i < |toks| ==> NoDoubleSpace(toks[i])) ==> NoDoubleSpace(CommandLineCorrected(toks))
    ensures (forall i :: 0 <= i < |toks| ==> toks[i] != []) ==> CommandLineCorrected(toks) == CommandLine(toks)
  {
    var q := seq(|toks|, i requires 0 <= i < |toks| => QuoteCorrected(toks[i]));
    forall i | 0 <= i < |toks|
      ensures Trimmed(q[i]) && (NoDoubleSpace(toks[i]) ==> NoDoubleSpace(q[i]))
    {
      if toks[i] == [] {
        QuotedTrimmed(toks[i]);
      } else {
        QuoteTrimmed(toks[i]);
        assert q[i] == Quote(toks[i]);
      }
    }
    IntercalateTrimmed(q);
    if forall i :: 0 <= i < |toks| ==> toks[i] != [] {
      NonEmptyTokensJoinCleanly(toks);
      assert q == QuoteAll(toks);
    }
  }

  /** The corrected line for `a`, ``, `b` is `a "" b`. */
  lemma CorrectedQuotingExample()
    ensures CommandLineCorrected([[0x61], [], [0x62]]) == [0x61, SPACE, QUOTE, QUOTE, SPACE, 0x62]
  {
    var toks: seq<String> := [[0x61], [], [0x62]];
    var q: seq<String> := [[0x61], [QUOTE, QUOTE], [0x62]];
    assert [QUOTE] + toks[1] + [QUOTE] == q[1];
    assert seq(|toks|, i requires 0 <= i < |toks| => QuoteCorrected(toks[i])) == q;
    assert q[..2][..1] == [q[0]];
    assert Intercalate(q[..2]) == q[0] + [SPACE] + q[1];
    assert Intercalate(q) == Intercalate(q[..2]) + [SPACE] + q[2];
  }

  /** The line never starts with a space: a token is quoted exactly when it contains one. */
  lemma NoLeadingSpace(toks: seq<String>)
    ensures CommandLine(toks) == [] || CommandLine(toks)[0] != SPACE
  {
    var d := DropLeadingEmpty(toks);
    if d != [] {
      IntercalateStartsWithFirst(QuoteAll(d));
      assert QuoteAll(d)[0] == Quote(d[0]);
      if SPACE !in d[0] {
        assert d[0][0] in d[0];
      }
    }
  }

  /**
   * Arguments without spaces, the first of them non-empty, are forwarded as they are,
   * separated by single spaces and without any quoting.
   */
  lemma SpaceFreeTokensJoinPlainly(toks: seq<String>)
    requires toks != [] ==> toks[0] != []
    requires forall i :: 0 <= i < |toks| ==> SPACE !in toks[i]
    ensures CommandLine(toks) == Intercalate(toks)
  {
    assert QuoteAll(toks) == toks;
  }

  /**
   * Quotes inside a token are not escaped, so two different argument lists can produce the
   * same command line: the one token `x" "y` and the two tokens `"x"` and `"y"`.
   */
  lemma QuotingIsAmbiguous()
    ensures CommandLine([[0x78, QUOTE, SPACE, QUOTE, 0x79]])
         == CommandLine([[QUOTE, 0x78, QUOTE], [QUOTE, 0x79, QUOTE]])
  {
    var one: seq<String> := [[0x78, QUOTE, SPACE, QUOTE, 0x79]];
    var two: seq<String> := [[QUOTE, 0x78, QUOTE], [QUOTE, 0x79, QUOTE]];
    var line: String := [QUOTE, 0x78, QUOTE, SPACE, QUOTE, 0x79, QUOTE];
    assert DropLeadingEmpty(one) == one;
    assert SPACE in one[0];
    assert [QUOTE] + one[0] + [QUOTE] == line;
    assert QuoteAll(one) == [line];
    assert CommandLine(one) == line;
    assert DropLeadingEmpty(two) == two;
    assert SPACE !in two[0] && SPACE !in two[1];
    assert QuoteAll(two) == two;
    assert two[..1] == [two[0]];
    assert Intercalate(two) == two[0] + [SPACE] + two[1];
  }

  /** `a "b c"`: the second argument contains a space and is quoted. */
  lemma QuotedArgumentExample()
    ensures CommandLine([[0x61], [0x62, SPACE, 0x63]]) == [0x61, SPACE, QUOTE, 0x62, SPACE, 0x63, QUOTE]
  {
    var toks: seq<String> := [[0x61], [0x62, SPACE, 0x63]];
    var quoted: seq<String> := [[0x61], [QUOTE, 0x62, SPACE, 0x63, QUOTE]];
    assert DropLeadingEmpty(toks) == toks;
    assert SPACE !in toks[0] && SPACE in toks[1];
    assert [QUOTE] + toks[1] + [QUOTE] == quoted[1];
    assert QuoteAll(toks) == quoted;
    assert quoted[..1] == [quoted[0]];
    assert Intercalate(quoted) == quoted[0] + [SPACE] + quoted[1];
  }

  // ---------------------------------------------------------------------------
  // The buffer handed to CreateProcess

  /**
   * `malloc` of |s| + 1000 cells, the memcpy of the command line and the terminator write;
   * null when `mallocOk` is false.
   */
  method CopyToBuffer<C(0)>(s: seq<C>, nul: C, mallocOk: bool) returns (temp: array?<C>)
    ensures temp == null <==> !mallocOk
    ensures temp != null ==> temp.Length == |s| + HEADROOM && temp[..|s|] == s && temp[|s|] == nul
    ensures temp != null ==> CStr(temp[..], nul) == CStr(s, nul)
  {
    if !mallocOk { return null; }
    temp := new C[|s| + HEADROOM];
    forall i | 0 <= i < |s| {
      temp[i] := s[i];
    }
    temp[|s|] := nul;
    CStrOfTerminated(temp[..], s, nul);
  }

  // ---------------------------------------------------------------------------
  // The whole of main

  /** What getopt_long("+vh") reports: the first option met, or the index of the first operand. */
  datatype Options = ShowHelp | ShowVersion | UnknownOption | Operands(optind: nat)

  /** The process-creation call main makes, with the command line CreateProcess reads and its result. */
  datatype Launch =
    | NoLaunch
    | WideLaunch(wcmd: WString, created: bool)
    | NarrowLaunch(cmd: String, created: bool)

  /** The exit code and launch of one branch of main. */
  datatype Decision = Decision(exitCode: int, launch: Launch)

  /** The result of main: exit code, launch, and the entries of the converted argv released. */
  datatype Outcome = Outcome(exitCode: int, launch: Launch, released: seq<Release<String>>)

  /** Everything main learns from outside the model. */
  datatype Environment = Environment(
    argv: seq<String>,                 // the runtime's narrow argv
    argvW: Option<seq<WString>>,       // CommandLineToArgvW(GetCommandLineW()); None when null or not built in
    options: Options,                  // the getopt_long loop
    toUtf8: Transcoder<WChar, Byte>,   // WideCharToMultiByte
    toWide: Transcoder<Byte, WChar>,   // MultiByteToWideChar
    sys: System,                       // GetACP, GetOEMCP
    malloc: Allocator,
    createOk: bool)                    // CreateProcessW / CreateProcessA succeed

  /** The vector CommandLineToArgvW returns, every entry non-null. */
  function Wrap(ws: seq<WString>): seq<Option<WString>> {
    seq(|ws|, i requires 0 <= i < |ws| => Some(ws[i]))
  }

  /** The converted argv `nargv`, when ArgvWToArgv succeeded (`use_wv`). */
  function ConvertedArgv(env: Environment): Option<seq<String>> {
    if env.argvW.None? then None
    else ArgvWToArgvSpec(Some(Wrap(env.argvW.value)), |env.argvW.value|, env.toUtf8, env.sys, env.malloc)
  }

  /** `rargv` as strings: the entries of `nargv` read as C strings, or the runtime's argv. */
  function EffectiveArgv(env: Environment): seq<String> {
    var nargv := ConvertedArgv(env);
    if nargv.Some? then seq(|nargv.value|, i requires 0 <= i < |nargv.value| => CStr(nargv.value[i], 0))
    else env.argv
  }

  /** What freeArgv(rargv, rargc) releases when `use_wv` holds, and nothing otherwise. */
  function ReleasedArgv(env: Environment): seq<Release<String>> {
    var nargv := ConvertedArgv(env);
    if nargv.Some? then seq(|nargv.value|, i requires 0 <= i < |nargv.value| => Freed(nargv.value[i]))
    else []
  }

  /** The positional arguments `cml`. */
  function CommandArgs(env: Environment): seq<String>
    requires env.options.Operands?
  {
    var rargv := EffectiveArgv(env);
    if env.options.optind <= |rargv| then rargv[env.options.optind..] else []
  }

  /** The launch branch of main (main.cpp:120-165) as written. */
  function Decide(useWv: bool, cl: String, env: Environment): Decision {
    if useWv then
      var app := Utf8ToWString([], [], env.toWide, env.sys, env.malloc);
      var wcl := Utf8ToWString(cl, [], env.toWide, env.sys, env.malloc);
      if app.ok && wcl.ok then
        if !env.malloc(SIZEOF_WCHAR * (|wcl.dest| + HEADROOM)) then Decision(-1, NoLaunch)
        else Decision(0, WideLaunch(CStr(wcl.dest, 0), env.createOk))
      else
        if !env.malloc(|cl| + HEADROOM) then Decision(-1, NoLaunch)
        else Decision(0, NarrowLaunch(CStr(cl, 0), env.createOk))
    else Decision(0, NoLaunch)
  }

  /** main, from start-up to its return value. */
  function RunSpec(env: Environment): Outcome {
    var released := ReleasedArgv(env);
    match env.options
    case ShowHelp => Outcome(0, NoLaunch, released)
    case ShowVersion => Outcome(0, NoLaunch, released)
    case UnknownOption => Outcome(-1, NoLaunch, released)
    case Operands(_) =>
      var cml := CommandArgs(env);
      if cml == [] then Outcome(-1, NoLaunch, released)
      else
        var d := Decide(ConvertedArgv(env).Some?, CommandLine(cml), env);
        Outcome(d.exitCode, d.launch, released)
  }

  /**
   * The launch branch of main as the authors evidently meant it: the narrow CreateProcessA
   * call is the fallback whenever the wide call cannot be made, including when the wide
   * argument vector was never obtained.
   */
  function DecideCorrected(useWv: bool, cl: String, env: Environment): (d: Decision)
    ensures d.launch.NoLaunch? <==> d.exitCode == -1
    ensures d.exitCode == 0 || d.exitCode == -1
  {
    var app := Utf8ToWString([], [], env.toWide, env.sys, env.malloc);
    var wcl := Utf8ToWString(cl, [], env.toWide, env.sys, env.malloc);
    if useWv && app.ok && wcl.ok then
      if !env.malloc(SIZEOF_WCHAR * (|wcl.dest| + HEADROOM)) then Decision(-1, NoLaunch)
      else Decision(0, WideLaunch(CStr(wcl.dest, 0), env.createOk))
    else
      if !env.malloc(|cl| + HEADROOM) then Decision(-1, NoLaunch)
      else Decision(0, NarrowLaunch(CStr(cl, 0), env.createOk))
  }

  /**
   * Which process-creation call main makes: the wide one exactly when the wide arguments are
   * in use and the command line converts, the narrow one exactly when they are in use and it
   * does not, none at all when they are not in use.  An attempted launch returns 0 whether or
   * not CreateProcess succeeded; without a launch the result is -1, except when the wide
   * arguments are not in use, where it is 0.
   */
  lemma LaunchDecision(useWv: bool, cl: String, env: Environment)
    ensures var d := Decide(useWv, cl, env);
            var w := Utf8ToWString(cl, [], env.toWide, env.sys, env.malloc);
            && (d.launch.WideLaunch? <==> useWv && w.ok && env.malloc(SIZEOF_WCHAR * (|w.dest| + HEADROOM)))
            && (d.launch.NarrowLaunch? <==> useWv && !w.ok && env.malloc(|cl| + HEADROOM))
            && (d.launch.WideLaunch? ==> d.launch.wcmd == CStr(w.dest, 0) && d.launch.created == env.createOk)
            && (d.launch.NarrowLaunch? ==> d.launch.cmd == CStr(cl, 0) && d.launch.created == env.createOk)
            && (!d.launch.NoLaunch? ==> d.exitCode == 0)
            && (d.launch.NoLaunch? ==> d.exitCode == (if useWv then -1 else 0))
  {
  }

  /**
   * Without the wide argument vector main launches nothing and still reports success once a
   * command is present: the narrow call sits inside `if (use_wv)`.
   */
  lemma NoLaunchWithoutWideArgv(env: Environment)
    requires ConvertedArgv(env).None?
    ensures RunSpec(env).launch.NoLaunch?
    ensures env.options.Operands? && CommandArgs(env) != [] ==> RunSpec(env).exitCode == 0
  {
  }

  /**
   * The corrected branch attempts a launch whenever the buffer can be allocated, falls back to
   * the narrow call when the wide arguments are not in use, and otherwise agrees with main.
   */
  lemma CorrectedAlwaysLaunches(useWv: bool, cl: String, env: Environment)
    ensures !useWv && env.malloc(|cl| + HEADROOM) ==>
              DecideCorrected(useWv, cl, env) == Decision(0, NarrowLaunch(CStr(cl, 0), env.createOk))
    ensures useWv ==> DecideCorrected(useWv, cl, env) == Decide(useWv, cl, env)
  {
  }

  /**
   * main's return value: 0 for help and version, -1 for an unknown option or a missing
   * command; otherwise -1 only when a buffer could not be allocated and 0 after any launch
   * attempt, successful or not.
   */
  lemma ExitCodes(env: Environment)
    ensures env.options.ShowHelp? || env.options.ShowVersion? ==>
              RunSpec(env).exitCode == 0 && RunSpec(env).launch.NoLaunch?
    ensures env.options.UnknownOption? ==> RunSpec(env).exitCode == -1 && RunSpec(env).launch.NoLaunch?
    ensures env.options.Operands? && CommandArgs(env) == [] ==>
              RunSpec(env).exitCode == -1 && RunSpec(env).launch.NoLaunch?
    ensures !RunSpec(env).launch.NoLaunch? ==> RunSpec(env).exitCode == 0
    ensures RunSpec(env).exitCode == 0 || RunSpec(env).exitCode == -1
  {
    if env.options.Operands? && CommandArgs(env) != [] {
      LaunchDecision(ConvertedArgv(env).Some?, CommandLine(CommandArgs(env)), env);
    }
  }

  /**
   * Whenever the wide arguments are in use, every entry of the converted argv is released,
   * once and in order, on every path out of main; otherwise nothing is released.
   */
  lemma ArgvReleasedOnEveryPath(env: Environment)
    ensures ConvertedArgv(env).Some? ==>
              && |RunSpec(env).released| == |env.argvW.value|
              && forall i :: 0 <= i < |env.argvW.value| ==>
                   RunSpec(env).released[i] == Freed(ConvertedArgv(env).value[i])
    ensures ConvertedArgv(env).None? ==> RunSpec(env).released == []
  {
  }

  /**
   * The start of main: the wide argument vector converted to UTF-8, `use_wv` set only when
   * that succeeded, and `rargv` pointing at the converted entries or at the runtime's argv.
   */
  method Startup(env: Environment) returns (useWv: bool, nargv: array?<String>, argcw: nat, rargv: seq<String>)
    ensures useWv == ConvertedArgv(env).Some?
    ensures useWv ==> nargv != null && nargv[..] == ConvertedArgv(env).value && nargv.Length == argcw
    ensures rargv == EffectiveArgv(env)
  {
    useWv, nargv, argcw := false, null, 0;
    if env.argvW.Some? {
      argcw := |env.argvW.value|;
      var ok, converted := ArgvWToArgv(Some(Wrap(env.argvW.value)), argcw, nargv, env.toUtf8, env.sys, env.malloc);
      nargv := converted;
      if ok { useWv := true; }
    }
    rargv := env.argv;
    if useWv {
      rargv := seq(nargv.Length, i requires 0 <= i < nargv.Length reads nargv => CStr(nargv[i], 0));
    }
  }

  /** The launch branch of main: the command-line buffer is filled and CreateProcess is called. */
  method CreateChild(useWv: bool, cl: String, env: Environment) returns (d: Decision)
    ensures d == Decide(useWv, cl, env)
  {
    if useWv {
      var app := Utf8ToWString([], [], env.toWide, env.sys, env.malloc);
      var wcl := Utf8ToWString(cl, [], env.toWide, env.sys, env.malloc);
      if app.ok && wcl.ok {
        var temp := CopyToBuffer(wcl.dest, 0, env.malloc(SIZEOF_WCHAR * (|wcl.dest| + HEADROOM)));
        if temp == null { return Decision(-1, NoLaunch); }
        return Decision(0, WideLaunch(CStr(temp[..], 0), env.createOk));
      } else {
        var temp := CopyToBuffer(cl, 0, env.malloc(|cl| + HEADROOM));
        if temp == null { return Decision(-1, NoLaunch); }
        return Decision(0, NarrowLaunch(CStr(temp[..], 0), env.createOk));
      }
    }
    return Decision(0, NoLaunch);
  }

  /** main (main.cpp:39-166), with the option loop and the Win32 calls taken from `env`. */
  method Run(env: Environment) returns (out: Outcome)
    ensures out == RunSpec(env)
  {
    var useWv, nargv, argcw, rargv := Startup(env);
    var released: seq<Release<String>> := [];
    var freedArray := false;
    if !env.options.Operands? {
      if useWv { released, freedArray := FreeArgv(nargv, argcw); }
      assert freedArray == useWv;
      assert released == ReleasedArgv(env);
      var code := if env.options.UnknownOption? then -1 else 0;
      return Outcome(code, NoLaunch, released);
    }
    var cml := CollectCommand(rargv, env.options.optind);
    if useWv { released, freedArray := FreeArgv(nargv, argcw); }
    assert freedArray == useWv;
    assert released == ReleasedArgv(env);
    if cml == [] {
      return Outcome(-1, NoLaunch, released);
    }
    var cl := JoinCommandLine(cml);
    var d := CreateChild(useWv, cl, env);
    return Outcome(d.exitCode, d.launch, released);
  }
}
