/**
 * The command-line parser `CLIParser.parseArgs`: one pass over the arguments
 * after the program name, setting switches, letting value options take the
 * next argument, and letting the first positional argument take the rest of
 * the line as the prompt.
 */
module CliArgs {
  import opened Wrappers
  import opened Strings

  /** The parsed record; `None` stands for both `null` and `undefined`. */
  datatype Parsed = Parsed(
    interactive: bool,
    file: Option<string>,
    output: Option<string>,
    format: Option<string>,
    stream: bool,
    help: bool,
    version: bool,
    prompt: Option<string>,
    analyze: bool,
    codebase: bool,
    config: Option<string>)

  /** The record before any argument is looked at. */
  function Defaults(): Parsed {
    Parsed(false, None, None, Some("text"), true, false, false, None, false, false, None)
  }

  /** Options that take the following argument as their value. */
  const ValueOptions: set<string> := {"--file", "-f", "--output", "-o", "--format", "--config"}

  /** Options that set a flag and take no value. */
  const Switches: set<string> :=
    {"--interactive", "-i", "--no-stream", "--help", "-h", "--version", "-v", "--analyze", "-a", "--codebase", "-c"}

  /** `p` with the field of value option `opt` set to `v`. */
  function SetValue(p: Parsed, opt: string, v: Option<string>): Parsed
    requires opt in ValueOptions
  {
    if opt == "--file" || opt == "-f" then p.(file := v)
    else if opt == "--output" || opt == "-o" then p.(output := v)
    else if opt == "--format" then p.(format := v)
    else p.(config := v)
  }

  /** `args[++i]` seen from the option at the head of `rest`: `undefined` past the end. */
  function NextValue(rest: seq<string>): Option<string> {
    if |rest| >= 2 then Some(rest[1]) else None
  }

  /** What remains after a value option and its value. */
  function AfterValue(rest: seq<string>): seq<string> {
    if |rest| >= 2 then rest[2..] else []
  }

  /** `p` with the flag of switch `a` set. */
  function ApplySwitch(p: Parsed, a: string): (q: Parsed)
    requires a in Switches
    ensures q.stream == (p.stream && a != "--no-stream")
    ensures q.prompt == p.prompt
  {
    if a == "--interactive" || a == "-i" then p.(interactive := true)
    else if a == "--no-stream" then p.(stream := false)
    else if a == "--help" || a == "-h" then p.(help := true)
    else if a == "--version" || a == "-v" then p.(version := true)
    else if a == "--analyze" || a == "-a" then p.(analyze := true)
    else p.(codebase := true)
  }

  /**
   * The parse of the remaining arguments `rest`, starting from the record `p`.
   * The source tests the option spellings one after another; as they are all
   * distinct, testing membership of the two sets first is the same decision.
   */
  function ParseFrom(rest: seq<string>, p: Parsed): Parsed
    decreases |rest|
  {
    if rest == [] then p
    else
      var a := rest[0];
      if a in Switches then ParseFrom(rest[1..], ApplySwitch(p, a))
      else if a in ValueOptions then ParseFrom(AfterValue(rest), SetValue(p, a, NextValue(rest)))
      else if !StartsWith(a, "-") && !Truthy(p.prompt) then p.(prompt := Some(Join(rest, " ")))
      else ParseFrom(rest[1..], p)
  }

  /** The parse of a whole argument list. */
  function Parse(args: seq<string>): Parsed {
    ParseFrom(args, Defaults())
  }

  function Remaining(args: seq<string>, i: nat): seq<string> {
    if i <= |args| then args[i..] else []
  }

  function At(args: seq<string>, i: nat): Option<string> {
    if i < |args| then Some(args[i]) else None
  }

  /** The index loop of `parseArgs`, run over `args`. */
  method ParseArgs(args: seq<string>) returns (p: Parsed)
    ensures p == Parse(args)
  {
    p := Defaults();
    var i := 0;
    while i < |args|
      invariant 0 <= i <= |args| + 1
      invariant ParseFrom(Remaining(args, i), p) == Parse(args)
      decreases |args| + 1 - i
    {
      var arg := args[i];
      ghost var rest := args[i..];
      assert rest[0] == arg && rest[1..] == Remaining(args, i + 1);
      if arg == "--interactive" || arg == "-i" {
        p := p.(interactive := true);
      } else if arg in ValueOptions {
        assert NextValue(rest) == At(args, i + 1);
        assert AfterValue(rest) == Remaining(args, i + 2);
        i := i + 1;
        p := SetValue(p, arg, At(args, i));
      } else if arg == "--no-stream" {
        p := p.(stream := false);
      } else if arg == "--help" || arg == "-h" {
        p := p.(help := true);
      } else if arg == "--version" || arg == "-v" {
        p := p.(version := true);
      } else if arg == "--analyze" || arg == "-a" {
        p := p.(analyze := true);
      } else if arg == "--codebase" || arg == "-c" {
        p := p.(codebase := true);
      } else if !StartsWith(arg, "-") && !Truthy(p.prompt) {
        p := p.(prompt := Some(Join(args[i..], " ")));
        break;
      }
      i := i + 1;
    }
  }

  /** With no arguments every field keeps its default. */
  lemma NoArguments()
    ensures Parse([]) == Parsed(false, None, None, Some("text"), true, false, false, None, false, false, None)
  {
  }

  lemma {:induction false} StreamStaysOff(rest: seq<string>, p: Parsed)
    requires !p.stream
    ensures !ParseFrom(rest, p).stream
    decreases |rest|
  {
    if rest != [] {
      var a := rest[0];
      if a in Switches {
        StreamStaysOff(rest[1..], ApplySwitch(p, a));
      } else if a in ValueOptions {
        StreamStaysOff(AfterValue(rest), SetValue(p, a, NextValue(rest)));
      } else if StartsWith(a, "-") || Truthy(p.prompt) {
        StreamStaysOff(rest[1..], p);
      }
    }
  }

  /** A leading `--no-stream` turns streaming off whatever follows. */
  lemma LeadingNoStream(rest: seq<string>)
    ensures !Parse(["--no-stream"] + rest).stream
  {
    assert (["--no-stream"] + rest)[1..] == rest;
    StreamStaysOff(rest, Defaults().(stream := false));
  }

  lemma {:induction false} StreamOffNeedsFlag(rest: seq<string>, p: Parsed)
    requires p.stream
    requires !ParseFrom(rest, p).stream
    ensures "--no-stream" in rest
    decreases |rest|
  {
    var a := rest[0];
    if a != "--no-stream" {
      if a in Switches {
        StreamOffNeedsFlag(rest[1..], ApplySwitch(p, a));
      } else if a in ValueOptions {
        StreamOffNeedsFlag(AfterValue(rest), SetValue(p, a, NextValue(rest)));
        assert AfterValue(rest) == [] || AfterValue(rest) == rest[2..];
      } else {
        StreamOffNeedsFlag(rest[1..], p);
      }
    }
  }

  /** `--no-stream` is the only way `stream` becomes false. */
  lemma NoStreamOnlyWay(args: seq<string>)
    requires !Parse(args).stream
    ensures "--no-stream" in args
  {
    StreamOffNeedsFlag(args, Defaults());
  }

  /** A value option takes the next argument verbatim, even one starting with `-`. */
  lemma ValueOptionTakesNext(opt: string, v: string, rest: seq<string>, p: Parsed)
    requires opt in ValueOptions
    ensures ParseFrom([opt, v] + rest, p) == ParseFrom(rest, SetValue(p, opt, Some(v)))
  {
    assert ([opt, v] + rest)[2..] == rest;
  }

  /** A value option in last position sets its field to `undefined`. */
  lemma ValueOptionAtEnd(opt: string, p: Parsed)
    requires opt in ValueOptions
    ensures ParseFrom([opt], p) == SetValue(p, opt, None)
  {
  }

  /** One argument that starts with `-` but is no known option is skipped, wherever it stands. */
  lemma UnknownDashSkipped(a: string, rest: seq<string>, p: Parsed)
    requires StartsWith(a, "-") && a !in ValueOptions && a !in Switches
    ensures ParseFrom([a] + rest, p) == ParseFrom(rest, p)
  {
    assert ([a] + rest)[1..] == rest;
  }

  /** Arguments that start with `-` but are no known option change nothing. */
  lemma {:induction false} UnknownDashIgnored(rest: seq<string>, p: Parsed)
    requires forall j :: 0 <= j < |rest| ==> StartsWith(rest[j], "-") && rest[j] !in ValueOptions && rest[j] !in Switches
    ensures ParseFrom(rest, p) == p
    decreases |rest|
  {
    if rest != [] {
      assert rest == [rest[0]] + rest[1..];
      UnknownDashSkipped(rest[0], rest[1..], p);
      UnknownDashIgnored(rest[1..], p);
    }
  }

  /**
   * The first positional argument takes itself and every later argument,
   * joined by single spaces, as the prompt; parsing stops there, so options
   * after it are not applied.
   */
  lemma PositionalTakesRest(rest: seq<string>, p: Parsed)
    requires rest != [] && !StartsWith(rest[0], "-") && !Truthy(p.prompt)
    ensures ParseFrom(rest, p) == p.(prompt := Some(Join(rest, " ")))
  {
  }

  /** `prompt` is the join of the arguments from position `k` on, and the one at `k` is positional. */
  predicate PromptAt(rest: seq<string>, k: int, prompt: Option<string>) {
    0 <= k < |rest| && !StartsWith(rest[k], "-") && prompt == Some(Join(rest[k..], " "))
  }

  /** One step of the parse over an argument that is not positional. */
  lemma ParseStep(rest: seq<string>, p: Parsed) returns (q: Parsed, skip: nat)
    requires rest != [] && (StartsWith(rest[0], "-") || rest[0] in Switches || rest[0] in ValueOptions)
    ensures 1 <= skip <= 2 && q.prompt == p.prompt
    ensures skip <= |rest| ==> ParseFrom(rest, p) == ParseFrom(rest[skip..], q)
    ensures skip > |rest| ==> ParseFrom(rest, p) == q
  {
    var a := rest[0];
    if a in Switches {
      q, skip := ApplySwitch(p, a), 1;
    } else if a in ValueOptions {
      q, skip := SetValue(p, a, NextValue(rest)), 2;
    } else {
      q, skip := p, 1;
    }
  }

  /** A prompt set by the parse is the join of a suffix that begins with a positional argument. */
  lemma {:induction false} PromptIsSuffix(rest: seq<string>, p: Parsed)
    requires p.prompt.None?
    requires ParseFrom(rest, p).prompt.Some?
    ensures exists k :: PromptAt(rest, k, ParseFrom(rest, p).prompt)
    decreases |rest|
  {
    var a := rest[0];
    if !StartsWith(a, "-") && a !in Switches && a !in ValueOptions {
      assert rest[0..] == rest;
      assert PromptAt(rest, 0, ParseFrom(rest, p).prompt);
    } else {
      var q, skip := ParseStep(rest, p);
      if skip > |rest| {
        assert false;
      }
      var tail := rest[skip..];
      PromptIsSuffix(tail, q);
      var k :| PromptAt(tail, k, ParseFrom(tail, q).prompt);
      assert tail[k..] == rest[k + skip..] && tail[k] == rest[k + skip];
      assert PromptAt(rest, k + skip, ParseFrom(rest, p).prompt);
    }
  }
}
