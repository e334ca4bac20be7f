/** The build command line: argument assembly, redaction, and what the log can reveal. */
module Redaction {
  import opened Wrappers
  import opened Types
  import opened Text
  import opened LockKeys
  import opened Shell
  import opened Validation
  import opened ExecutorChecks

  const OPTION := "--build-arg"
  const MASK := "<redacted>"

  /** The argument with everything after its first '=' masked. */
  function Masked(arg: string): string {
    (match SplitOnce(arg, '=')
     case Some((key, _)) => key
     case None => arg) + "=" + MASK
  }

  /** What `redacted_build_args` computes; `next` says that the previous word was the option. */
  function Redact(args: seq<string>, next: bool): seq<string> {
    if args == [] then []
    else if next then [Masked(args[0])] + Redact(args[1..], false)
    else [args[0]] + Redact(args[1..], args[0] == OPTION)
  }

  lemma AppendMore(sofar: seq<string>, word: string, rest: seq<string>)
    ensures sofar + ([word] + rest) == sofar + [word] + rest
  {
  }

  /** `redacted_build_args`: one pass with a flag. */
  method RedactedBuildArgs(args: seq<string>) returns (redacted: seq<string>)
    ensures redacted == Redact(args, false)
  {
    redacted := [];
    var redactNext := false;
    for i := 0 to |args|
      invariant redacted + Redact(args[i..], redactNext) == Redact(args, false)
    {
      var arg := args[i];
      assert args[i..][0] == arg && args[i..][1..] == args[i + 1..];
      if redactNext {
        var split := SplitOnce(arg, '=');
        var key := if split.Some? then split.value.0 else arg;
        assert key + "=" + MASK == Masked(arg);
        AppendMore(redacted, key + "=" + MASK, Redact(args[i + 1..], false));
        redacted := redacted + [key + "=" + MASK];
        redactNext := false;
        continue;
      }
      AppendMore(redacted, arg, Redact(args[i + 1..], arg == OPTION));
      redacted := redacted + [arg];
      if arg == OPTION {
        redactNext := true;
      }
    }
  }

  function Pairs(args: seq<BuildArg>): seq<string> {
    if args == [] then [] else [OPTION, args[0].key + "=" + args[0].value] + Pairs(args[1..])
  }

  function MaskedPairs(args: seq<BuildArg>): seq<string> {
    if args == [] then [] else [OPTION, args[0].key + "=" + MASK] + MaskedPairs(args[1..])
  }

  /** The words before the build arguments. */
  function Head(namespace: string, dockerfile: string, image: string): seq<string> {
    ["-n", namespace, "build", "-f", dockerfile, "-t", image]
  }

  /** The command line, word by word: options with their operands, the build arguments, the context last. */
  predicate IsBuildLine(words: seq<string>, namespace: string, dockerfile: string, image: string, args: seq<BuildArg>,
                        context: string)
  {
    && |words| == 8 + 2 * |args|
    && words[0] == "-n" && words[1] == namespace && words[2] == "build"
    && words[3] == "-f" && words[4] == dockerfile && words[5] == "-t" && words[6] == image
    && (forall i :: 0 <= i < |args| ==> words[7 + 2 * i] == "--build-arg" && IsPair(words[8 + 2 * i], args[i]))
    && words[|words| - 1] == context
  }

  /** The word carries this key and this value; with no '=' in the key they can be told apart again. */
  predicate IsPair(word: string, arg: BuildArg) {
    && |word| == |arg.key| + 1 + |arg.value|
    && word[..|arg.key|] == arg.key && word[|arg.key|] == '=' && word[|arg.key| + 1..] == arg.value
    && ('=' !in arg.key ==> SplitOnce(word, '=') == Some((arg.key, arg.value)))
  }

  lemma PairWord(arg: BuildArg)
    ensures IsPair(arg.key + "=" + arg.value, arg)
  {
    if '=' !in arg.key {
      SplitOnceAt(arg.key, '=', arg.value);
      assert arg.key + "=" + arg.value == arg.key + ['='] + arg.value;
    }
  }

  lemma {:induction false} PairsAt(args: seq<BuildArg>, i: nat)
    requires i < |args|
    ensures |Pairs(args)| == 2 * |args|
    ensures Pairs(args)[2 * i] == "--build-arg" && IsPair(Pairs(args)[2 * i + 1], args[i])
  {
    var rest := Pairs(args[1..]);
    assert Pairs(args) == [OPTION, args[0].key + "=" + args[0].value] + rest;
    if i == 0 {
      PairWord(args[0]);
      if |args| > 1 {
        PairsAt(args[1..], 0);
      }
    } else {
      PairsAt(args[1..], i - 1);
      assert Pairs(args)[2 * i] == rest[2 * (i - 1)] && Pairs(args)[2 * i + 1] == rest[2 * (i - 1) + 1];
    }
  }

  lemma BuildLineWords(namespace: string, dockerfile: string, image: string, args: seq<BuildArg>, context: string)
    ensures var words := Head(namespace, dockerfile, image) + Pairs(args) + [context];
      IsBuildLine(words, namespace, dockerfile, image, args, context)
  {
    var words := Head(namespace, dockerfile, image) + Pairs(args) + [context];
    if args != [] {
      PairsAt(args, 0);
    }
    forall i | 0 <= i < |args| ensures words[7 + 2 * i] == "--build-arg" && IsPair(words[8 + 2 * i], args[i]) {
      PairsAt(args, i);
      assert words[7 + 2 * i] == Pairs(args)[2 * i] && words[8 + 2 * i] == Pairs(args)[2 * i + 1];
    }
  }

  /** The argument assembly of `execute_build`. */
  method AssembleBuildArgs(namespace: string, dockerfile: string, request: BuildRequest, context: string)
    returns (words: seq<string>)
    ensures IsBuildLine(words, namespace, dockerfile, request.image, request.buildArgs.GetOr([]), context)
    ensures words == Head(namespace, dockerfile, request.image) + Pairs(request.buildArgs.GetOr([])) + [context]
  {
    BuildLineWords(namespace, dockerfile, request.image, request.buildArgs.GetOr([]), context);
    words := ["-n", namespace, "build", "-f", dockerfile, "-t", request.image];
    if request.buildArgs.Some? {
      var args := request.buildArgs.value;
      for i := 0 to |args|
        invariant words + Pairs(args[i..]) == Head(namespace, dockerfile, request.image) + Pairs(args)
      {
        assert args[i..][0] == args[i] && args[i..][1..] == args[i + 1..];
        words := words + ["--build-arg"];
        words := words + [args[i].key + "=" + args[i].value];
      }
      assert args[|args|..] == [];
    }
    words := words + [context];
  }

  /** The state of the flag after the words. */
  function FlagAfter(args: seq<string>, next: bool): bool {
    if args == [] then next else FlagAfter(args[1..], !next && args[0] == OPTION)
  }

  lemma {:induction false} RedactConcat(a: seq<string>, b: seq<string>, next: bool)
    ensures Redact(a + b, next) == Redact(a, next) + Redact(b, FlagAfter(a, next))
  {
    if a == [] {
      assert a + b == b;
    } else {
      assert (a + b)[0] == a[0] && (a + b)[1..] == a[1..] + b;
      RedactConcat(a[1..], b, !next && a[0] == OPTION);
    }
  }

  lemma {:induction false} NoOptionNoChange(args: seq<string>)
    requires OPTION !in args
    ensures Redact(args, false) == args && !FlagAfter(args, false)
  {
    if args != [] {
      NoOptionNoChange(args[1..]);
      assert args == [args[0]] + args[1..];
    }
  }

  lemma {:induction false} PairsAreMasked(args: seq<BuildArg>)
    requires forall arg :: arg in args ==> '=' !in arg.key
    ensures Redact(Pairs(args), false) == MaskedPairs(args) && !FlagAfter(Pairs(args), false)
  {
    if args != [] {
      var word := args[0].key + "=" + args[0].value;
      var pair := [OPTION, word];
      SplitOnceAt(args[0].key, '=', args[0].value);
      assert word == args[0].key + ['='] + args[0].value;
      assert pair[0] == OPTION && pair[1..] == [word] && [word][1..] == [];
      assert Redact([word], true) == [Masked(word)];
      assert Redact(pair, false) == [OPTION, args[0].key + "=" + MASK];
      assert !FlagAfter([word], true);
      RedactConcat(pair, Pairs(args[1..]), false);
      PairsAreMasked(args[1..]);
      FlagConcat(pair, Pairs(args[1..]), false);
    }
  }

  lemma {:induction false} FlagConcat(a: seq<string>, b: seq<string>, next: bool)
    ensures FlagAfter(a + b, next) == FlagAfter(b, FlagAfter(a, next))
  {
    if a == [] {
      assert a + b == b;
    } else {
      assert (a + b)[0] == a[0] && (a + b)[1..] == a[1..] + b;
      FlagConcat(a[1..], b, !next && a[0] == OPTION);
    }
  }

  /** Keys without '=' make the whole of every value disappear, whatever stands around the pairs. */
  lemma RedactionByParts(head: seq<string>, args: seq<BuildArg>, context: string)
    requires !FlagAfter(head, false) && forall arg :: arg in args ==> '=' !in arg.key
    ensures Redact(head + Pairs(args) + [context], false) == Redact(head, false) + MaskedPairs(args) + [context]
  {
    RedactConcat(head + Pairs(args), [context], false);
    RedactConcat(head, Pairs(args), false);
    FlagConcat(head, Pairs(args), false);
    PairsAreMasked(args);
    assert [context][1..] == [];
    assert Redact([context], false) == [context];
  }

  /** The flag is off after the head of a build command whose image is not the option itself. */
  lemma HeadLeavesFlagOff(namespace: string, dockerfile: string, image: string)
    requires image != OPTION && dockerfile != OPTION
    ensures !FlagAfter(Head(namespace, dockerfile, image), false)
    ensures Redact(Head(namespace, dockerfile, image), false) ==
      if namespace == OPTION then Head(namespace, dockerfile, image)[2 := "build=<redacted>"]
      else Head(namespace, dockerfile, image)
  {
    var h := Head(namespace, dockerfile, image);
    assert h[1..] == [namespace, "build", "-f", dockerfile, "-t", image];
    assert h[2..] == ["build", "-f", dockerfile, "-t", image];
    assert h[3..] == ["-f", dockerfile, "-t", image];
    NoOptionNoChange(h[3..]);
    if namespace == OPTION {
      assert h == ["-n", namespace] + (["build"] + h[3..]);
      RedactConcat(["-n", namespace], ["build"] + h[3..], false);
      FlagConcat(["-n", namespace], ["build"] + h[3..], false);
      RedactConcat(["build"], h[3..], true);
      FlagConcat(["build"], h[3..], true);
      BuildIsMasked(namespace);
    } else {
      NoOptionNoChange(h);
    }
  }

  lemma BuildIsMasked(namespace: string)
    requires namespace == OPTION
    ensures Redact(["-n", namespace], false) == ["-n", namespace] && FlagAfter(["-n", namespace], false)
    ensures Redact(["build"], true) == ["build=<redacted>"] && !FlagAfter(["build"], true)
  {
    assert ["-n", namespace][1..] == [namespace] && [namespace][1..] == [] && ["build"][1..] == [];
    assert |"-n"| != |OPTION|;
    assert Redact([namespace], false) == [namespace] && FlagAfter([namespace], false);
    SplitOnceNowhere("build", '=');
    assert Masked("build") == "build=<redacted>";
    assert Redact(["build"], true) == [Masked("build")];
  }

  /** The line that `run_logged_command_inner` writes before it starts the build. */
  function LoggedBuildLine(nerdctl: string, namespace: string, dockerfile: string, request: BuildRequest,
                           context: string): string
  {
    var words := Head(namespace, dockerfile, request.image) + Pairs(request.buildArgs.GetOr([])) + [context];
    "\n$ " + PrintableCommand(nerdctl, Redact(words, false)) + "\n"
  }

  /** The requests agree on everything but the values of their build arguments. */
  predicate DifferOnlyInValues(a: BuildRequest, b: BuildRequest) {
    && a.(buildArgs := None) == b.(buildArgs := None)
    && a.buildArgs.Some? == b.buildArgs.Some?
    && SameKeys(a.buildArgs.GetOr([]), b.buildArgs.GetOr([]))
  }

  predicate SameKeys(a: seq<BuildArg>, b: seq<BuildArg>) {
    |a| == |b| && forall i :: 0 <= i < |a| ==> a[i].key == b[i].key
  }

  lemma {:induction false} SameKeysSameMask(a: seq<BuildArg>, b: seq<BuildArg>)
    requires SameKeys(a, b)
    ensures MaskedPairs(a) == MaskedPairs(b)
  {
    if a != [] {
      SameKeysSameMask(a[1..], b[1..]);
    }
  }

  // What acceptance means for redaction.

  lemma AcceptedImageIsNoOption(c: ValidationConfig, request: BuildRequest)
    requires ValidateSubject(c, request).Success? && !RunsProfile(request)
    ensures request.image != OPTION
  {
    AcceptedSubject(c, request);
    AcceptedImage(c, request.image, request.push.GetOr(false));
  }

  lemma AcceptedKeysAreKeys(request: BuildRequest)
    requires ValidateFiles(request).Success? && !RunsProfile(request)
    ensures forall arg :: arg in request.buildArgs.GetOr([]) ==> '=' !in arg.key
  {
    AcceptedFiles(request);
    if request.buildArgs.Some? {
      AcceptedKeys(request.buildArgs.value);
    }
  }

  lemma AcceptedBuildWords(c: ValidationConfig, request: BuildRequest)
    requires Accepts(c, request) && !RunsProfile(request)
    ensures request.image != OPTION && forall arg :: arg in request.buildArgs.GetOr([]) ==> '=' !in arg.key
  {
    AcceptedStages(c, request);
    AcceptedImageIsNoOption(c, request);
    AcceptedKeysAreKeys(request);
  }

  /** The logged words of an accepted build request. */
  lemma AcceptedBuildIsMasked(c: ValidationConfig, request: BuildRequest, namespace: string, dockerfile: string,
                              context: string)
    requires Accepts(c, request) && !RunsProfile(request) && dockerfile != OPTION
    ensures var head := Head(namespace, dockerfile, request.image);
      var args := request.buildArgs.GetOr([]);
      Redact(head + Pairs(args) + [context], false) == Redact(head, false) + MaskedPairs(args) + [context]
  {
    AcceptedBuildWords(c, request);
    HeadLeavesFlagOff(namespace, dockerfile, request.image);
    RedactionByParts(Head(namespace, dockerfile, request.image), request.buildArgs.GetOr([]), context);
  }

  /**
   * Noninterference: two accepted requests that differ only in build-argument values log the same
   * command line. The resolved Dockerfile path is absolute, so it is not the option.
   */
  lemma ValuesNeverReachTheLog(c: ValidationConfig, a: BuildRequest, b: BuildRequest,
                               nerdctl: string, namespace: string, dockerfile: string, context: string)
    requires Accepts(c, a) && Accepts(c, b) && !RunsProfile(a) && DifferOnlyInValues(a, b)
    requires StartsWith(dockerfile, "/")
    ensures LoggedBuildLine(nerdctl, namespace, dockerfile, a, context)
         == LoggedBuildLine(nerdctl, namespace, dockerfile, b, context)
  {
    assert a.image == b.image && a.(buildArgs := None).jobKind == b.(buildArgs := None).jobKind;
    assert dockerfile[0] == '/' && OPTION[0] == '-';
    AcceptedBuildIsMasked(c, a, namespace, dockerfile, context);
    AcceptedBuildIsMasked(c, b, namespace, dockerfile, context);
    SameKeysSameMask(a.buildArgs.GetOr([]), b.buildArgs.GetOr([]));
  }

  /** The log shows prefix, masked pairs and context exactly when the namespace is not the option. */
  lemma LoggedWordsExact(c: ValidationConfig, request: BuildRequest, namespace: string, dockerfile: string,
                         context: string)
    requires Accepts(c, request) && !RunsProfile(request) && StartsWith(dockerfile, "/")
    ensures var head := Head(namespace, dockerfile, request.image);
      var args := request.buildArgs.GetOr([]);
      Redact(head + Pairs(args) + [context], false) == head + MaskedPairs(args) + [context] <==> namespace != OPTION
  {
    assert dockerfile[0] == '/' && OPTION[0] == '-';
    AcceptedBuildIsMasked(c, request, namespace, dockerfile, context);
    AcceptedBuildWords(c, request);
    HeadLeavesFlagOff(namespace, dockerfile, request.image);
    HeadShowsIff(Head(namespace, dockerfile, request.image), MaskedPairs(request.buildArgs.GetOr([])) , context);
  }

  /** Only a changed third word can make the logged head differ. */
  lemma HeadShowsIff(head: seq<string>, pairs: seq<string>, context: string)
    requires |head| > 2 && head[2] == "build"
    ensures head[2 := "build=<redacted>"] + pairs + [context] != head + pairs + [context]
  {
    assert |"build=<redacted>"| != |"build"|;
    assert (head + pairs + [context])[2] == head[2];
    assert (head[2 := "build=<redacted>"] + pairs + [context])[2] == "build=<redacted>";
  }
}
