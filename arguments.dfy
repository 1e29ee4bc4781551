/** The command line of the report tool (Report.main): the loop over the
    arguments that sets the static options and collects the input file names,
    and the choice between printing the usage text and processing the files. */
module Arguments {
  import opened Wrappers
  import opened Numbers
  import opened Categories

  /** The static settings of the tool. */
  datatype Options = Options(period: real, allCharts: bool, printCharts: bool,
                             bigCharts: bool, statsFile: bool, output: string)

  const Defaults: Options := Options(1.0, false, false, false, false, "vmstat-report.pdf")

  /** The loop's state: the settings so far, the file names so far, and whether
      the next token is the output name. */
  datatype Walk = Walk(opts: Options, files: set<string>, inOutput: bool)

  /** Continue: the loop goes on; StopUsage: "-h" or "--help" printed the usage
      and returned; Crashed: charAt(0) or substring(0, 2) threw on a token that
      is too short. */
  datatype Progress = Continue(walk: Walk) | StopUsage | Crashed

  /** What the argument loop leaves for the rest of main. */
  datatype Outcome = Usage | Crash | Proceed(opts: Options, files: set<string>)

  /** What main does next: print the usage text, die, or run createReports
      on every file, in single-file mode when there is exactly one. */
  datatype Plan = ShowUsage | Abort | Process(opts: Options, files: set<string>, singleFile: bool)

  const Start: Walk := Walk(Defaults, {}, false)

  predicate IsPeriodOption(token: string) {
    |token| >= 2 && token[..2] == "-t"
  }

  /** One iteration of the argument loop. */
  function Step(w: Walk, token: string): Progress {
    if w.inOutput then Continue(w.(opts := w.opts.(output := token), inOutput := false))
    else if |token| == 0 then Crashed
    else if token[0] != '-' then Continue(w.(files := w.files + {token}))
    else if token == "-a" then Continue(w.(opts := w.opts.(allCharts := true)))
    else if token == "-p" then Continue(w.(opts := w.opts.(printCharts := true)))
    else if token == "-b" then Continue(w.(opts := w.opts.(bigCharts := true)))
    else if token == "-o" then Continue(w.(inOutput := true))
    else if token == "-s" then Continue(w.(opts := w.opts.(statsFile := true)))
    else if |token| < 2 then Crashed
    else if IsPeriodOption(token) then
      match ParseDouble(token[2..])
      case Some(p) => Continue(w.(opts := w.opts.(period := p)))
      case None => Continue(w)
    else if token == "-h" || token == "--help" then StopUsage
    else Continue(w)
  }

  /** The loop after the first k tokens. */
  function Run(args: seq<string>, k: nat): Progress
    requires k <= |args|
  {
    if k == 0 then Continue(Start)
    else match Run(args, k - 1)
      case Continue(w) => Step(w, args[k - 1])
      case other => other
  }

  /** Lines 218-272: a trailing "-o" also ends in the usage text. */
  function ArgsOutcome(args: seq<string>): Outcome {
    match Run(args, |args|)
    case Continue(w) => if w.inOutput then Usage else Proceed(w.opts, w.files)
    case StopUsage => Usage
    case Crashed => Crash
  }

  function CsvFiles(listing: set<string>): (s: set<string>)
    ensures forall f :: f in s <==> f in listing && StringEndsWith(f, ".csv")
  {
    set f | f in listing && StringEndsWith(f, ".csv")
  }

  /** Lines 274-304. The directory scan is given as the set of paths it lists;
      only those ending in ".csv" are taken. */
  function Resolve(o: Outcome, listing: set<string>): (p: Plan)
    ensures p.Process? ==> p.files != {} && (p.singleFile <==> |p.files| == 1)
    ensures p.Process? ==> o.Proceed? && p.opts == o.opts
    ensures o.Proceed? && o.files != {} ==> p.Process? && p.files == o.files
    ensures o.Proceed? && o.files == {} ==>
              (p == ShowUsage <==> forall f :: f in listing ==> !StringEndsWith(f, ".csv"))
    ensures o.Proceed? && o.files == {} && p.Process? ==>
              forall f :: f in p.files <==> f in listing && StringEndsWith(f, ".csv")
    ensures o.Usage? ==> p == ShowUsage
    ensures o.Crash? ==> p == Abort
  {
    match o
    case Usage => ShowUsage
    case Crash => Abort
    case Proceed(opts, files) =>
      var found := if files == {} then CsvFiles(listing) else files;
      if found == {} then ShowUsage else Process(opts, found, |found| == 1)
  }

  /** Whether token k is consumed as the output name: it follows a "-o" that was
      not itself consumed as the output name. For k = |args| this says whether
      the loop ends waiting for an output name. */
  predicate OutputValueAt(args: seq<string>, k: nat)
    requires k <= |args|
  {
    k > 0 && args[k - 1] == "-o" && !OutputValueAt(args, k - 1)
  }

  /** The tokens of args[..k] taken as input file names. */
  function FileTokens(args: seq<string>, k: nat): set<string>
    requires k <= |args|
  {
    set j | 0 <= j < k && !OutputValueAt(args, j) && |args[j]| > 0 && args[j][0] != '-' :: args[j]
  }

  /** Whether an option token occurs in args[..k] at a position where it is
      read as an option. */
  predicate OptionGiven(args: seq<string>, k: nat, option: string)
    requires k <= |args|
  {
    exists j :: 0 <= j < k && !OutputValueAt(args, j) && args[j] == option
  }

  /** The output name after k tokens: the last token consumed as output name. */
  function LastOutput(args: seq<string>, k: nat): string
    requires k <= |args|
  {
    if k == 0 then Defaults.output
    else if OutputValueAt(args, k - 1) then args[k - 1]
    else LastOutput(args, k - 1)
  }

  /** The period after k tokens: the value of the last "-t" option that parses;
      one that does not parse leaves the period as it was. */
  function LastPeriod(args: seq<string>, k: nat): real
    requires k <= |args|
  {
    if k == 0 then Defaults.period
    else if !OutputValueAt(args, k - 1) && IsPeriodOption(args[k - 1]) && ParseDouble(args[k - 1][2..]).Some?
    then ParseDouble(args[k - 1][2..]).value
    else LastPeriod(args, k - 1)
  }

  lemma FileTokensStep(args: seq<string>, k: nat)
    requires k < |args|
    ensures FileTokens(args, k + 1) ==
              FileTokens(args, k) + (if !OutputValueAt(args, k) && |args[k]| > 0 && args[k][0] != '-' then {args[k]} else {})
  {
  }

  /** The flag an option token sets. */
  function Flag(opts: Options, option: string): bool {
    if option == "-a" then opts.allCharts
    else if option == "-p" then opts.printCharts
    else if option == "-b" then opts.bigCharts
    else opts.statsFile
  }

  /** Whether the loop waits for an output name after k tokens. */
  lemma {:induction false} RunInOutput(args: seq<string>, k: nat)
    requires k <= |args| && Run(args, k).Continue?
    ensures Run(args, k).walk.inOutput == OutputValueAt(args, k)
  {
    if k > 0 {
      RunInOutput(args, k - 1);
    }
  }

  /** The file names after k tokens: every token read as an option position
      that does not start with '-'. */
  lemma {:induction false} RunFiles(args: seq<string>, k: nat)
    requires k <= |args| && Run(args, k).Continue?
    ensures Run(args, k).walk.files == FileTokens(args, k)
  {
    if k > 0 {
      RunFiles(args, k - 1);
      RunInOutput(args, k - 1);
      FileTokensStep(args, k - 1);
    }
  }

  /** An option is given in args[..k + 1] when it was given before or token k
      is that option, read at an option position. */
  lemma OptionGivenStep(args: seq<string>, k: nat, option: string)
    requires k < |args|
    ensures OptionGiven(args, k + 1, option) <==>
              OptionGiven(args, k, option) || (!OutputValueAt(args, k) && args[k] == option)
  {
    if OptionGiven(args, k + 1, option) {
      var j :| 0 <= j < k + 1 && !OutputValueAt(args, j) && args[j] == option;
      if j < k {
        assert OptionGiven(args, k, option);
      }
    }
    if OptionGiven(args, k, option) {
      var j :| 0 <= j < k && !OutputValueAt(args, j) && args[j] == option;
      assert 0 <= j < k + 1;
    }
    if !OutputValueAt(args, k) && args[k] == option {
      assert 0 <= k < k + 1;
    }
  }

  /** One token of the loop sets a flag exactly when it is that option, read at
      an option position; no token clears one. */
  lemma StepFlag(w: Walk, token: string, option: string)
    requires Step(w, token).Continue? && option in {"-a", "-p", "-b", "-s"}
    ensures Flag(Step(w, token).walk.opts, option) <==> Flag(w.opts, option) || (!w.inOutput && token == option)
  {
    assert option[0] == '-' && |option| == 2;
  }

  /** "-a", "-p", "-b" and "-s" each set their flag, and nothing else does. */
  lemma {:induction false} RunFlag(args: seq<string>, k: nat, option: string)
    requires k <= |args| && Run(args, k).Continue?
    requires option in {"-a", "-p", "-b", "-s"}
    ensures Flag(Run(args, k).walk.opts, option) <==> OptionGiven(args, k, option)
  {
    if k > 0 {
      RunFlag(args, k - 1, option);
      RunInOutput(args, k - 1);
      OptionGivenStep(args, k - 1, option);
      StepFlag(Run(args, k - 1).walk, args[k - 1], option);
    }
  }

  /** The output name after k tokens. */
  lemma {:induction false} RunOutput(args: seq<string>, k: nat)
    requires k <= |args| && Run(args, k).Continue?
    ensures Run(args, k).walk.opts.output == LastOutput(args, k)
  {
    if k > 0 {
      RunOutput(args, k - 1);
      RunInOutput(args, k - 1);
    }
  }

  /** The period after k tokens. */
  lemma {:induction false} RunPeriod(args: seq<string>, k: nat)
    requires k <= |args| && Run(args, k).Continue?
    ensures Run(args, k).walk.opts.period == LastPeriod(args, k)
  {
    if k > 0 {
      RunPeriod(args, k - 1);
      RunInOutput(args, k - 1);
      StepPeriod(Run(args, k - 1).walk, args[k - 1]);
    }
  }

  /** Only a "-t" token read as an option changes the period, and only when its
      value parses. */
  lemma StepPeriod(w: Walk, token: string)
    requires Step(w, token).Continue?
    ensures Step(w, token).walk.opts.period ==
              if !w.inOutput && IsPeriodOption(token) && ParseDouble(token[2..]).Some?
              then ParseDouble(token[2..]).value else w.opts.period
  {
    if !w.inOutput && IsPeriodOption(token) {
      assert token[1] == 't';
      assert token != "-a" && token != "-p" && token != "-b" && token != "-o" && token != "-s";
    }
  }

  /** The loop's result on a run that reaches the end. */
  lemma ProceedState(args: seq<string>)
    requires ArgsOutcome(args).Proceed?
    ensures var o := ArgsOutcome(args);
      && !OutputValueAt(args, |args|)
      && o.files == FileTokens(args, |args|)
      && (o.opts.allCharts <==> OptionGiven(args, |args|, "-a"))
      && (o.opts.printCharts <==> OptionGiven(args, |args|, "-p"))
      && (o.opts.bigCharts <==> OptionGiven(args, |args|, "-b"))
      && (o.opts.statsFile <==> OptionGiven(args, |args|, "-s"))
      && o.opts.output == LastOutput(args, |args|)
      && o.opts.period == LastPeriod(args, |args|)
  {
    RunInOutput(args, |args|);
    RunFiles(args, |args|);
    RunFlag(args, |args|, "-a");
    RunFlag(args, |args|, "-p");
    RunFlag(args, |args|, "-b");
    RunFlag(args, |args|, "-s");
    RunOutput(args, |args|);
    RunPeriod(args, |args|);
  }

  /** The token after an "-o" read as an option becomes the output name,
      whatever it is (even one that starts with '-'), and is not a file name. */
  lemma OutputTakesNextToken(args: seq<string>, k: nat)
    requires k + 1 < |args| && Run(args, k).Continue? && Run(args, k + 2).Continue?
    requires args[k] == "-o" && !OutputValueAt(args, k)
    ensures Run(args, k + 2).walk.opts.output == args[k + 1]
    ensures !Run(args, k + 2).walk.inOutput
    ensures Run(args, k + 2).walk.files == Run(args, k).walk.files
  {
    RunInOutput(args, k);
    RunInOutput(args, k + 1);
  }

  /** Once the loop stops, it stays stopped. */
  lemma {:induction false} RunStops(args: seq<string>, j: nat, k: nat)
    requires j <= k <= |args|
    requires !Run(args, j).Continue?
    ensures Run(args, k) == Run(args, j)
  {
    if j < k {
      RunStops(args, j, k - 1);
    }
  }

  /** "-h" or "--help", read as an option, ends in the usage text. */
  lemma HelpStops(args: seq<string>, k: nat)
    requires k < |args| && Run(args, k).Continue?
    requires !OutputValueAt(args, k) && (args[k] == "-h" || args[k] == "--help")
    ensures ArgsOutcome(args) == Usage
  {
    RunInOutput(args, k);
    assert !IsPeriodOption(args[k]) by {
      assert args[k][1] != 't';
    }
    assert Run(args, k + 1) == StopUsage;
    RunStops(args, k + 1, |args|);
  }

  /** An empty token or a lone "-", read as an option, makes main throw. */
  lemma ShortTokenCrashes(args: seq<string>, k: nat)
    requires k < |args| && Run(args, k).Continue?
    requires !OutputValueAt(args, k) && (args[k] == "" || args[k] == "-")
    ensures ArgsOutcome(args) == Crash
  {
    RunInOutput(args, k);
    assert Run(args, k + 1) == Crashed;
    RunStops(args, k + 1, |args|);
  }

  /** An "-o" with nothing after it ends in the usage text. */
  lemma TrailingOutputOption(args: seq<string>)
    requires |args| > 0 && Run(args, |args|).Continue?
    requires args[|args| - 1] == "-o" && !OutputValueAt(args, |args| - 1)
    ensures ArgsOutcome(args) == Usage
  {
    RunInOutput(args, |args|);
  }

  /** The argument loop of Report.main, over the tokens in order. */
  method ParseArguments(args: seq<string>) returns (o: Outcome)
    ensures o == ArgsOutcome(args)
  {
    var period := Defaults.period;
    var allCharts := Defaults.allCharts;
    var printCharts := Defaults.printCharts;
    var bigCharts := Defaults.bigCharts;
    var statsFile := Defaults.statsFile;
    var output := Defaults.output;
    var filenames: set<string> := {};
    var inOutput := false;
    var n := 0;
    while n < |args|
      invariant 0 <= n <= |args|
      invariant Run(args, n) ==
                Continue(Walk(Options(period, allCharts, printCharts, bigCharts, statsFile, output), filenames, inOutput))
    {
      var token := args[n];
      n := n + 1;
      if inOutput {
        output := token;
        inOutput := false;
        continue;
      }
      if |token| == 0 {
        RunStops(args, n, |args|);
        return Crash;
      }
      if token[0] != '-' {
        filenames := filenames + {token};
      } else if token == "-a" {
        allCharts := true;
      } else if token == "-p" {
        printCharts := true;
      } else if token == "-b" {
        bigCharts := true;
      } else if token == "-o" {
        inOutput := true;
      } else if token == "-s" {
        statsFile := true;
      } else if |token| < 2 {
        RunStops(args, n, |args|);
        return Crash;
      } else if token[..2] == "-t" {
        var p := ParseDouble(token[2..]);
        if p.Some? {
          period := p.value;
        }
      } else if token == "-h" || token == "--help" {
        RunStops(args, n, |args|);
        return Usage;
      }
    }
    if inOutput {
      return Usage;
    }
    o := Proceed(Options(period, allCharts, printCharts, bigCharts, statsFile, output), filenames);
  }
}
