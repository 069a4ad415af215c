/**
  Properties of whole runs of the program, stated over the functions of
  module `Policy` (and so, through the contracts of module `Cli`, over the
  program itself).
 */
module Laws {
  import opened Limits
  import opened Scanner
  import opened Policy

  /** Number of `-v` options. */
  function CountVerbose(opts: seq<Opt>): nat
    decreases |opts|
  {
    if opts == [] then 0 else (if opts[0].Verbose? then 1 else 0) + CountVerbose(opts[1..])
  }

  /** The number of the last `-u` option, or `d` when there is none. */
  function LastUpper(opts: seq<Opt>, d: ULong): ULong
    decreases |opts|
  {
    if opts == [] then d else LastUpper(opts[1..], if opts[0].Upper? then opts[0].n else d)
  }

  /** The number of the last `-l` option, or `d` when there is none. */
  function LastLower(opts: seq<Opt>, d: ULong): ULong
    decreases |opts|
  {
    if opts == [] then d else LastLower(opts[1..], if opts[0].Lower? then opts[0].n else d)
  }

  /** Number of inputs that opened and in which the scan counted at least one zero byte. */
  function NonZeroInputs(inputs: seq<Input>, upper: ULong): nat
    decreases |inputs|
  {
    if inputs == [] then 0
    else
      (if inputs[0].open.Opened? && ScanResult(inputs[0].open.contents, upper) != 0 then 1 else 0)
      + NonZeroInputs(inputs[1..], upper)
  }

  /** True when at least one input could be opened. */
  predicate AnyOpened(inputs: seq<Input>) {
    exists i :: 0 <= i < |inputs| && inputs[i].open.Opened?
  }

  /** The open-failure lines for the inputs that could not be opened, in order. */
  function Failures(inputs: seq<Input>): seq<Event>
    decreases |inputs|
  {
    if inputs == [] then []
    else
      (if inputs[0].open.Failed? then [OpenFailed(inputs[0].path, inputs[0].open.error)] else [])
      + Failures(inputs[1..])
  }

  /**
    Accepted options leave verbosity at the number of `-v` (saturated at
    INT_MAX), the thresholds at the last `-u` and `-l` given, and touch
    nothing else.
   */
  lemma {:induction false} OptionsSet(a: Args, opts: seq<Opt>)
    requires 0 <= a.verbosity <= INT_MAX
    requires Accepted(opts)
    ensures ParseOptions(a, opts) == a.(verbosity := Min(INT_MAX, a.verbosity + CountVerbose(opts)),
                                        upper := LastUpper(opts, a.upper),
                                        lower := LastLower(opts, a.lower))
    decreases |opts|
  {
    if opts != [] {
      assert Accepted(opts[1..]) by {
        forall i | 0 <= i < |opts[1..]| ensures !opts[1..][i].Malformed? {
          assert opts[1..][i] == opts[i + 1];
        }
      }
      OptionsSet(ApplyOption(a, opts[0]), opts[1..]);
    }
  }

  /** The option record a run starts its inputs with. */
  lemma RunOptions(opts: seq<Opt>)
    requires Accepted(opts)
    ensures ParseOptions(Defaults(), opts) ==
      Args(Min(INT_MAX, CountVerbose(opts)), LastUpper(opts, 0), LastLower(opts, 1), 0, [])
  {
    OptionsSet(Defaults(), opts);
  }

  /**
    A rejected option stops the run before any input: the output is the
    rejection of the first malformed number followed by the abort line, and
    the exit status is the untouched tally.
   */
  lemma {:induction false} RejectedOptions(a: Args, opts: seq<Opt>)
    requires !Accepted(opts)
    ensures ParseOptions(a, opts).retcode == a.retcode
    ensures exists i :: (0 <= i < |opts| && opts[i].Malformed? && Accepted(opts[..i]) &&
                         ParseOptions(a, opts).out == a.out + [NotANumber(opts[i].token), ParseAborted])
    decreases |opts|
  {
    if opts[0].Malformed? {
      assert Accepted(opts[..0]);
    } else {
      assert !Accepted(opts[1..]) by {
        var j :| 0 <= j < |opts| && opts[j].Malformed?;
        assert opts[1..][j - 1] == opts[j];
      }
      RejectedOptions(ApplyOption(a, opts[0]), opts[1..]);
      var i :| 0 <= i < |opts[1..]| && opts[1..][i].Malformed? && Accepted(opts[1..][..i]) &&
        ParseOptions(ApplyOption(a, opts[0]), opts[1..]).out == ApplyOption(a, opts[0]).out + [NotANumber(opts[1..][i].token), ParseAborted];
      assert opts[..i + 1] == [opts[0]] + opts[1..][..i];
      assert opts[i + 1] == opts[1..][i];
    }
  }

  /** A run with a rejected option exits with status 0 and writes only the two error lines. */
  lemma RunRejected(opts: seq<Opt>, inputs: seq<Input>, stdin: seq<byte>)
    requires !Accepted(opts)
    ensures Run(opts, inputs, stdin).retcode == 0
    ensures exists i :: (0 <= i < |opts| && opts[i].Malformed? && Accepted(opts[..i]) &&
                         Run(opts, inputs, stdin).out == [NotANumber(opts[i].token), ParseAborted])
  {
    RejectedOptions(Defaults(), opts);
  }

  /**
    Over a list of file arguments: verbosity and upper limit stay as they are,
    the tally grows by one per input with a non-zero count (saturating at
    INT_MAX), and the lower threshold is clamped once if any input opened.
   */
  lemma {:induction false} FilesEffect(a: Args, inputs: seq<Input>)
    requires Sane(a)
    ensures var b := OnFiles(a, inputs);
      && Sane(b)
      && b.verbosity == a.verbosity && b.upper == a.upper
      && b.retcode == Min(INT_MAX, a.retcode + NonZeroInputs(inputs, a.upper))
      && b.lower == (if AnyOpened(inputs) then Clamp(a.upper, a.lower) else a.lower)
    decreases |inputs|
  {
    if inputs != [] {
      var a1 := OnFile(a, inputs[0]);
      FilesEffect(a1, inputs[1..]);
      if inputs[0].open.Opened? {
        assert AnyOpened(inputs);
      } else if AnyOpened(inputs[1..]) {
        var j :| 0 <= j < |inputs[1..]| && inputs[1..][j].open.Opened?;
        assert inputs[j + 1] == inputs[1..][j];
      } else {
        assert !AnyOpened(inputs) by {
          forall i | 0 < i < |inputs| ensures !inputs[i].open.Opened? {
            assert inputs[i] == inputs[1..][i - 1];
          }
        }
      }
    } else {
      assert !AnyOpened(inputs);
    }
  }

  /**
    The exit status of an accepted run: for standard input, 1 exactly when its
    count is non-zero; for file arguments, the number of opened files with a
    non-zero count, saturated at INT_MAX. The lower threshold plays no part.
   */
  lemma RunTally(opts: seq<Opt>, inputs: seq<Input>, stdin: seq<byte>)
    requires Accepted(opts)
    ensures var upper := LastUpper(opts, 0);
      Run(opts, inputs, stdin).retcode ==
        if inputs == [] then (if ScanResult(stdin, upper) != 0 then 1 else 0)
        else Min(INT_MAX, NonZeroInputs(inputs, upper))
  {
    RunOptions(opts);
    if inputs != [] {
      FilesEffect(ParseOptions(Defaults(), opts), inputs);
    }
  }

  /** After the inputs, a non-zero upper limit bounds the lower threshold, provided something was scanned. */
  lemma RunThresholds(opts: seq<Opt>, inputs: seq<Input>, stdin: seq<byte>)
    requires Accepted(opts)
    ensures var r := Run(opts, inputs, stdin);
      && r.upper == LastUpper(opts, 0)
      && r.lower == (if inputs == [] || AnyOpened(inputs) then Clamp(LastUpper(opts, 0), LastLower(opts, 1))
                     else LastLower(opts, 1))
  {
    RunOptions(opts);
    if inputs != [] {
      FilesEffect(ParseOptions(Defaults(), opts), inputs);
    }
  }

  /** At verbosity 2 or more, every file argument produces exactly one line. */
  lemma {:induction false} VerboseLinePerInput(a: Args, inputs: seq<Input>)
    requires a.verbosity >= 2
    ensures |OnFiles(a, inputs).out| == |a.out| + |inputs|
    decreases |inputs|
  {
    if inputs != [] {
      VerboseLinePerInput(OnFile(a, inputs[0]), inputs[1..]);
    }
  }

  /** At verbosity 0 the only lines are the open failures, in order. */
  lemma {:induction false} SilentOnlyFailures(a: Args, inputs: seq<Input>)
    requires a.verbosity <= 0
    ensures OnFiles(a, inputs).out == a.out + Failures(inputs)
    decreases |inputs|
  {
    if inputs != [] {
      SilentOnlyFailures(OnFile(a, inputs[0]), inputs[1..]);
    }
  }

  /**
    Standard output receives only "clean" lines, and only at verbosity 2 or
    more; every other line goes to stderr.
   */
  lemma {:induction false} StdoutOnlyClean(a: Args, inputs: seq<Input>)
    ensures var b := OnFiles(a, inputs);
      forall k :: |a.out| <= k < |b.out| && b.out[k].Stream() == Stdout ==>
        b.out[k].Counted? && b.out[k].kind == Clean && a.verbosity >= 2
    decreases |inputs|
  {
    if inputs != [] {
      var a1 := OnFile(a, inputs[0]);
      StdoutOnlyClean(a1, inputs[1..]);
      var b := OnFiles(a, inputs);
      assert b == OnFiles(a1, inputs[1..]);
      assert b.out[..|a1.out|] == a1.out;
      forall k | |a.out| <= k < |b.out| && b.out[k].Stream() == Stdout
        ensures b.out[k].Counted? && b.out[k].kind == Clean && a.verbosity >= 2
      {
        if k < |a1.out| {
          assert b.out[k] == a1.out[k];
          if inputs[0].open.Opened? {
            var r := Reports(a.verbosity, Clamp(a.upper, a.lower), File(inputs[0].path),
                             ScanResult(inputs[0].open.contents, a.upper));
            assert a1.out == a.out + r;
            assert a1.out[k] == r[k - |a.out|];
            assert a1.out[k] in r;
          }
        }
      }
    }
  }
}
