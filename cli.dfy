/**
  The program as it runs: `struct arguments` is an object whose fields the
  branches of `parse_opt` (zcount.c, lines 93-205) update in place, one call
  after another, and `main` (lines 211-221) returns its `retcode`. Every
  method is proved to have exactly the effect the matching function of module
  `Policy` describes.
 */
module Cli {
  import opened Limits
  import opened Scanner
  import opened Policy

  class Arguments {
    var verbosity: int
    var upper: ULong
    var lower: ULong
    var retcode: int
    /** The lines written to stdout and stderr so far, in order. */
    var out: seq<Event>

    /** The fields as a value. */
    function State(): Args
      reads this
    {
      Args(verbosity, upper, lower, retcode, out)
    }

    /** ARGP_KEY_INIT: the default option values. */
    constructor Init()
      ensures State() == Defaults()
    {
      verbosity := 0;
      upper := 0;
      lower := 1;
      retcode := 0;
      out := [];
    }

    /** Option `-v`. */
    method Verbose()
      modifies this
      ensures State() == AddVerbose(old(State()))
      ensures old(verbosity) < INT_MAX ==> verbosity == old(verbosity) + 1
      ensures old(verbosity) >= INT_MAX ==> verbosity == old(verbosity)
    {
      if verbosity < INT_MAX {
        verbosity := verbosity + 1;
      }
    }

    /** Option `-u`, with its number already converted. */
    method SetUpper(n: ULong)
      modifies this
      ensures State() == old(State()).(upper := n)
    {
      upper := n;
    }

    /** Option `-l`, with its number already converted. */
    method SetLower(n: ULong)
      modifies this
      ensures State() == old(State()).(lower := n)
    {
      lower := n;
    }

    /** The error branch of `-u` and `-l`: the number was not entirely consumed. */
    method RejectNumber(token: string)
      modifies this
      ensures State() == old(State()).(out := old(out) + [NotANumber(token)])
    {
      out := out + [NotANumber(token)];
    }

    /** ARGP_KEY_ERROR: parsing stopped because an option was rejected. */
    method Abort()
      modifies this
      ensures State() == old(State()).(out := old(out) + [ParseAborted])
    {
      out := out + [ParseAborted];
    }

    /** The `switch` of parse_opt for an option key. */
    method Option(o: Opt)
      modifies this
      ensures State() == ApplyOption(old(State()), o)
    {
      match o
      case Verbose => Verbose();
      case Upper(n) => SetUpper(n);
      case Lower(n) => SetLower(n);
      case Malformed(token) => RejectNumber(token);
    }

    /** The "small sanity check" on the thresholds. */
    method SanityCheck()
      modifies this
      ensures State() == old(State()).(lower := Clamp(upper, old(lower)))
    {
      if lower > upper && upper != 0 {
        lower := upper;
      }
    }

    /** The update of the number of suspicious inputs. */
    method CountSuspicious(zeros: ULong)
      modifies this
      ensures State() == old(State()).(retcode := Tally(old(retcode), zeros))
    {
      if zeros != 0 && retcode < INT_MAX {
        retcode := retcode + 1;
      }
    }

    /** The output, depending on verbosity. */
    method Report(subject: Label, zeros: ULong)
      modifies this
      ensures State() == old(State()).(out := old(out) + Reports(verbosity, lower, subject, zeros))
    {
      if verbosity == 1 && zeros >= lower {
        out := out + [Counted(Stderr, Corrupted, subject, zeros)];
      }
      if verbosity >= 2 {
        if zeros < lower {
          out := out + [Counted(Stdout, Clean, subject, zeros)];
        } else {
          out := out + [Counted(Stderr, Corrupted, subject, zeros)];
        }
      }
    }

    /**
      What ARGP_KEY_ARG and ARGP_KEY_NO_ARGS do once the count is known: the
      sanity check on the thresholds, the tally, and the output.
     */
    method Evaluate(subject: Label, zeros: ULong)
      modifies this
      ensures State() == Policy.Evaluate(old(State()), subject, zeros)
      ensures upper != 0 ==> lower <= upper
    {
      SanityCheck();
      CountSuspicious(zeros);
      Report(subject, zeros);
    }

    /** ARGP_KEY_ARG: open the file, count its zero bytes, evaluate; or report the open failure. */
    method ProcessFile(input: Input)
      modifies this
      ensures State() == OnFile(old(State()), input)
    {
      match input.open
      case Opened(contents) =>
        var fp := new byte[|contents|](j requires 0 <= j < |contents| => contents[j]);
        assert fp[..] == contents;
        var zeros := CountZB(fp, upper);
        Evaluate(File(input.path), zeros);
      case Failed(error) =>
        out := out + [OpenFailed(input.path, error)];
    }

    /** ARGP_KEY_NO_ARGS: count the zero bytes of standard input and evaluate. */
    method ProcessStdin(stdin: array<byte>)
      modifies this
      ensures State() == OnStdin(old(State()), stdin[..])
    {
      var zeros := CountZB(stdin, upper);
      Evaluate(Stdin, zeros);
    }
  }

  /**
    `argp_parse` driving parse_opt, followed by `main`'s return: options in
    order, then each file argument, or standard input when there is none.
    `status` is the exit status and `out` what was written, line by line.
   */
  method Zcount(opts: seq<Opt>, inputs: seq<Input>, stdin: seq<byte>) returns (status: int, out: seq<Event>)
    ensures status == Run(opts, inputs, stdin).retcode
    ensures out == Run(opts, inputs, stdin).out
  {
    var arguments := new Arguments.Init();
    var i := 0;
    var rejected := false;
    while i < |opts| && !rejected
      invariant 0 <= i <= |opts|
      invariant Accepted(opts[..i])
      invariant !rejected ==> ParseOptions(arguments.State(), opts[i..]) == ParseOptions(Defaults(), opts)
      invariant rejected ==> arguments.State() == ParseOptions(Defaults(), opts) && !Accepted(opts)
      decreases |opts| - i, !rejected
    {
      var o := opts[i];
      arguments.Option(o);
      if o.Malformed? {
        arguments.Abort();
        rejected := true;
      } else {
        assert opts[..i + 1] == opts[..i] + [o];
        i := i + 1;
      }
    }
    if !rejected {
      assert opts[..i] == opts;
      if inputs == [] {
        var fp := new byte[|stdin|](j requires 0 <= j < |stdin| => stdin[j]);
        assert fp[..] == stdin;
        arguments.ProcessStdin(fp);
      } else {
        var k := 0;
        while k < |inputs|
          invariant 0 <= k <= |inputs|
          invariant OnFiles(arguments.State(), inputs[k..]) == Run(opts, inputs, stdin)
        {
          arguments.ProcessFile(inputs[k]);
          assert inputs[k..][1..] == inputs[k + 1..];
          k := k + 1;
        }
      }
    }
    status := arguments.retcode;
    out := arguments.out;
  }
}
