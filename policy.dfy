/**
  The effect of `parse_opt` (zcount.c, lines 93-205) on the `struct arguments`
  record and on the two output streams, as pure functions of values. The class
  `Cli.Arguments` performs the same steps in place and is proved against these
  functions; the lemmas of module `Laws` are stated over them.

  Output is logged as structured events instead of formatted text: the stream
  written to, the kind of message, the input it names and the count it prints.
 */
module Policy {
  import opened Limits
  import opened Scanner

  datatype Channel = Stdout | Stderr

  /** The input a report is about: a file argument, or standard input. */
  datatype Label = File(path: string) | Stdin

  datatype Kind = Clean | Corrupted

  /** One line the program writes. */
  datatype Event =
    | Counted(channel: Channel, kind: Kind, subject: Label, zeros: ULong)  // "<subject>: [seems corrupted, ]<N> zero-bytes counted"
    | OpenFailed(path: string, error: string)                           // "<path>: <strerror(errno)>"
    | NotANumber(token: string)                                         // "'<token>' is not a non-negative integer"
    | ParseAborted                                                      // "Argument parsing has been terminated due to an error!"
  {
    /** The stream the line goes to. */
    function Stream(): Channel {
      if Counted? then channel else Stderr
    }
  }

  /** What `fopen(path, "r")` gave: the file's bytes, or the text of the error. */
  datatype OpenResult = Opened(contents: seq<byte>) | Failed(error: string)

  /** A file argument together with the outcome of opening it. */
  datatype Input = Input(path: string, open: OpenResult)

  /**
    An option as the option parser hands it over. The numbers of `-u` and `-l`
    arrive already converted; `Malformed` stands for an argument that `strtoul`
    did not consume entirely.
   */
  datatype Opt = Verbose | Upper(n: ULong) | Lower(n: ULong) | Malformed(token: string)

  /** `struct arguments` together with everything written so far. */
  datatype Args = Args(verbosity: int, upper: ULong, lower: ULong, retcode: int, out: seq<Event>)

  /** The `int` fields stay within their C range and are never negative. */
  predicate Sane(a: Args) {
    0 <= a.verbosity <= INT_MAX && 0 <= a.retcode <= INT_MAX
  }

  /** ARGP_KEY_INIT: the defaults (silent, no upper limit, lower threshold 1, no suspicious input yet). */
  function Defaults(): (a: Args)
    ensures Sane(a)
  {
    Args(0, 0, 1, 0, [])
  }

  /** One `-v`: verbosity goes up by one, but never past INT_MAX. */
  function AddVerbose(a: Args): (b: Args)
    ensures b == a.(verbosity := b.verbosity)
    ensures a.verbosity < INT_MAX ==> b.verbosity == a.verbosity + 1
    ensures a.verbosity >= INT_MAX ==> b.verbosity == a.verbosity
    ensures Sane(a) ==> Sane(b)
  {
    if a.verbosity < INT_MAX then a.(verbosity := a.verbosity + 1) else a
  }

  /** One parse_opt call for an option key (`'v'`, `'u'` or `'l'`). */
  function ApplyOption(a: Args, o: Opt): (b: Args)
    ensures Sane(a) ==> Sane(b)
    ensures o.Verbose? ==> b == AddVerbose(a)
    ensures o.Upper? ==> b == a.(upper := o.n)
    ensures o.Lower? ==> b == a.(lower := o.n)
    ensures o.Malformed? ==> b == a.(out := a.out + [NotANumber(o.token)])
  {
    match o
    case Verbose => AddVerbose(a)
    case Upper(n) => a.(upper := n)
    case Lower(n) => a.(lower := n)
    case Malformed(token) => a.(out := a.out + [NotANumber(token)])
  }

  /** True when the parser accepts every option (none of them is malformed). */
  predicate Accepted(opts: seq<Opt>) {
    forall i :: 0 <= i < |opts| ==> !opts[i].Malformed?
  }

  /**
    The options in command-line order. At the first malformed number parse_opt
    returns EINVAL, the option parser stops and calls parse_opt once more with
    ARGP_KEY_ERROR, and no input is processed.
   */
  function ParseOptions(a: Args, opts: seq<Opt>): (b: Args)
    ensures b.retcode == a.retcode
    ensures Sane(a) ==> Sane(b)
    ensures |a.out| <= |b.out| && b.out[..|a.out|] == a.out
    decreases |opts|
  {
    if opts == [] then a
    else if opts[0].Malformed? then ApplyOption(a, opts[0]).(out := a.out + [NotANumber(opts[0].token), ParseAborted])
    else ParseOptions(ApplyOption(a, opts[0]), opts[1..])
  }

  /**
    The "small sanity check": a lower threshold above a non-zero upper limit is
    lowered to that limit; otherwise it stays as it is.
   */
  function Clamp(upper: ULong, lower: ULong): (r: ULong)
    ensures r == lower || r == upper
    ensures r <= lower
    ensures upper != 0 ==> r <= upper
    ensures upper == 0 || lower <= upper ==> r == lower
  {
    if lower > upper && upper != 0 then upper else lower
  }

  /**
    The update of the number of suspicious inputs. It tests the count against
    zero, not against the lower threshold, and saturates at INT_MAX.
   */
  function Tally(retcode: int, zeros: ULong): (r: int)
    ensures zeros == 0 ==> r == retcode
    ensures zeros != 0 && retcode < INT_MAX ==> r == retcode + 1
    ensures retcode >= INT_MAX ==> r == retcode
    ensures 0 <= retcode <= INT_MAX ==> 0 <= r <= INT_MAX
  {
    if zeros != 0 && retcode < INT_MAX then retcode + 1 else retcode
  }

  /**
    The lines written for an input with `zeros` zero bytes, given the verbosity
    and the (already clamped) lower threshold: nothing at verbosity 0; at 1 a
    "seems corrupted" line on stderr exactly when the count reaches the
    threshold; from 2 on always one line, "clean" on stdout below the
    threshold and "seems corrupted" on stderr otherwise.
   */
  function Reports(verbosity: int, lower: ULong, subject: Label, zeros: ULong): (r: seq<Event>)
    ensures |r| <= 1
    ensures verbosity <= 0 ==> r == []
    ensures verbosity == 1 ==> (r != [] <==> zeros >= lower)
    ensures verbosity >= 2 ==> |r| == 1
    ensures forall e :: e in r ==> e.Counted? && e.subject == subject && e.zeros == zeros
    ensures forall e :: e in r ==> (e.kind == Clean <==> zeros < lower)
    ensures forall e :: e in r ==> (e.channel == Stdout <==> e.kind == Clean)
  {
    (if verbosity == 1 && zeros >= lower then [Counted(Stderr, Corrupted, subject, zeros)] else [])
    + (if verbosity >= 2 then
         (if zeros < lower then [Counted(Stdout, Clean, subject, zeros)] else [Counted(Stderr, Corrupted, subject, zeros)])
       else [])
  }

  /** The work done for one scanned input: clamp, tally, report. */
  function Evaluate(a: Args, subject: Label, zeros: ULong): (b: Args)
    ensures b.verbosity == a.verbosity && b.upper == a.upper
    ensures b.lower <= a.lower && (b.lower == a.lower || b.lower == a.upper)
    ensures a.upper != 0 ==> b.lower <= b.upper
    ensures Sane(a) ==> Sane(b)
    ensures |a.out| <= |b.out| <= |a.out| + 1 && b.out[..|a.out|] == a.out
  {
    var lower := Clamp(a.upper, a.lower);
    a.(lower := lower, retcode := Tally(a.retcode, zeros), out := a.out + Reports(a.verbosity, lower, subject, zeros))
  }

  /** ARGP_KEY_ARG: one file argument. A file that cannot be opened is only reported. */
  function OnFile(a: Args, input: Input): (b: Args)
    ensures input.open.Failed? ==>
      && b.verbosity == a.verbosity && b.upper == a.upper && b.lower == a.lower && b.retcode == a.retcode
      && b.out == a.out + [OpenFailed(input.path, input.open.error)]
  {
    match input.open
    case Failed(error) => a.(out := a.out + [OpenFailed(input.path, error)])
    case Opened(contents) => Evaluate(a, File(input.path), ScanResult(contents, a.upper))
  }

  /** ARGP_KEY_NO_ARGS: standard input, scanned once when there are no file arguments. */
  function OnStdin(a: Args, stdin: seq<byte>): (b: Args)
    ensures b.verbosity == a.verbosity && b.upper == a.upper
    ensures b.lower == Clamp(a.upper, a.lower)
    ensures b.retcode == Tally(a.retcode, ScanResult(stdin, a.upper))
    ensures |a.out| <= |b.out| <= |a.out| + 1 && b.out[..|a.out|] == a.out
  {
    Evaluate(a, Stdin, ScanResult(stdin, a.upper))
  }

  /** ARGP_KEY_ARG for each file argument, in order. */
  function OnFiles(a: Args, inputs: seq<Input>): (b: Args)
    ensures b.verbosity == a.verbosity && b.upper == a.upper
    ensures Sane(a) ==> Sane(b)
    ensures |a.out| <= |b.out| && b.out[..|a.out|] == a.out
    decreases |inputs|
  {
    if inputs == [] then a else OnFiles(OnFile(a, inputs[0]), inputs[1..])
  }

  /**
    The whole run: defaults, then the options, then the file arguments (or
    standard input when there are none). Its `retcode` is what `main` returns.
   */
  function Run(opts: seq<Opt>, inputs: seq<Input>, stdin: seq<byte>): (r: Args)
    ensures 0 <= r.retcode <= INT_MAX
    ensures !Accepted(opts) ==> r.retcode == 0
  {
    var a := ParseOptions(Defaults(), opts);
    if !Accepted(opts) then a
    else if inputs == [] then OnStdin(a, stdin)
    else OnFiles(a, inputs)
  }
}
