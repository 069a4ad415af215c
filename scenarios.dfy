/**
  Concrete runs of the program, and the place where the tally and the usage
  text of zcount.c part ways.
 */
module Scenarios {
  import opened Limits
  import opened Scanner
  import opened Policy
  import opened Laws

  /** Five zero bytes among ten. */
  const Mixed: seq<byte> := [0, 1, 0, 2, 0, 3, 0, 4, 0, 5]

  lemma MixedCount()
    ensures ScannedBytes(Mixed) == Mixed && ZeroCount(Mixed) == 5
  {
    ScannedBytesFull(Mixed);
    assert Mixed[1..] == [1, 0, 2, 0, 3, 0, 4, 0, 5];
  }

  /** A single file argument. */
  lemma OneFile(a: Args, input: Input)
    ensures OnFiles(a, [input]) == OnFile(a, input)
  {
    assert [input][1..] == [];
  }

  /** Default options, verbosity 0: nothing written, exit status 1. */
  lemma SilentSuspicious(path: string)
    ensures Run([], [Input(path, Opened(Mixed))], []) == Args(0, 0, 1, 1, [])
  {
    MixedCount();
    OneFile(Defaults(), Input(path, Opened(Mixed)));
  }

  /** A file whose count is 5 under the default thresholds, at verbosity 2. */
  lemma ReportFive(path: string, s: seq<byte>)
    requires ScanResult(s, 0) == 5
    ensures OnFiles(Args(2, 0, 1, 0, []), [Input(path, Opened(s))]) ==
      Args(2, 0, 1, 1, [Counted(Stderr, Corrupted, File(path), 5)])
  {
    OneFile(Args(2, 0, 1, 0, []), Input(path, Opened(s)));
  }

  /** `-v -v` is accepted and sets verbosity 2. */
  lemma TwoVerbose()
    ensures Accepted([Verbose, Verbose])
    ensures ParseOptions(Defaults(), [Verbose, Verbose]) == Args(2, 0, 1, 0, [])
  {
    assert [Verbose, Verbose][1..] == [Verbose];
    assert [Verbose][1..] == [];
  }

  /** `-v -v`: one "seems corrupted" line on stderr with the count 5, exit status 1. */
  lemma VeryVerboseSuspicious(path: string)
    ensures var r := Run([Verbose, Verbose], [Input(path, Opened(Mixed))], []);
      r.retcode == 1 && r.out == [Counted(Stderr, Corrupted, File(path), 5)]
  {
    TwoVerbose();
    MixedCount();
    ReportFive(path, Mixed);
  }

  /** `-u 2` on three zero bytes: the scan stops at 2, the file is suspicious, exit status 1. */
  lemma UpperStopsScan(path: string)
    ensures var r := Run([Upper(2)], [Input(path, Opened([0, 0, 0]))], []);
      r.retcode == 1 && r.upper == 2 && r.lower == 1 && r.out == []
    ensures ScanResult([0, 0, 0], 2) == 2
  {
    ZeroCountZeros(3);
    assert seq(3, _ => 0 as byte) == [0, 0, 0];
    assert ParseOptions(Defaults(), [Upper(2)]) == Args(0, 2, 1, 0, []) by {
      assert [Upper(2)][1..] == [];
    }
    OneFile(Args(0, 2, 1, 0, []), Input(path, Opened([0, 0, 0])));
  }

  /** Empty standard input, no arguments: count 0, nothing written, exit status 0. */
  lemma EmptyStdin()
    ensures Run([], [], []) == Args(0, 0, 1, 0, [])
  {
  }

  /**
    `-v` with a file that does not open followed by a clean file: only the
    open failure is written and the exit status is 0.
   */
  lemma MissingThenClean(missing: string, error: string, clean: string)
    ensures var r := Run([Verbose], [Input(missing, Failed(error)), Input(clean, Opened([1, 2]))], []);
      r.retcode == 0 && r.out == [OpenFailed(missing, error)]
  {
    ScannedBytesFull([1, 2]);
    assert [1, 2][1..] == [2 as byte];
    var inputs := [Input(missing, Failed(error)), Input(clean, Opened([1, 2]))];
    assert ParseOptions(Defaults(), [Verbose]) == Args(1, 0, 1, 0, []) by {
      assert [Verbose][1..] == [];
    }
    assert inputs[1..] == [inputs[1]];
    assert ZeroCount([1, 2]) == 0 by {
      assert [2 as byte][1..] == [];
    }
    var a := Args(1, 0, 1, 0, []);
    OneFile(a.(out := [OpenFailed(missing, error)]), inputs[1]);
    calc {
      Run([Verbose], inputs, []);
      OnFiles(a, inputs);
      OnFiles(OnFile(a, inputs[0]), inputs[1..]);
      OnFiles(a.(out := [OpenFailed(missing, error)]), [inputs[1]]);
      OnFile(a.(out := [OpenFailed(missing, error)]), inputs[1]);
      a.(out := [OpenFailed(missing, error)]);
    }
  }

  /**
    The usage text promises a return code counting the files with at least
    NUMBER2 zero bytes; the code counts every file with a non-zero count.
    With `-v -l 5`, a file holding one zero byte is not reported as corrupted
    and yet raises the exit status to 1.
   */
  lemma TallyIgnoresLower(path: string)
    ensures var r := Run([Verbose, Lower(5)], [Input(path, Opened([0]))], []);
      r.retcode == 1 && r.out == []
  {
    ScannedBytesFull([0]);
    assert ParseOptions(Defaults(), [Verbose, Lower(5)]) == Args(1, 0, 5, 0, []) by {
      assert [Verbose, Lower(5)][1..] == [Lower(5)];
      assert [Lower(5)][1..] == [];
    }
    OneFile(Args(1, 0, 5, 0, []), Input(path, Opened([0])));
  }

  /**
    With a lower threshold above a non-zero limit, the threshold becomes the
    limit, and at verbosity 1 a "seems corrupted" line appears exactly when
    the count reaches the limit.
   */
  lemma ClampedBoundary(u: ULong, l: ULong, s: seq<byte>, path: string)
    requires u != 0 && l > u
    ensures var r := Run([Verbose, Upper(u), Lower(l)], [Input(path, Opened(s))], []);
      r.lower == u && (r.out != [] <==> ScanResult(s, u) == u)
  {
    var opts := [Verbose, Upper(u), Lower(l)];
    assert opts[1..] == [Upper(u), Lower(l)];
    assert opts[1..][1..] == [Lower(l)];
    assert opts[1..][1..][1..] == [];
    calc {
      ParseOptions(Defaults(), opts);
      ParseOptions(Args(1, 0, 1, 0, []), opts[1..]);
      ParseOptions(Args(1, u, 1, 0, []), opts[1..][1..]);
      ParseOptions(Args(1, u, l, 0, []), opts[1..][1..][1..]);
      Args(1, u, l, 0, []);
    }
    OneFile(Args(1, u, l, 0, []), Input(path, Opened(s)));
  }
}
