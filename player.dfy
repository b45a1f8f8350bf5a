/**
 * The decision logic of `main` (play.py:242-299): check the file, probe the
 * ALSA listings, optionally list them and stop, print the DAC hint, build the
 * candidates and try them in order until one succeeds.
 *
 * Everything outside the program is a parameter: whether the file exists,
 * the tools on the search path, what the listings print, whether the host is
 * a Raspberry Pi, and the outcome of every child process.
 */
module Player {
  import opened Wrappers
  import opened Decimal
  import opened Probe
  import opened Backends
  import opened Pipeline

  /** What launching a simple backend gives: its exit status, or FileNotFoundError. */
  datatype Launch = Exited(code: int) | NotFound

  /** The parsed command line (play.py:209-242), with the path already resolved. */
  datatype Request = Request(
    path: string,
    fileExists: bool,
    device: Option<string>,
    loops: int,
    listDevices: bool,
    dryRun: bool)

  /** The environment the program meets. */
  datatype World = World(
    installed: set<string>,      // tools on the search path while `main` looks them up
    isPi: bool,                  // what `_is_raspberry_pi` reports
    cardsListing: string,        // what `aplay -l` prints
    pcmsListing: string,         // what `aplay -L` prints
    launch: nat -> Launch,       // the outcome of launching candidate i
    laterInstalled: set<string>, // tools on the search path when the pipeline runner looks again
    tmpDir: string,              // the temporary directory the runner is given
    decode: int,                 // the ffmpeg decode step's exit status
    play: nat -> int)            // the exit status of the k-th aplay run

  /** The exit status, every command handed to the process launcher, and whether the hint was printed. */
  datatype Outcome = Outcome(status: int, ran: seq<Argv>, hinted: bool)

  /** The listing commands run while probing, when aplay is found. */
  function ProbeRuns(installed: set<string>): seq<Argv> {
    if "aplay" in installed then [["aplay", "-l"], ["aplay", "-L"]] else []
  }

  function CardsText(w: World): string {
    if "aplay" in w.installed then w.cardsListing else ""
  }

  function PcmsText(w: World): string {
    if "aplay" in w.installed then w.pcmsListing else ""
  }

  /** The commands launched for a run of candidates: one per simple candidate. */
  function SimpleRuns(cs: seq<Candidate>): seq<Argv> {
    if cs == [] then []
    else
      SimpleRuns(cs[..|cs| - 1])
      + match cs[|cs| - 1] { case Simple(cmd) => [cmd.AsList()] case Pipeline(_, _, _) => [] }
  }

  /** The candidate loop ends at candidate j: it is the pipeline, or it launches and exits 0. */
  predicate Stops(cs: seq<Candidate>, launch: nat -> Launch, j: nat) {
    j < |cs| && (cs[j].Pipeline? || launch(j) == Exited(0))
  }

  /** The index at which the candidate loop ends, |cs| when every candidate fails. */
  function StopIndex(cs: seq<Candidate>, launch: nat -> Launch): (k: nat)
    ensures k <= |cs|
    ensures k < |cs| ==> Stops(cs, launch, k)
    ensures forall j :: 0 <= j < k ==> !Stops(cs, launch, j)
  {
    var stops := (j: nat) => Stops(cs, launch, j);
    var k := FirstWhere(stops, |cs|);
    assert forall j :: 0 <= j < k ==> !Stops(cs, launch, j) by {
      forall j | 0 <= j < k ensures !Stops(cs, launch, j) {
        assert !stops(j);
      }
    }
    assert k < |cs| ==> stops(k);
    k
  }

  /**
   * The candidate loop of play.py:274-299 as a function: with dry-run it stops
   * at the first candidate; otherwise simple candidates are launched in order
   * until one exits 0, the pipeline's status is returned as it is, and 1 is
   * returned when every candidate failed.
   */
  ghost function TrySpec(cs: seq<Candidate>, dryRun: bool, loops: int, w: World,
                         probes: seq<Argv>, hinted: bool): (o: Outcome)
    requires PipelineReached(cs, dryRun, w.launch) ==> RunEnds(w.laterInstalled, loops, w.decode, w.play)
  {
    if cs == [] then Outcome(1, probes, hinted)
    else if dryRun then Outcome(0, probes, hinted)
    else
      var k := StopIndex(cs, w.launch);
      var tried := probes + SimpleRuns(cs[..k]);
      if k == |cs| then Outcome(1, tried, hinted)
      else match cs[k]
        case Simple(cmd) => Outcome(0, tried + [cmd.AsList()], hinted)
        case Pipeline(path, device, _) =>
          var e := RunSpec(w.laterInstalled, path, device, loops, w.tmpDir, w.decode, w.play);
          Outcome(e.status, tried + e.ran, hinted)
  }

  /** Not a dry run, and the candidate loop stops at the pipeline. */
  predicate PipelineReached(cs: seq<Candidate>, dryRun: bool, launch: nat -> Launch) {
    !dryRun && StopIndex(cs, launch) < |cs| && cs[StopIndex(cs, launch)].Pipeline?
  }

  /** `main` hands over to the decode-then-play runner. */
  predicate ReachesPipeline(req: Request, w: World) {
    req.fileExists && !req.listDevices
    && PipelineReached(BackendCommands(w.installed, req.path, req.device, req.loops), req.dryRun, w.launch)
  }

  /** `main` returns: it never reaches the runner, or the runner returns. */
  ghost predicate Ends(req: Request, w: World) {
    ReachesPipeline(req, w) ==> RunEnds(w.laterInstalled, req.loops, w.decode, w.play)
  }

  /** `main` as a function of the request and the environment. */
  ghost function MainSpec(req: Request, w: World): Outcome
    requires Ends(req, w)
  {
    if !req.fileExists then Outcome(2, [], false)
    else
      var probes := ProbeRuns(w.installed);
      if req.listDevices then Outcome(0, probes, false)
      else
        var hinted := w.isPi && !GuessPcm5100CardPresent(CardsText(w), PcmsText(w));
        var cs := BackendCommands(w.installed, req.path, req.device, req.loops);
        if cs == [] then Outcome(127, probes, hinted)
        else TrySpec(cs, req.dryRun, req.loops, w, probes, hinted)
  }

  lemma SimpleRunsStep(cs: seq<Candidate>, i: nat)
    requires i < |cs|
    ensures SimpleRuns(cs[..i + 1]) == SimpleRuns(cs[..i])
      + match cs[i] { case Simple(cmd) => [cmd.AsList()] case Pipeline(_, _, _) => [] }
  {
    assert cs[..i + 1][..i] == cs[..i];
  }

  /**
   * The candidate loop: `ran` holds the probing commands already run, and
   * every pipeline descriptor carries `str(loops)`, as the generator writes it.
   */
  method TryCandidates(cs: seq<Candidate>, dryRun: bool, loops: int, w: World,
                       probes: seq<Argv>, hinted: bool) returns (o: Outcome)
    requires PipelineReached(cs, dryRun, w.launch) ==> RunEnds(w.laterInstalled, loops, w.decode, w.play)
    requires forall i :: 0 <= i < |cs| && cs[i].Pipeline? ==> cs[i].loopsArg == IntToString(loops)
    ensures o == TrySpec(cs, dryRun, loops, w, probes, hinted)
  {
    var ran := probes;
    var i := 0;
    while i < |cs|
      invariant i <= |cs|
      invariant dryRun ==> i == 0
      invariant forall j :: 0 <= j < i ==> !Stops(cs, w.launch, j)
      invariant ran == probes + SimpleRuns(cs[..i])
    {
      if dryRun {
        return Outcome(0, ran, hinted);
      }
      SimpleRunsStep(cs, i);
      match cs[i] {
        case Pipeline(path, device, loopsArg) =>
          StopIndexIs(cs, w.launch, i);
          assert PipelineReached(cs, dryRun, w.launch);
          IntRoundTrip(loops);
          var n := ParseInt(loopsArg).value;
          assert n == loops;
          var status, piped := RunFfmpegToWavThenAplay(w.laterInstalled, path, device, n,
                                                      w.tmpDir, w.decode, w.play);
          return Outcome(status, ran + piped, hinted);
        case Simple(cmd) =>
          ran := ran + [cmd.AsList()];
          if w.launch(i) == Exited(0) {
            StopIndexIs(cs, w.launch, i);
            return Outcome(0, ran, hinted);
          }
      }
      i := i + 1;
    }
    assert cs[..i] == cs;
    StopIndexIs(cs, w.launch, i);
    return Outcome(1, ran, hinted);
  }

  /** `main`, with the prints left out. */
  method Run(req: Request, w: World) returns (o: Outcome)
    requires Ends(req, w)
    ensures o == MainSpec(req, w)
  {
    if !req.fileExists {
      return Outcome(2, [], false);
    }
    var probes := ProbeRuns(w.installed);
    var cards := CardsText(w);
    var pcms := PcmsText(w);
    if req.listDevices {
      return Outcome(0, probes, false);
    }
    var hinted := false;
    if w.isPi {
      if !GuessPcm5100CardPresent(cards, pcms) {
        hinted := true;
      }
    }
    var cs := BackendCommands(w.installed, req.path, req.device, req.loops);
    if cs == [] {
      return Outcome(127, probes, hinted);
    }
    CandidateOrder(w.installed, req.path, req.device, req.loops);
    o := TryCandidates(cs, req.dryRun, req.loops, w, probes, hinted);
  }

  // ---------------------------------------------------------------------------
  // The exit-status policy

  /**
   * The early exits: a missing file exits 2 before any probing; listing the
   * devices exits 0 after probing; no installed backend exits 127; a dry run
   * exits 0 without launching any backend.  The hint is printed exactly on a
   * Raspberry Pi whose listings show no DAC, once the run gets past listing.
   */
  lemma EarlyExits(req: Request, w: World)
    requires Ends(req, w)
    ensures !req.fileExists ==> MainSpec(req, w) == Outcome(2, [], false)
    ensures req.fileExists && req.listDevices ==> MainSpec(req, w) == Outcome(0, ProbeRuns(w.installed), false)
    ensures MainSpec(req, w).hinted <==>
      req.fileExists && !req.listDevices && w.isPi && !GuessPcm5100CardPresent(CardsText(w), PcmsText(w))
    ensures req.fileExists && !req.listDevices && (forall b :: !Available(w.installed, b)) ==>
      MainSpec(req, w).status == 127 && MainSpec(req, w).ran == ProbeRuns(w.installed)
    ensures req.fileExists && !req.listDevices && req.dryRun && (exists b :: Available(w.installed, b)) ==>
      MainSpec(req, w).status == 0 && MainSpec(req, w).ran == ProbeRuns(w.installed)
  {
    CandidateOrder(w.installed, req.path, req.device, req.loops);
  }

  /** The request gets as far as launching a backend: the file exists, no listing, no dry run. */
  predicate Proceeds(req: Request) {
    req.fileExists && !req.listDevices && !req.dryRun
  }

  lemma StopIndexIs(cs: seq<Candidate>, launch: nat -> Launch, i: nat)
    requires i <= |cs|
    requires i < |cs| ==> Stops(cs, launch, i)
    requires forall j :: 0 <= j < i ==> !Stops(cs, launch, j)
    ensures StopIndex(cs, launch) == i
  {
  }

  /** Only the generator's last candidate can be the pipeline. */
  lemma PipelineIsLast(cs: seq<Candidate>, req: Request, w: World, i: nat)
    requires cs == BackendCommands(w.installed, req.path, req.device, req.loops)
    requires i < |cs| && cs[i].Pipeline?
    ensures i == |cs| - 1
  {
    CandidateOrder(w.installed, req.path, req.device, req.loops);
    RankBounds(cs, i);
  }

  /**
   * The first simple backend that exits 0 ends the search with status 0:
   * every earlier candidate was launched and failed, no later one is launched.
   */
  lemma FirstSuccessWins(req: Request, w: World, i: nat)
    requires Proceeds(req)
    requires i < |BackendCommands(w.installed, req.path, req.device, req.loops)|
    requires BackendCommands(w.installed, req.path, req.device, req.loops)[i].Simple?
    requires w.launch(i) == Exited(0)
    requires forall j :: 0 <= j < i ==> w.launch(j) != Exited(0)
    ensures !ReachesPipeline(req, w)
    ensures MainSpec(req, w).status == 0
    ensures MainSpec(req, w).ran == ProbeRuns(w.installed)
      + SimpleRuns(BackendCommands(w.installed, req.path, req.device, req.loops)[..i + 1])
  {
    var cs := BackendCommands(w.installed, req.path, req.device, req.loops);
    forall j | 0 <= j < i ensures !Stops(cs, w.launch, j) {
      if cs[j].Pipeline? {
        PipelineIsLast(cs, req, w, j);
      }
    }
    StopIndexIs(cs, w.launch, i);
    SimpleRunsStep(cs, i);
  }

  /**
   * Without the pipeline, when every simple backend fails to launch or exits
   * nonzero, each is tried once, in order, and the program exits 1.
   */
  lemma AllFailedExitsOne(req: Request, w: World)
    requires Proceeds(req)
    requires Available(w.installed, Mpg123) || Available(w.installed, Ffplay)
    requires !Available(w.installed, FfmpegAplay)
    requires forall j :: 0 <= j < 2 ==> w.launch(j) != Exited(0)
    ensures !ReachesPipeline(req, w)
    ensures MainSpec(req, w).status == 1
    ensures MainSpec(req, w).ran == ProbeRuns(w.installed)
      + SimpleRuns(BackendCommands(w.installed, req.path, req.device, req.loops))
  {
    var cs := BackendCommands(w.installed, req.path, req.device, req.loops);
    OnlySimpleWithoutPipeline(w.installed, req.path, req.device, req.loops);
    forall j | 0 <= j < |cs| ensures !Stops(cs, w.launch, j) {
      assert cs[j].Simple?;
    }
    StopIndexIs(cs, w.launch, |cs|);
    assert cs[..|cs|] == cs;
  }

  /**
   * When the search reaches the pipeline, the program's status is the
   * runner's, and the runner is given the descriptor's file and device and the
   * requested loop count.
   */
  lemma PipelineStatusPassedThrough(req: Request, w: World)
    requires RunEnds(w.laterInstalled, req.loops, w.decode, w.play)
    requires Proceeds(req)
    requires Available(w.installed, FfmpegAplay)
    requires forall j :: 0 <= j < 2 ==> w.launch(j) != Exited(0)
    ensures MainSpec(req, w).status
      == RunSpec(w.laterInstalled, req.path, DeviceOrDefault(req.device), req.loops,
                 w.tmpDir, w.decode, w.play).status
  {
    var cs := BackendCommands(w.installed, req.path, req.device, req.loops);
    CandidateOrder(w.installed, req.path, req.device, req.loops);
    assert Available(w.installed, FfmpegAplay);
    var k :| 0 <= k < |cs| && BackendOf(cs[k]) == FfmpegAplay;
    assert cs[k] == Build(FfmpegAplay, req.path, req.device, req.loops);
    PipelineIsLast(cs, req, w, k);
    forall j | 0 <= j < k ensures !Stops(cs, w.launch, j) {
      if cs[j].Pipeline? {
        PipelineIsLast(cs, req, w, j);
      }
    }
    StopIndexIs(cs, w.launch, k);
  }

  /**
   * `main` returns 0, 1, 2 or 127, or a status one of the pipeline's child
   * processes returned.
   */
  lemma ExitStatusPolicy(req: Request, w: World)
    requires Ends(req, w)
    ensures var s := MainSpec(req, w).status;
      s == 0 || s == 1 || s == 2 || s == 127 || s == w.decode || exists k: nat :: s == w.play(k)
  {
    if Proceeds(req) {
      var cs := BackendCommands(w.installed, req.path, req.device, req.loops);
      if cs != [] {
        var k := StopIndex(cs, w.launch);
        if k < |cs| && cs[k].Pipeline? {
          var e := RunSpec(w.laterInstalled, cs[k].path, cs[k].device, req.loops, w.tmpDir, w.decode, w.play);
          RunOutcome(w.laterInstalled, cs[k].path, cs[k].device, req.loops, w.tmpDir, w.decode, w.play);
          if |e.ran| >= 2 && e.status != 0 {
            var last: nat := |e.ran| - 2;
            assert e.status == w.play(last);
          }
        }
      }
    }
  }

  /**
   * The decode and aplay statuses matter only once the runner is reached:
   * a run that stops before the pipeline ends the same whatever they are,
   * an endless loop count included.
   */
  lemma ChildStatusesOnlyMatterAtPipeline(req: Request, w: World, decode: int, play: nat -> int)
    requires !ReachesPipeline(req, w)
    ensures !ReachesPipeline(req, w.(decode := decode, play := play))
    ensures MainSpec(req, w.(decode := decode, play := play)) == MainSpec(req, w)
  {
    var w' := w.(decode := decode, play := play);
    assert CardsText(w') == CardsText(w) && PcmsText(w') == PcmsText(w);
  }

  /** On a Raspberry Pi without aplay there is no listing to find a DAC in, so the hint is printed. */
  lemma HintWithoutAplay(req: Request, w: World)
    requires Ends(req, w)
    requires req.fileExists && !req.listDevices && w.isPi && "aplay" !in w.installed
    ensures MainSpec(req, w).hinted
  {
    NoListingNoDac();
  }

  // ---------------------------------------------------------------------------
  // Scenarios

  /** mpg123 is installed and succeeds: it is the only backend launched and the status is 0. */
  lemma PreferredBackendSucceeds(req: Request, w: World)
    requires Proceeds(req) && "mpg123" in w.installed && w.launch(0) == Exited(0)
    ensures !ReachesPipeline(req, w)
    ensures MainSpec(req, w).status == 0
    ensures MainSpec(req, w).ran
      == ProbeRuns(w.installed) + [["mpg123"] + Mpg123Args(req.path, req.device, req.loops)]
  {
    LeadingRun(w.installed, req.path, req.device, req.loops);
    FirstSuccessWins(req, w, 0);
  }

  /** With mpg123 installed, the first command launched is mpg123's. */
  lemma LeadingRun(installed: set<string>, path: string, device: Option<string>, loops: int)
    requires "mpg123" in installed
    ensures |BackendCommands(installed, path, device, loops)| >= 1
    ensures BackendCommands(installed, path, device, loops)[0].Simple?
    ensures SimpleRuns(BackendCommands(installed, path, device, loops)[..1])
      == [["mpg123"] + Mpg123Args(path, device, loops)]
  {
    var cs := BackendCommands(installed, path, device, loops);
    LeadingCandidates(installed, path, device, loops);
    SimpleRunsStep(cs, 0);
    assert cs[..0] == [];
  }

  /** mpg123 exits 1 and ffplay exits 0: both are launched, in that order, and the status is 0. */
  lemma FallsBackToSecondBackend(req: Request, w: World)
    requires Proceeds(req) && "mpg123" in w.installed && "ffplay" in w.installed
    requires w.launch(0) == Exited(1) && w.launch(1) == Exited(0)
    ensures !ReachesPipeline(req, w)
    ensures MainSpec(req, w).status == 0
    ensures MainSpec(req, w).ran == ProbeRuns(w.installed)
      + [["mpg123"] + Mpg123Args(req.path, req.device, req.loops), ["ffplay"] + FfplayArgs(req.path, req.loops)]
  {
    LeadingRuns(w.installed, req.path, req.device, req.loops);
    FirstSuccessWins(req, w, 1);
  }

  /** With mpg123 and ffplay installed, the first two commands launched are theirs. */
  lemma LeadingRuns(installed: set<string>, path: string, device: Option<string>, loops: int)
    requires "mpg123" in installed && "ffplay" in installed
    ensures |BackendCommands(installed, path, device, loops)| >= 2
    ensures BackendCommands(installed, path, device, loops)[1].Simple?
    ensures SimpleRuns(BackendCommands(installed, path, device, loops)[..2])
      == [["mpg123"] + Mpg123Args(path, device, loops), ["ffplay"] + FfplayArgs(path, loops)]
  {
    var cs := BackendCommands(installed, path, device, loops);
    var first := ["mpg123"] + Mpg123Args(path, device, loops);
    var second := ["ffplay"] + FfplayArgs(path, loops);
    LeadingRun(installed, path, device, loops);
    LeadingCandidates(installed, path, device, loops);
    assert cs[1] == Simple(Cmd("ffplay", FfplayArgs(path, loops)));
    assert cs[1].cmd.AsList() == second;
    SimpleRunsStep(cs, 1);
    assert SimpleRuns(cs[..2]) == [first] + [second];
  }

  /**
   * Only ffmpeg and aplay are installed and the decode step exits 5: the
   * program exits 5 and no aplay run is attempted.
   */
  lemma DecodeFailureEndsRun(req: Request, w: World)
    requires Proceeds(req)
    requires "mpg123" !in w.installed && "ffplay" !in w.installed
    requires "ffmpeg" in w.installed && "aplay" in w.installed
    requires "ffmpeg" in w.laterInstalled && "aplay" in w.laterInstalled
    requires w.decode == 5
    ensures Ends(req, w)
    ensures MainSpec(req, w).status == 5
    ensures MainSpec(req, w).ran == ProbeRuns(w.installed) + [DecodeArgv(req.path, w.tmpDir)]
  {
    var cs := BackendCommands(w.installed, req.path, req.device, req.loops);
    CandidateOrder(w.installed, req.path, req.device, req.loops);
    assert Available(w.installed, FfmpegAplay);
    var k :| 0 <= k < |cs| && BackendOf(cs[k]) == FfmpegAplay;
    assert Available(w.installed, BackendOf(cs[0]));
    RankBounds(cs, 0);
    assert |cs| == 1;
    assert cs[0] == Build(FfmpegAplay, req.path, req.device, req.loops);
    StopIndexIs(cs, w.launch, 0);
  }
}
