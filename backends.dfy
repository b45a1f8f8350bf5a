/**
 * The playback commands the player can run and the candidate generator
 * `_backend_commands` (play.py:126-161), which lists them in preference
 * order: mpg123, then ffplay, then the ffmpeg-to-WAV-then-aplay pipeline.
 */
module Backends {
  import opened Wrappers
  import opened Decimal

  /** An argument vector as handed to the process launcher, executable first. */
  type Argv = seq<string>

  /** An external command, the `Cmd` record of play.py:35-41. */
  datatype Cmd = Cmd(exe: string, args: seq<string>) {

    /** `Cmd.as_list`: the executable followed by the arguments, unchanged. */
    function AsList(): (argv: Argv)
      ensures |argv| == |args| + 1 && argv[0] == exe && argv[1..] == args
    {
      [exe] + args
    }
  }

  /**
   * One way to play the file.  `Pipeline` stands for the source's
   * `Cmd("__ffmpeg_aplay__", [path, device, str(loops)])` descriptor, which is
   * not a command line but the arguments of the decode-then-play runner.
   */
  datatype Candidate =
    | Simple(cmd: Cmd)
    | Pipeline(path: string, device: string, loopsArg: string)

  datatype Backend = Mpg123 | Ffplay | FfmpegAplay

  /** Where a backend's sound goes. */
  datatype Output = SystemDefault | Named(device: string)

  /** How many times the file is played. */
  datatype PlayCount = Forever | Times(n: nat)

  /** What a backend is told to do: the output, the number of plays, the file. */
  datatype Settings = Settings(output: Output, count: PlayCount, path: string)

  /** Python truthiness of the optional `--device` value: given and non-empty. */
  predicate DeviceGiven(device: Option<string>) {
    device.Some? && device.value != ""
  }

  /** The tools a backend needs are all found on the search path. */
  predicate Available(installed: set<string>, b: Backend) {
    match b
    case Mpg123 => "mpg123" in installed
    case Ffplay => "ffplay" in installed
    case FfmpegAplay => "ffmpeg" in installed && "aplay" in installed
  }

  /** Position of a backend in the preference order. */
  function Rank(b: Backend): (r: nat)
    ensures r <= 2
  {
    match b
    case Mpg123 => 0
    case Ffplay => 1
    case FfmpegAplay => 2
  }

  /** Which backend a generated candidate belongs to. */
  function BackendOf(c: Candidate): Backend {
    match c
    case Pipeline(_, _, _) => FfmpegAplay
    case Simple(cmd) => if cmd.exe == "mpg123" then Mpg123 else Ffplay
  }

  /** The loop count the user asks for: negative loops forever, 0 and 1 play once. */
  function Requested(loops: int): PlayCount {
    if loops < 0 then Forever else if loops <= 1 then Times(1) else Times(loops)
  }

  // ---------------------------------------------------------------------------
  // The generator

  /** mpg123's arguments: `-a DEVICE` if a device is given, the loop flag, the file. */
  function Mpg123Args(path: string, device: Option<string>, loops: int): (args: seq<string>)
    ensures 1 <= |args| <= 5 && args[|args| - 1] == path
  {
    (if DeviceGiven(device) then ["-a", device.value] else [])
    + Mpg123LoopArgs(loops)
    + [path]
  }

  /** mpg123's loop flag: `--loop -1` forever, `--loop N` for N > 1, nothing for one play (play.py:136-139). */
  function Mpg123LoopArgs(loops: int): (flag: seq<string>)
    ensures flag == [] || (|flag| == 2 && flag[0] == "--loop")
  {
    if loops < 0 then ["--loop", "-1"] else if loops > 1 then ["--loop", IntToString(loops)] else []
  }

  const FfplayQuiet: seq<string> := ["-nodisp", "-autoexit", "-loglevel", "error"]

  /** ffplay's arguments: no display, exit at the end, quiet, the loop flag, the file. */
  function FfplayArgs(path: string, loops: int): (args: seq<string>)
    ensures 5 <= |args| <= 7 && args[..4] == FfplayQuiet && args[|args| - 1] == path
  {
    FfplayQuiet
    + FfplayLoopArgs(loops)
    + [path]
  }

  /** ffplay's loop flag: `-loop 0` forever, `-loop N-1` for N > 1, nothing for one play (play.py:148-151). */
  function FfplayLoopArgs(loops: int): (flag: seq<string>)
    ensures flag == [] || (|flag| == 2 && flag[0] == "-loop")
  {
    if loops < 0 then ["-loop", "0"] else if loops > 1 then ["-loop", IntToString(loops - 1)] else []
  }

  /** Python's `device or "default"` (play.py:161). */
  function DeviceOrDefault(device: Option<string>): (d: string)
    ensures d != ""
  {
    if DeviceGiven(device) then device.value else "default"
  }

  /** The candidate of one backend, as the generator builds it. */
  function Build(b: Backend, path: string, device: Option<string>, loops: int): Candidate {
    match b
    case Mpg123 => Simple(Cmd("mpg123", Mpg123Args(path, device, loops)))
    case Ffplay => Simple(Cmd("ffplay", FfplayArgs(path, loops)))
    case FfmpegAplay => Pipeline(path, DeviceOrDefault(device), IntToString(loops))
  }

  /** The preference order of play.py:130-161. */
  const Preference: seq<Backend> := [Mpg123, Ffplay, FfmpegAplay]

  lemma BuildBelongs(b: Backend, path: string, device: Option<string>, loops: int)
    ensures BackendOf(Build(b, path, device, loops)) == b
  {
  }

  /** Ranks strictly increase along the sequence: it follows the preference order, without repeats. */
  predicate InPreferenceOrder(bs: seq<Backend>) {
    forall i, j :: 0 <= i < j < |bs| ==> Rank(bs[i]) < Rank(bs[j])
  }

  lemma HeadRanksFirst(order: seq<Backend>)
    requires InPreferenceOrder(order) && |order| >= 1
    ensures forall b :: b in order[1..] ==> Rank(order[0]) < Rank(b)
  {
    forall b | b in order[1..] ensures Rank(order[0]) < Rank(b) {
      var p :| 0 <= p < |order| - 1 && order[1..][p] == b;
      assert order[p + 1] == b;
    }
  }

  /** The backends of `order` whose tools are installed, in the order of `order`. */
  function AvailableIn(installed: set<string>, order: seq<Backend>): (bs: seq<Backend>)
    requires InPreferenceOrder(order)
    ensures InPreferenceOrder(bs)
    ensures forall b :: b in bs <==> b in order && Available(installed, b)
  {
    if order == [] then []
    else
      var rest := AvailableIn(installed, order[1..]);
      HeadRanksFirst(order);
      assert order == [order[0]] + order[1..];
      if Available(installed, order[0]) then
        var bs := [order[0]] + rest;
        assert forall j :: 0 < j < |bs| ==> bs[j] in rest by {
          forall j | 0 < j < |bs| ensures bs[j] in rest {
            assert bs[j] == rest[j - 1];
          }
        }
        bs
      else rest
  }

  /**
   * `_backend_commands`: one candidate per backend whose tools are installed,
   * in preference order: mpg123, ffplay, then the ffmpeg and aplay pipeline.
   */
  function BackendCommands(installed: set<string>, path: string, device: Option<string>, loops: int)
    : seq<Candidate>
  {
    var bs := AvailableIn(installed, Preference);
    seq(|bs|, i requires 0 <= i < |bs| => Build(bs[i], path, device, loops))
  }

  /**
   * What a candidate list for the installed tools is, independently of how
   * the generator builds it: ordered by preference without repeats, holding
   * exactly the backends whose tools are installed, each built by `Build`.
   */
  ghost predicate IsCandidateList(cs: seq<Candidate>, installed: set<string>,
                                  path: string, device: Option<string>, loops: int)
  {
    && (forall i, j :: 0 <= i < j < |cs| ==> Rank(BackendOf(cs[i])) < Rank(BackendOf(cs[j])))
    && (forall b :: Available(installed, b) <==> exists i :: 0 <= i < |cs| && BackendOf(cs[i]) == b)
    && (forall i :: 0 <= i < |cs| ==> cs[i] == Build(BackendOf(cs[i]), path, device, loops))
  }

  /**
   * The generator's list is a candidate list: in the order mpg123, ffplay,
   * pipeline, each present exactly when its tools are, at most three entries,
   * and empty exactly when no backend's tools are installed.
   */
  lemma CandidateOrder(installed: set<string>, path: string, device: Option<string>, loops: int)
    ensures IsCandidateList(BackendCommands(installed, path, device, loops), installed, path, device, loops)
    ensures |BackendCommands(installed, path, device, loops)| <= 3
    ensures BackendCommands(installed, path, device, loops) == [] <==> forall b :: !Available(installed, b)
  {
    var bs := AvailableIn(installed, Preference);
    var cs := BackendCommands(installed, path, device, loops);
    forall i | 0 <= i < |cs| ensures BackendOf(cs[i]) == bs[i] {
      BuildBelongs(bs[i], path, device, loops);
    }
    forall b: Backend ensures b in Preference {
      assert Preference[Rank(b)] == b;
    }
    forall b | Available(installed, b) ensures exists i :: 0 <= i < |cs| && BackendOf(cs[i]) == b {
      assert b in bs;
      var i :| 0 <= i < |bs| && bs[i] == b;
      assert BackendOf(cs[i]) == b;
    }
    forall i | 0 <= i < |cs| ensures Available(installed, BackendOf(cs[i])) {
      assert bs[i] in bs;
    }
    if |cs| > 0 {
      RankBounds(cs, 0);
    }
  }

  /** Without ffmpeg and aplay the generator yields at most the two simple commands. */
  lemma OnlySimpleWithoutPipeline(installed: set<string>, path: string, device: Option<string>, loops: int)
    requires !Available(installed, FfmpegAplay)
    ensures |BackendCommands(installed, path, device, loops)| <= 2
    ensures forall j :: 0 <= j < |BackendCommands(installed, path, device, loops)| ==>
      BackendCommands(installed, path, device, loops)[j].Simple?
  {
    var cs := BackendCommands(installed, path, device, loops);
    CandidateOrder(installed, path, device, loops);
    forall j | 0 <= j < |cs| ensures cs[j].Simple? {
      assert Available(installed, BackendOf(cs[j]));
    }
    if |cs| == 3 {
      RankBounds(cs, 2);
    }
  }

  /**
   * In a sequence ordered by rank, the entry at index j has rank at least j
   * and leaves room for the entries after it below the top rank 2.
   */
  lemma {:induction false} RankBounds(cs: seq<Candidate>, j: nat)
    requires forall i, k :: 0 <= i < k < |cs| ==> Rank(BackendOf(cs[i])) < Rank(BackendOf(cs[k]))
    requires j < |cs|
    ensures j <= Rank(BackendOf(cs[j])) <= 2 - (|cs| - 1 - j)
  {
    RankAtLeastIndex(cs, j);
    RankLeavesRoom(cs, j);
  }

  lemma {:induction false} RankAtLeastIndex(cs: seq<Candidate>, j: nat)
    requires forall i, k :: 0 <= i < k < |cs| ==> Rank(BackendOf(cs[i])) < Rank(BackendOf(cs[k]))
    requires j < |cs|
    ensures j <= Rank(BackendOf(cs[j]))
    decreases j
  {
    if j > 0 {
      RankAtLeastIndex(cs, j - 1);
    }
  }

  lemma {:induction false} RankLeavesRoom(cs: seq<Candidate>, j: nat)
    requires forall i, k :: 0 <= i < k < |cs| ==> Rank(BackendOf(cs[i])) < Rank(BackendOf(cs[k]))
    requires j < |cs|
    ensures Rank(BackendOf(cs[j])) <= 2 - (|cs| - 1 - j)
    decreases |cs| - j
  {
    if j < |cs| - 1 {
      RankLeavesRoom(cs, j + 1);
    }
  }

  /** With mpg123 installed it comes first; with ffplay installed too, ffplay comes second. */
  lemma LeadingCandidates(installed: set<string>, path: string, device: Option<string>, loops: int)
    requires "mpg123" in installed
    ensures |BackendCommands(installed, path, device, loops)| >= 1
    ensures BackendCommands(installed, path, device, loops)[0] == Build(Mpg123, path, device, loops)
    ensures "ffplay" in installed ==>
      |BackendCommands(installed, path, device, loops)| >= 2
      && BackendCommands(installed, path, device, loops)[1] == Build(Ffplay, path, device, loops)
  {
    var cs := BackendCommands(installed, path, device, loops);
    CandidateOrder(installed, path, device, loops);
    assert Available(installed, Mpg123);
    var m :| 0 <= m < |cs| && BackendOf(cs[m]) == Mpg123;
    RankBounds(cs, m);
    if "ffplay" in installed {
      assert Available(installed, Ffplay);
      var f :| 0 <= f < |cs| && BackendOf(cs[f]) == Ffplay;
      RankBounds(cs, f);
    }
  }

  // ---------------------------------------------------------------------------
  // How each backend reads the arguments it is given

  /**
   * mpg123's reading of an argument list of the shape the player writes: an
   * optional `-a DEVICE`, an optional `--loop N` (N < 0: forever, otherwise N
   * plays), then the file.
   */
  function ReadMpg123(args: seq<string>): Option<Settings> {
    if |args| == 0 then None
    else
      var path := args[|args| - 1];
      var opts := args[..|args| - 1];
      var named := |opts| >= 2 && opts[0] == "-a";
      var output := if named then Named(opts[1]) else SystemDefault;
      match ReadMpg123Loop(if named then opts[2..] else opts)
      case None => None
      case Some(count) => Some(Settings(output, count, path))
  }

  /** The options after the device: none for one play, or `--loop N`. */
  function ReadMpg123Loop(rest: seq<string>): Option<PlayCount> {
    if rest == [] then Some(Times(1))
    else if |rest| == 2 && rest[0] == "--loop" then
      match ParseInt(rest[1])
      case None => None
      case Some(n) => Some(if n < 0 then Forever else Times(n))
    else None
  }

  /**
   * ffplay's reading, under the convention the player assumes for `-loop N`:
   * N = 0 loops forever and N > 0 repeats the file N times after the first
   * play.  ffplay always plays on the system default output.
   */
  function ReadFfplay(args: seq<string>): Option<Settings> {
    if |args| < 5 || args[..4] != FfplayQuiet then None
    else
      var path := args[|args| - 1];
      var rest := args[4..|args| - 1];
      if rest == [] then Some(Settings(SystemDefault, Times(1), path))
      else if |rest| == 2 && rest[0] == "-loop" then
        match ParseInt(rest[1])
        case None => None
        case Some(n) =>
          if n == 0 then Some(Settings(SystemDefault, Forever, path))
          else if n > 0 then Some(Settings(SystemDefault, Times(n + 1), path))
          else None
      else None
  }

  /** aplay gets `-D DEVICE` only for a non-empty device other than "default" (play.py:191-192). */
  function AplayOutput(device: string): Output {
    if device != "" && device != "default" then Named(device) else SystemDefault
  }

  /**
   * What a candidate asks for.  A pipeline descriptor is read the way the
   * runner reads it: the loop count parsed back with `int`, negative meaning
   * forever, otherwise at least one play.
   */
  function ReadCandidate(c: Candidate): Option<Settings> {
    match c
    case Simple(cmd) =>
      if cmd.exe == "mpg123" then ReadMpg123(cmd.args)
      else if cmd.exe == "ffplay" then ReadFfplay(cmd.args)
      else None
    case Pipeline(path, device, loopsArg) =>
      match ParseInt(loopsArg)
      case None => None
      case Some(n) => Some(Settings(AplayOutput(device), Requested(n), path))
  }

  /** The output each backend ends up using for the requested device. */
  function ExpectedOutput(b: Backend, device: Option<string>): Output {
    match b
    case Mpg123 => if DeviceGiven(device) then Named(device.value) else SystemDefault
    case Ffplay => SystemDefault
    case FfmpegAplay => if DeviceGiven(device) then AplayOutput(device.value) else SystemDefault
  }

  // ---------------------------------------------------------------------------
  // Every backend is told what the user asked for

  /** mpg123 is told the given device, the requested play count and the file. */
  lemma Mpg123Honours(path: string, device: Option<string>, loops: int)
    ensures ReadMpg123(Mpg123Args(path, device, loops))
      == Some(Settings(ExpectedOutput(Mpg123, device), Requested(loops), path))
  {
    var dev := if DeviceGiven(device) then ["-a", device.value] else [];
    assert Mpg123Args(path, device, loops) == dev + Mpg123LoopArgs(loops) + [path];
    ReadMpg123Shape(dev, Mpg123LoopArgs(loops), path);
    Mpg123LoopFlag(loops);
  }

  /** mpg123 reads an optional `-a DEVICE`, then the loop options, then the file. */
  lemma ReadMpg123Shape(dev: seq<string>, loop: seq<string>, path: string)
    requires dev == [] || (|dev| == 2 && dev[0] == "-a")
    requires loop == [] || (|loop| == 2 && loop[0] == "--loop")
    ensures ReadMpg123(dev + loop + [path])
      == match ReadMpg123Loop(loop)
         case None => None
         case Some(count) => Some(Settings(if dev == [] then SystemDefault else Named(dev[1]), count, path))
  {
    var opts := dev + loop;
    assert (opts + [path])[..|opts|] == opts;
    if dev != [] {
      assert opts[2..] == loop;
    }
  }

  lemma Mpg123LoopFlag(loops: int)
    ensures ReadMpg123Loop(Mpg123LoopArgs(loops))
      == Some(Requested(loops))
  {
    if loops < 0 {
      IntRoundTrip(-1);
    } else if loops > 1 {
      IntRoundTrip(loops);
    }
  }

  /** ffplay is told the requested play count and the file, on the default output. */
  lemma FfplayHonours(path: string, loops: int)
    ensures ReadFfplay(FfplayArgs(path, loops))
      == Some(Settings(ExpectedOutput(Ffplay, None), Requested(loops), path))
  {
    var args := FfplayArgs(path, loops);
    var loop := FfplayLoopArgs(loops);
    assert args[4..|args| - 1] == loop;
    IntRoundTrip(0);
    IntRoundTrip(loops - 1);
  }

  /**
   * The pipeline descriptor carries the file, `device or "default"` and
   * `str(loops)`, and the runner reads it back as the requested play count.
   */
  lemma PipelineHonours(path: string, device: Option<string>, loops: int)
    ensures Build(FfmpegAplay, path, device, loops).device == (if DeviceGiven(device) then device.value else "default")
    ensures Build(FfmpegAplay, path, device, loops).loopsArg == IntToString(loops)
    ensures ReadCandidate(Build(FfmpegAplay, path, device, loops))
      == Some(Settings(ExpectedOutput(FfmpegAplay, device), Requested(loops), path))
  {
    IntRoundTrip(loops);
  }

  /**
   * Whichever backend is chosen, it is told the requested play count and the
   * file: the loop count means the same thing whether the backend loops
   * natively or the runner loops the player.
   */
  lemma EveryBackendHonoursLoopCount(b: Backend, path: string, device: Option<string>, loops: int)
    ensures ReadCandidate(Build(b, path, device, loops))
      == Some(Settings(ExpectedOutput(b, device), Requested(loops), path))
  {
    match b
    case Mpg123 => Mpg123Honours(path, device, loops);
    case Ffplay => FfplayHonours(path, loops);
    case FfmpegAplay => PipelineHonours(path, device, loops);
  }
}
