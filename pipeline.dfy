/**
 * The decode-then-play backend `_run_ffmpeg_to_wav_then_aplay`
 * (play.py:164-205): decode the file once to a temporary WAV with ffmpeg,
 * then play it with aplay once, N times, or until a play fails.
 *
 * Child processes are not run: the decode step's exit status is the
 * parameter `decode` and the k-th aplay run (counting from 0) exits with
 * `play(k)`.
 */
module Pipeline {
  import opened Backends

  /** The least k < n with p(k), or n when there is none. */
  function FirstWhere(p: nat -> bool, n: nat): (k: nat)
    ensures k <= n
    ensures k < n ==> p(k)
    ensures forall j :: 0 <= j < k ==> !p(j)
  {
    if n == 0 then 0
    else
      var k := FirstWhere(p, n - 1);
      if k < n - 1 then k else if p(n - 1) then n - 1 else n
  }

  /** Some aplay run eventually fails; only then does the endless mode stop. */
  ghost predicate EventuallyFails(play: nat -> int) {
    exists k: nat :: play(k) != 0
  }

  /**
   * The runner returns: the tools are missing, the decode step fails, the
   * loop is counted, or some aplay run fails.  Only the endless loop with
   * every play succeeding never returns.
   */
  ghost predicate RunEnds(installed: set<string>, loops: int, decode: int, play: nat -> int) {
    !("ffmpeg" in installed && "aplay" in installed) || decode != 0 || loops >= 0 || EventuallyFails(play)
  }

  /** `max(1, loops)`: the number of plays of the counted mode. */
  function Max1(loops: int): nat {
    if loops > 1 then loops else 1
  }

  /** `Path(td) / "decoded.wav"`. */
  function WavPath(tmpDir: string): string {
    tmpDir + "/decoded.wav"
  }

  /** The ffmpeg command: decode to 2-channel 44100 Hz WAV in the temporary directory. */
  function DecodeArgv(path: string, tmpDir: string): Argv {
    ["ffmpeg", "-hide_banner", "-loglevel", "error", "-y", "-i", path,
     "-ac", "2", "-ar", "44100", WavPath(tmpDir)]
  }

  /** The aplay command, `-D DEVICE` only for a device other than "" and "default". */
  function PlayArgv(device: string, tmpDir: string): Argv {
    ["aplay"] + (if device != "" && device != "default" then ["-D", device] else []) + [WavPath(tmpDir)]
  }

  /** aplay's reading of the command lines the runner writes: the output and the file. */
  function ReadAplay(argv: Argv): (Output, string) {
    if |argv| == 4 && argv[1] == "-D" then (Named(argv[2]), argv[3])
    else if |argv| >= 1 then (SystemDefault, argv[|argv| - 1])
    else (SystemDefault, "")
  }

  /** Every aplay run plays the decoded file on the output the descriptor's device names. */
  lemma PlayArgvReadsBack(device: string, tmpDir: string)
    ensures PlayArgv(device, tmpDir)[0] == "aplay"
    ensures ReadAplay(PlayArgv(device, tmpDir)) == (AplayOutput(device), WavPath(tmpDir))
  {
  }

  function Repeat(argv: Argv, n: nat): (r: seq<Argv>)
    ensures |r| == n && forall i :: 0 <= i < n ==> r[i] == argv
  {
    if n == 0 then [] else Repeat(argv, n - 1) + [argv]
  }

  /** How the play loop ends: its exit status and the number of aplay runs. */
  datatype Plays = Plays(status: int, count: nat)

  /**
   * The play loop of play.py:194-205.  With loops >= 0 it plays at most
   * max(1, loops) times and stops at the first failing run; with loops < 0 it
   * plays until a run fails.
   */
  ghost function PlayLoop(loops: int, play: nat -> int): (r: Plays)
    requires loops >= 0 || EventuallyFails(play)
    ensures 1 <= r.count
    ensures forall j :: 0 <= j < r.count - 1 ==> play(j) == 0
    ensures loops >= 0 ==> r.count <= Max1(loops)
    ensures r.status != 0 ==> r.status == play(r.count - 1)
    ensures r.status == 0 <==> loops >= 0 && r.count == Max1(loops) && play(r.count - 1) == 0
  {
    var bound := if loops >= 0 then Max1(loops) else var w: nat :| play(w) != 0; w + 1;
    var fails := (j: nat) => play(j) != 0;
    var k := FirstWhere(fails, bound);
    assert forall j :: 0 <= j < k ==> play(j) == 0 by {
      forall j | 0 <= j < k ensures play(j) == 0 {
        assert !fails(j);
      }
    }
    if k < bound then Plays(play(k), k + 1) else Plays(0, bound)
  }

  /** A run that stops as `PlayLoop` describes is the run `PlayLoop` describes. */
  lemma PlayLoopDetermined(loops: int, play: nat -> int, r: Plays)
    requires loops >= 0 || EventuallyFails(play)
    requires 1 <= r.count
    requires forall j :: 0 <= j < r.count - 1 ==> play(j) == 0
    requires loops >= 0 ==> r.count <= Max1(loops)
    requires r.status != 0 ==> r.status == play(r.count - 1)
    requires r.status == 0 <==> loops >= 0 && r.count == Max1(loops) && play(r.count - 1) == 0
    ensures PlayLoop(loops, play) == r
  {
  }

  /** The result of the runner: its exit status and the commands it ran, in order. */
  datatype Exec = Exec(status: int, ran: seq<Argv>)

  /**
   * `_run_ffmpeg_to_wav_then_aplay` as a function of the tools found and the
   * exit statuses of the child processes.
   */
  ghost function RunSpec(installed: set<string>, path: string, device: string, loops: int,
                         tmpDir: string, decode: int, play: nat -> int): Exec
    requires RunEnds(installed, loops, decode, play)
  {
    if !("ffmpeg" in installed && "aplay" in installed) then Exec(127, [])
    else if decode != 0 then Exec(decode, [DecodeArgv(path, tmpDir)])
    else
      var p := PlayLoop(loops, play);
      Exec(p.status, [DecodeArgv(path, tmpDir)] + Repeat(PlayArgv(device, tmpDir), p.count))
  }

  /**
   * What the runner does: 127 with nothing run when a tool is missing;
   * otherwise the decode first, its nonzero status returned at once, then
   * only aplay runs of the decoded file, at most max(1, loops) of them when
   * counted, all of them on success; the endless mode never returns 0, and a
   * nonzero status after playing is the last aplay run's.
   */
  lemma RunOutcome(installed: set<string>, path: string, device: string, loops: int,
                   tmpDir: string, decode: int, play: nat -> int)
    requires RunEnds(installed, loops, decode, play)
    ensures var e := RunSpec(installed, path, device, loops, tmpDir, decode, play);
      && (!("ffmpeg" in installed && "aplay" in installed) ==> e == Exec(127, []))
      && ("ffmpeg" in installed && "aplay" in installed ==>
            |e.ran| >= 1 && e.ran[0] == DecodeArgv(path, tmpDir))
      && (decode != 0 && "ffmpeg" in installed && "aplay" in installed ==>
            e == Exec(decode, [DecodeArgv(path, tmpDir)]))
      && (forall i :: 1 <= i < |e.ran| ==> e.ran[i] == PlayArgv(device, tmpDir))
      && (loops >= 0 ==> |e.ran| <= 1 + Max1(loops))
      && (e.status == 0 ==> loops >= 0 && |e.ran| == 1 + Max1(loops))
      && (loops < 0 && "ffmpeg" in installed && "aplay" in installed ==> e.status != 0)
      && (|e.ran| >= 2 && e.status != 0 ==> e.status == play(|e.ran| - 2))
  {
  }

  /**
   * A successful counted run plays exactly the requested number of times, so
   * the pipeline honours the loop count as `Requested` reads it.
   */
  lemma SuccessPlaysRequestedTimes(installed: set<string>, path: string, device: string, loops: int,
                                   tmpDir: string, decode: int, play: nat -> int)
    requires loops >= 0
    requires RunSpec(installed, path, device, loops, tmpDir, decode, play).status == 0
    ensures Requested(loops) == Times(|RunSpec(installed, path, device, loops, tmpDir, decode, play).ran| - 1)
  {
    RunOutcome(installed, path, device, loops, tmpDir, decode, play);
  }

  /**
   * The runner.  The temporary directory is the parameter `tmpDir`; its
   * removal on every return path is not modelled.
   */
  method RunFfmpegToWavThenAplay(installed: set<string>, path: string, device: string, loops: int,
                                 tmpDir: string, decode: int, play: nat -> int)
    returns (status: int, ran: seq<Argv>)
    requires RunEnds(installed, loops, decode, play)
    ensures Exec(status, ran) == RunSpec(installed, path, device, loops, tmpDir, decode, play)
  {
    if !("ffmpeg" in installed) || !("aplay" in installed) {
      return 127, [];
    }
    var decodeArgv := DecodeArgv(path, tmpDir);
    ran := [decodeArgv];
    if decode != 0 {
      return decode, ran;
    }
    var playArgv := PlayArgv(device, tmpDir);
    if loops < 0 {
      ghost var w: nat :| play(w) != 0;
      var i: nat := 0;
      while true
        invariant i <= w
        invariant forall j :: 0 <= j < i ==> play(j) == 0
        invariant ran == [decodeArgv] + Repeat(playArgv, i)
        decreases w - i
      {
        ran := ran + [playArgv];
        if play(i) != 0 {
          PlayLoopDetermined(loops, play, Plays(play(i), i + 1));
          return play(i), ran;
        }
        i := i + 1;
      }
    } else {
      var n := if loops > 1 then loops else 1;
      var i: nat := 0;
      while i < n
        invariant i <= n
        invariant forall j :: 0 <= j < i ==> play(j) == 0
        invariant ran == [decodeArgv] + Repeat(playArgv, i)
      {
        ran := ran + [playArgv];
        if play(i) != 0 {
          PlayLoopDetermined(loops, play, Plays(play(i), i + 1));
          return play(i), ran;
        }
        i := i + 1;
      }
      PlayLoopDetermined(loops, play, Plays(0, n));
      return 0, ran;
    }
  }
}
