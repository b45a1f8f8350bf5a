# PCM5100 playback smoke test — backend selection and fallback, in Dafny

`play.py` plays an MP3 file through an I2S DAC on a Raspberry Pi. It delegates
to whichever external player is installed, in a fixed preference order:

1. mpg123, which can be told an ALSA device and a loop count;
2. ffplay, which plays on the system default output and loops natively;
3. a two-stage pipeline: ffmpeg decodes the file to a temporary WAV, and aplay
   plays that WAV on the requested device as many times as asked.

This project models the core of that program:

- the `Cmd` record;
- the DAC-presence heuristic;
- the candidate generator;
- the decode-then-play runner;
- the decision logic of `main`.

It then proves what these promise about their results.

Modules:

- `Wrappers` holds `Option`.
- `Decimal` models Python's `str(int)` and `int(str)` on the numerals the
  program writes. It proves that reading back what was written gives the same
  integer.
- `Probe` models `_guess_pcm5100_card_present` as a predicate. It proves the
  heuristic's shape:
  - it searches each listing separately;
  - it ignores ASCII letter case;
  - it only grows with longer listings;
  - half of its keyword list is redundant.
- `Backends` models the `Cmd` record, a `Candidate` sum type and the generator.
  - `Candidate` is a simple command, or the pipeline descriptor that the source
    marks with the executable name `"__ffmpeg_aplay__"`.
  - The generator returns candidates in preference order, one per backend whose
    tools are installed.
  - For each backend, a reader says how that backend interprets the arguments
    it is given. The lemmas prove that every backend is told the file, the
    device it can use and the requested play count, under each reader.
  - The ffplay reader takes `-loop N` as N repeats after the first play. That
    is the convention the program's "count minus one" flag assumes, and the
    model does not check it against ffplay itself. Under that reading,
    mpg123's `--loop N` and ffplay's `-loop N-1` mean the same number of plays.
- `Pipeline` models the runner as a method with both of its loops. It is
  proved against a ghost function `RunSpec`, which gives the exit status and
  the exact sequence of commands run.
- `Player` models `main` as the method `Run`, with the candidate loop in
  `TryCandidates`. It is proved against a ghost function `MainSpec`. Lemmas
  about `MainSpec` state the exit-status policy and the fallback behaviour.

The environment is a parameter, a `World` value:

- the set of tools found on the search path, once when `main` builds the
  candidates and once when the runner looks again;
- what `aplay -l` and `aplay -L` print;
- whether the host is a Raspberry Pi;
- the temporary directory;
- the outcome of every child process: candidate i's launch result, the decode
  status, and the k-th aplay run's status.

Every outcome records its exit status, every command handed to the process
launcher (in order), and whether the I2S setup hint was printed.

## Model

| member | source | states |
|---|---|---|
| Backends.Cmd.AsList | play.py:40-41 | the argument vector is the executable followed by the arguments, unchanged and in order |
| Decimal.IntToString | play.py:139 | `str(i)` is a numeral: all digits exactly when i >= 0, and starting with a minus sign exactly when i < 0 |
| Decimal.NatToString | play.py:139 | the numeral of a natural number is all digits, starts with '0' only for 0, and has one digit exactly below 10 |
| Decimal.IntRoundTrip | play.py:282 | `int(str(i)) == i` for every integer: the descriptor's loop count reads back unchanged |
| Probe.GuessSplits | play.py:93-106 | the heuristic fires iff some keyword occurs in the lower-cased card listing or in the lower-cased PCM listing; no keyword spans the joining newline |
| Probe.JoinedByNewline | play.py:95 | a newline-free word occurs in `x + "\n" + y` iff it occurs in x or in y |
| Probe.DacInAnyCaseDetected | play.py:95-106 | a listing that mentions "dac" in any ASCII letter case makes the heuristic fire |
| Probe.Monotone | play.py:93-106 | listings that contain the given ones keep a detected DAC detected |
| Probe.KeywordListReduces | play.py:96-106 | the eight keywords find a DAC iff one of "hifiberry", "i2s", "dac", "pcm51" occurs |
| Probe.NoListingNoDac | play.py:79-90 | with aplay missing both listings are empty and the heuristic reports no DAC |
| Backends.Mpg123Args | play.py:132-140 | mpg123's argument list has between one and five entries and ends with the file |
| Backends.FfplayArgs | play.py:147-152 | ffplay's argument list starts with `-nodisp -autoexit -loglevel error` and ends with the file |
| Backends.DeviceOrDefault | play.py:161 | `device or "default"` is never empty |
| Backends.AvailableIn | play.py:130-161 | the backends kept are exactly those of the order whose tools are installed, still in preference order |
| Backends.CandidateOrder | play.py:126-161 | the generator's list follows the order mpg123, ffplay, pipeline without repeats; it holds a backend iff that backend's tools are installed, each built as the source builds it; it has at most three entries; it is empty iff no backend is available |
| Backends.LeadingCandidates | play.py:130-153 | with mpg123 installed its command comes first, and with ffplay installed too, ffplay's comes second |
| Backends.Mpg123LoopArgs | play.py:136-139 | mpg123's loop flag is either absent or the two words `--loop N` |
| Backends.FfplayLoopArgs | play.py:148-151 | ffplay's loop flag is either absent or the two words `-loop N` |
| Backends.ReadMpg123Shape | play.py:132-140 | mpg123 reads `-a DEVICE` as the named output and no `-a` as the system default, then the loop options, then the file |
| Backends.OnlySimpleWithoutPipeline | play.py:155-161 | without ffmpeg and aplay the generator yields at most two candidates, all of them simple commands |
| Backends.Mpg123LoopFlag | play.py:136-139 | mpg123 reads the loop flag the generator writes as the requested play count: forever for a negative count, once for 0 and 1, N plays for N > 1 |
| Backends.Mpg123Honours | play.py:130-141 | mpg123 is told the given device (or none), the requested play count and the file |
| Backends.FfplayHonours | play.py:143-153 | under the assumed reading of `-loop` (0 forever, N extra repeats), ffplay is told the requested play count and the file, on the default output |
| Backends.PipelineHonours | play.py:155-161 | the pipeline descriptor carries the file, `device or "default"` and `str(loops)`, and reads back as the requested device and play count |
| Backends.EveryBackendHonoursLoopCount | play.py:126-161 | whichever backend is built, it is told the same file and the same play count, and the output that backend can use |
| Pipeline.PlayArgvReadsBack | play.py:190-192 | aplay gets `-D device` exactly for a device other than "" and "default", and always plays the decoded WAV |
| Pipeline.PlayLoop | play.py:194-205 | the play loop runs at least once; every run before the last succeeded; a counted loop runs at most max(1, loops) times; a nonzero status is the last run's; the status is 0 iff a counted loop completed max(1, loops) successful runs |
| Pipeline.RunOutcome | play.py:164-205 | missing ffmpeg or aplay gives 127 and runs nothing; otherwise the decode runs first, a nonzero decode status is returned with nothing else run, and every later command is the same aplay command; the infinite mode never returns 0; a nonzero status after playing is the last aplay run's |
| Pipeline.SuccessPlaysRequestedTimes | play.py:200-205 | a successful counted run plays exactly the number of times `Requested(loops)` names |
| Pipeline.RunFfmpegToWavThenAplay | play.py:164-205 | the runner's status and command trace are those of `RunSpec`, whose properties `RunOutcome` states |
| Player.StopIndex | play.py:274-294 | the candidate loop stops at the first candidate that is the pipeline or exits 0, or after all of them |
| Player.TryCandidates | play.py:274-299 | the candidate loop's status and command trace are those of `TrySpec` |
| Player.Run | play.py:242-299 | `main`'s status, command trace and hint are those of `MainSpec`, for every run that returns |
| Player.ChildStatusesOnlyMatterAtPipeline | play.py:274-299 | a run that stops before the pipeline has the same outcome whatever the decode and aplay statuses are, so an endless loop count needs no failing aplay run there |
| Player.EarlyExits | play.py:242-272 | a missing file exits 2 with nothing run; `--list-devices` exits 0 after probing; the hint is printed iff on a Pi whose listings show no DAC; no backend exits 127; a dry run with a backend exits 0 without launching one |
| Player.PipelineIsLast | play.py:155-161 | only the generator's last candidate can be the pipeline |
| Player.FirstSuccessWins | play.py:289-294 | the run does not reach the pipeline, and the first simple backend that exits 0 ends the run with status 0, after every earlier candidate was launched once and none after it |
| Player.AllFailedExitsOne | play.py:289-299 | without the pipeline, when every simple backend fails to launch or exits nonzero, each is launched once in order and the status is 1 |
| Player.PipelineStatusPassedThrough | play.py:275-282 | once the search reaches the pipeline, `main` returns the runner's status, given the file, `device or "default"` and the requested loop count |
| Player.ExitStatusPolicy | play.py:242-299 | the status `main` returns is 0, 1, 2 or 127, or the status of the decode step or of an aplay run |
| Player.HintWithoutAplay | play.py:257-259 | on a Raspberry Pi without aplay, the setup hint is printed |
| Player.PreferredBackendSucceeds | play.py:289-294 | mpg123 installed and succeeding: it is the only backend launched, and the status is 0 |
| Player.LeadingRun | play.py:130-141 | with mpg123 installed, the first command launched is mpg123's |
| Player.LeadingRuns | play.py:130-153 | with mpg123 and ffplay installed, the first two commands launched are mpg123's and then ffplay's |
| Player.FallsBackToSecondBackend | play.py:289-296 | mpg123 exits 1 and ffplay exits 0: both are launched, in that order, and the status is 0 |
| Player.DecodeFailureEndsRun | play.py:186-188 | only the pipeline is available and the decode exits 5: the status is 5 and no aplay run happens |

## Left out

- Tool lookup (`shutil.which`) is a set of tool names. Each command's executable is the bare tool name, not the absolute path `which` returns.
- `_run_capture`, `_read_text_if_exists` and `_is_raspberry_pi` read files and run processes. The Pi check is a boolean in the environment. The two listings are strings in the environment and count as probing runs only when aplay is installed.
- `Probe.GuessPcm5100CardPresent`: lower-casing folds only ASCII letters. Python's `str.lower` also folds other scripts, which no keyword uses.
- `Cmd.pretty` (shlex quoting) and every message printed are left out. This includes the device listing text, the I2S setup hint, the "not found" and "all failed" messages, and the dry-run lines. Only whether the hint is printed is recorded.
- Argument parsing and path resolution (`argparse`, `expanduser().resolve()`) are left out. The request holds the resolved path, whether it exists, the optional device, the loop count and the two flags.
- `Decimal.ParseInt` accepts only an optional minus sign followed by digits, the forms `str(int)` writes. Python's `int` also accepts surrounding whitespace, `+` and underscores, which never reach it here.
- `Pipeline.RunFfmpegToWavThenAplay`: when both tools are found, the decode succeeds and the loop count is negative, it requires that some aplay run eventually fails. Without such a run the source loops forever, and that non-terminating run is not modelled.
- `Player.Run`: it carries that requirement only for a run whose candidate search reaches the pipeline. Runs that stop earlier need nothing of the aplay statuses.
- `Backends.FfplayHonours`: ffplay's reading of `-loop` is assumed, not checked. ffplay's own manual describes `-loop N` as N plays in total. Under that reading, a count N > 1 would give N-1 plays.
- `Player.TryCandidates`: it requires every pipeline descriptor to carry `str(loops)`, as the generator always writes it. The `ValueError` that `int(loops_arg)` would raise on any other text is therefore not modelled.
- The temporary directory is a parameter. Its creation with the `pcm5100_test_` prefix and its removal on every exit path are not modelled.
- A `FileNotFoundError` from launching a listing command is not modelled. A `FileNotFoundError` from launching a simple backend is modelled as the `NotFound` launch result.
- The runner launches ffmpeg and aplay (play.py:186, 197, 202) outside any `try`. If either tool disappears after the lookup at play.py:165-166, the exception escapes `main`: Python prints a traceback and the process exits 1. The model gives every one of these launches an exit status, so this uncaught-error path is not modelled.
- The model describes the value `main` returns. `raise SystemExit(main())` (play.py:303) hands it to the operating system, which truncates it to 8 bits; a negative child status, from a signal, shows up as 256 plus that status.
- The child processes' audio output, timing and the lack of timeouts are outside the model. A hung process cannot be expressed.
