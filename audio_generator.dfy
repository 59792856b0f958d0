/** The text-to-speech back end with its dependency check: probing for espeak,
    the installation hint per platform, and `generate_audio_file`. */
module AudioGenerator {
  import opened Wrappers
  import opened Text
  import opened Speech

  // ---------------------------------------------------------------------
  // check_espeak
  // ---------------------------------------------------------------------

  const ProbeEspeak: Effect := Launch(["espeak", "--version"])
  const ProbeEspeakNg: Effect := Launch(["espeak-ng", "--version"])

  /** `check_espeak()`: espeak is found when launching it does not raise
      FileNotFoundError (its exit status is not looked at); only then is
      espeak-ng tried. Any other exception propagates. Gives the answer and
      the calls made after `history`. */
  function CheckEspeak(host: Host, history: seq<Effect>): (r: (Result<bool, Exc>, seq<Effect>))
    ensures r.0 == Success(true) <==>
              host(history, ProbeEspeak).Success?
              || (host(history, ProbeEspeak) == Failure(FileNotFound)
                  && host(history + [ProbeEspeak], ProbeEspeakNg).Success?)
    ensures r.0 == Success(false) <==>
              host(history, ProbeEspeak) == Failure(FileNotFound)
              && host(history + [ProbeEspeak], ProbeEspeakNg) == Failure(FileNotFound)
    ensures r.0.Failure? ==> r.0.error != FileNotFound
    ensures r.1 == history + [ProbeEspeak] + (if host(history, ProbeEspeak) == Failure(FileNotFound) then [ProbeEspeakNg] else [])
  {
    var first := history + [ProbeEspeak];
    match host(history, ProbeEspeak)
    case Success(_) => (Success(true), first)
    case Failure(FileNotFound) =>
      (match host(first, ProbeEspeakNg)
       case Success(_) => Success(true)
       case Failure(FileNotFound) => Success(false)
       case Failure(e) => Failure(e),
       first + [ProbeEspeakNg])
    case Failure(e) => (Failure(e), first)
  }

  // ---------------------------------------------------------------------
  // install_instructions
  // ---------------------------------------------------------------------

  const LinuxHint: string := "Install espeak with: sudo apt-get install espeak"
  const MacHint: string := "Install espeak with: brew install espeak"
  const WindowsHint: string := "Download and install espeak from http://espeak.sourceforge.net/download.html"
  const DefaultHint: string := "Please install espeak for your platform"

  /** `install_instructions()` for the platform name `system`, compared in
      lower case. */
  function InstallInstructions(system: string): (r: string)
    ensures r == LinuxHint <==> AsciiLower(system) == "linux"
    ensures r == MacHint <==> AsciiLower(system) == "darwin"
    ensures r == WindowsHint <==> AsciiLower(system) == "windows"
    ensures r == DefaultHint <==> AsciiLower(system) !in {"linux", "darwin", "windows"}
  {
    var s := AsciiLower(system);
    if s == "linux" then LinuxHint
    else if s == "darwin" then MacHint
    else if s == "windows" then WindowsHint
    else DefaultHint
  }

  /** Lowering twice changes nothing more. */
  lemma AsciiLowerIdempotent(s: string)
    ensures AsciiLower(AsciiLower(s)) == AsciiLower(s)
  {
    var l := AsciiLower(s);
    forall i | 0 <= i < |l| ensures AsciiLower(l)[i] == l[i] {
      assert !('A' <= l[i] <= 'Z');
    }
  }

  /** The platform name's letter case makes no difference. */
  lemma InstructionsIgnoreCase(system: string)
    ensures InstallInstructions(system) == InstallInstructions(AsciiLower(system))
  {
    AsciiLowerIdempotent(system);
  }

  // ---------------------------------------------------------------------
  // generate_audio_file
  // ---------------------------------------------------------------------

  /** The RuntimeError message when neither espeak nor espeak-ng is found. */
  function MissingDependency(system: string): string {
    "Missing dependency: espeak not found. " + InstallInstructions(system)
  }

  /** The text handed to synthesis: flattened, and cut to 2000 characters with
      `...` appended when longer. */
  function SpeechText(text: string): (r: string)
    ensures |r| <= SpeechLimit + 3
    ensures IsTrimmed(r, IsPySpace)
    ensures '\n' !in r
  {
    var c := Flatten(text);
    FlattenOneLine(text);
    if |c| > SpeechLimit then
      PrefixOneLine(c, SpeechLimit);
      EllipsisKeepsShape(c[..SpeechLimit]);
      c[..SpeechLimit] + "..."
    else c
  }

  lemma EllipsisKeepsShape(p: string)
    requires p != [] && !IsPySpace(p[0]) && '\n' !in p
    ensures IsTrimmed(p + "...", IsPySpace) && '\n' !in p + "..."
  {
    var r := p + "...";
    assert r[0] == p[0] && r[|r| - 1] == '.';
    forall i | 0 <= i < |r| ensures r[i] != '\n' {
      if i < |p| { assert r[i] == p[i]; } else { assert r[i] == '.'; }
    }
  }

  /** `generate_audio_file(text, output_path)` on platform `system`: the
      dependency check, then the parent directory, the speech model and the
      synthesis, each re-raising what the host raises. Gives the result and
      the calls made after `history`. */
  function GenerateAudioFile(text: string, outputPath: string, system: string, host: Host, history: seq<Effect>): (Result<bool, Exc>, seq<Effect>) {
    var (found, h1) := CheckEspeak(host, history);
    if found.Failure? then (Failure(found.error), h1)
    else if !found.value then (Failure(Runtime(MissingDependency(system))), h1)
    else
      var (r, h) := RunSteps(host, h1, SpeechSteps(SpeechText(text), outputPath));
      (if r.Success? then Success(true) else Failure(r.error), h)
  }

  /** Without espeak the call raises the RuntimeError naming the dependency and
      the platform's hint, having only probed: no directory is made and the
      speech model is not touched. */
  lemma MissingEspeakRaisesFirst(text: string, outputPath: string, system: string, host: Host, history: seq<Effect>)
    requires CheckEspeak(host, history).0 == Success(false)
    ensures GenerateAudioFile(text, outputPath, system, host, history)
            == (Failure(Runtime(MissingDependency(system))), history + [ProbeEspeak, ProbeEspeakNg])
    ensures forall e :: e in GenerateAudioFile(text, outputPath, system, host, history).1[|history|..] ==> e.Launch?
  {
    var trace := history + [ProbeEspeak, ProbeEspeakNg];
    assert history + [ProbeEspeak] + [ProbeEspeakNg] == trace;
    assert trace[|history|..] == [ProbeEspeak, ProbeEspeakNg];
  }

  /** A successful call made the directory, loaded the model and synthesized
      the prepared text to the output path, in that order, after the probes. */
  lemma GeneratedInOrder(text: string, outputPath: string, system: string, host: Host, history: seq<Effect>)
    requires GenerateAudioFile(text, outputPath, system, host, history).0.Success?
    ensures GenerateAudioFile(text, outputPath, system, host, history).0 == Success(true)
    ensures GenerateAudioFile(text, outputPath, system, host, history).1
            == CheckEspeak(host, history).1 + SpeechSteps(SpeechText(text), outputPath)
  {
    RunStepsSucceeded(host, CheckEspeak(host, history).1, SpeechSteps(SpeechText(text), outputPath));
  }

  /** Every exception other than the missing-dependency error is the one the
      host raised on the last call made: nothing is swallowed or replaced. */
  lemma FailuresReraised(text: string, outputPath: string, system: string, host: Host, history: seq<Effect>)
    requires GenerateAudioFile(text, outputPath, system, host, history).0.Failure?
    requires CheckEspeak(host, history).0 != Success(false)
    ensures var (r, trace) := GenerateAudioFile(text, outputPath, system, host, history);
            LastCallRaised(host, history, trace, r.error)
  {
    if CheckEspeak(host, history).0.Failure? {
      CheckEspeakReraises(host, history);
    } else {
      var h1 := CheckEspeak(host, history).1;
      GenerateAfterCheck(text, outputPath, system, host, history);
      RunStepsReraises(host, h1, SpeechSteps(SpeechText(text), outputPath));
      LastCallRaisedAfter(host, history, h1, GenerateAudioFile(text, outputPath, system, host, history).1,
                          GenerateAudioFile(text, outputPath, system, host, history).0.error);
    }
  }

  lemma GenerateAfterCheck(text: string, outputPath: string, system: string, host: Host, history: seq<Effect>)
    requires CheckEspeak(host, history).0 == Success(true)
    ensures var run := RunSteps(host, CheckEspeak(host, history).1, SpeechSteps(SpeechText(text), outputPath));
            && GenerateAudioFile(text, outputPath, system, host, history).1 == run.1
            && (GenerateAudioFile(text, outputPath, system, host, history).0.Failure? ==>
                  run.0.Failure? && GenerateAudioFile(text, outputPath, system, host, history).0.error == run.0.error)
    ensures |CheckEspeak(host, history).1| > |history|
  {
  }

  /** The probe that raised anything but FileNotFoundError is the last call made. */
  lemma CheckEspeakReraises(host: Host, history: seq<Effect>)
    requires CheckEspeak(host, history).0.Failure?
    ensures LastCallRaised(host, history, CheckEspeak(host, history).1, CheckEspeak(host, history).0.error)
  {
    LastCall(history, ProbeEspeak);
    LastCall(history + [ProbeEspeak], ProbeEspeakNg);
  }

  /** With more than 2000 characters after flattening, the first 2000 are kept
      and `...` marks the cut; shorter text is kept whole. */
  lemma SpeechTextCut(text: string)
    ensures |Flatten(text)| <= SpeechLimit ==> SpeechText(text) == Flatten(text)
    ensures |Flatten(text)| > SpeechLimit ==>
              |SpeechText(text)| == SpeechLimit + 3
              && SpeechText(text)[..SpeechLimit] == Flatten(text)[..SpeechLimit]
              && SpeechText(text)[SpeechLimit..] == "..."
  {
  }
}
