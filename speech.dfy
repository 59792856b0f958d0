/** What the two speech back ends share: the host calls they make, the
    exceptions those calls raise, and the flattening of text before synthesis. */
module Speech {
  import opened Wrappers
  import opened Text

  /** The Python exceptions the host calls raise. */
  datatype Exc =
    | FileNotFound                        // FileNotFoundError: a program to launch does not exist
    | ImportFailed                        // ImportError: the TTS package cannot be imported
    | Runtime(message: string)            // RuntimeError
    | OtherExc(name: string, message: string)

  /** A call into the host. */
  datatype Effect =
    | Launch(argv: seq<string>)            // `subprocess.run(argv, check=False)`
    | MakeParents(path: string)            // `Path(path).parent.mkdir(exist_ok=True, parents=True)`
    | LoadTts(model: string, gpu: bool)    // `from TTS.api import TTS` and `TTS(model_name=model, gpu=gpu)`
    | Synthesize(text: string, path: string)  // `tts.tts_to_file(text=text, file_path=path)`

  /** The host: whether each call returns or raises, given the calls before it. */
  type Host = (seq<Effect>, Effect) -> Result<(), Exc>

  /** Makes the host calls `steps` in order after `history`, stopping at the
      first that raises and re-raising it. Gives the outcome and the calls made. */
  function RunSteps(host: Host, history: seq<Effect>, steps: seq<Effect>): (Result<(), Exc>, seq<Effect>)
    decreases |steps|
  {
    if steps == [] then (Success(()), history)
    else
      match host(history, steps[0])
      case Failure(e) => (Failure(e), history + [steps[0]])
      case Success(_) => RunSteps(host, history + [steps[0]], steps[1..])
  }

  /** On success every step was made, in order, and nothing else. */
  lemma {:induction false} RunStepsSucceeded(host: Host, history: seq<Effect>, steps: seq<Effect>)
    requires RunSteps(host, history, steps).0.Success?
    ensures RunSteps(host, history, steps).1 == history + steps
    decreases |steps|
  {
    if steps != [] {
      RunStepsSucceeded(host, history + [steps[0]], steps[1..]);
      assert history + [steps[0]] + steps[1..] == history + steps;
    }
  }

  /** On failure the calls made are the steps up to and including one that
      raised, each earlier step having returned; what is raised is what that
      step raised. */
  lemma {:induction false} RunStepsFailed(host: Host, history: seq<Effect>, steps: seq<Effect>) returns (k: nat)
    requires RunSteps(host, history, steps).0.Failure?
    ensures k < |steps|
    ensures RunSteps(host, history, steps).1 == history + steps[..k + 1]
    ensures host(history + steps[..k], steps[k]) == Failure(RunSteps(host, history, steps).0.error)
    ensures forall j :: 0 <= j < k ==> host(history + steps[..j], steps[j]).Success?
    decreases |steps|
  {
    assert history + steps[..0] == history;
    if host(history, steps[0]).Failure? {
      k := 0;
    } else {
      var h := history + [steps[0]];
      var k1 := RunStepsFailed(host, h, steps[1..]);
      k := k1 + 1;
      ShiftPrefix(history, steps, k);
      ShiftPrefix(history, steps, k + 1);
      forall j | 0 <= j < k ensures host(history + steps[..j], steps[j]).Success? {
        if j > 0 {
          ShiftPrefix(history, steps, j);
          assert steps[j] == steps[1..][j - 1];
        }
      }
    }
  }

  /** `trace` extends `history`, and its last call raised `e` on the calls before it. */
  predicate LastCallRaised(host: Host, history: seq<Effect>, trace: seq<Effect>, e: Exc) {
    |trace| > |history| && host(trace[..|trace| - 1], trace[|trace| - 1]) == Failure(e)
  }

  lemma LastCallRaisedAfter(host: Host, h0: seq<Effect>, h1: seq<Effect>, trace: seq<Effect>, e: Exc)
    requires LastCallRaised(host, h1, trace, e) && |h0| <= |h1|
    ensures LastCallRaised(host, h0, trace, e)
  {
  }

  /** A failure is what the host raised on the last call made. */
  lemma RunStepsReraises(host: Host, history: seq<Effect>, steps: seq<Effect>)
    requires RunSteps(host, history, steps).0.Failure?
    ensures LastCallRaised(host, history, RunSteps(host, history, steps).1, RunSteps(host, history, steps).0.error)
  {
    var k := RunStepsFailed(host, history, steps);
    LastCall(history + steps[..k], steps[k]);
    assert history + steps[..k + 1] == history + steps[..k] + [steps[k]];
  }

  lemma LastCall(h: seq<Effect>, x: Effect)
    ensures (h + [x])[..|h + [x]| - 1] == h && (h + [x])[|h + [x]| - 1] == x
  {
  }

  lemma ShiftPrefix(history: seq<Effect>, steps: seq<Effect>, j: nat)
    requires 0 < j <= |steps|
    ensures history + steps[..j] == history + [steps[0]] + steps[1..][..j - 1]
  {
    assert steps[..j] == [steps[0]] + steps[1..][..j - 1];
  }

  /** The speech model both back ends load. */
  const TtsModel: string := "tts_models/en/ljspeech/vits"

  /** The calls both back ends make to write `text` as speech to `path`: the
      parent directory, the speech model on the CPU, then the synthesis. */
  function SpeechSteps(text: string, path: string): seq<Effect> {
    [MakeParents(path), LoadTts(TtsModel, false), Synthesize(text, path)]
  }

  /** The longest text, in characters, handed to synthesis before any ellipsis. */
  const SpeechLimit: nat := 2000

  /** `text.replace('\n', ' ').strip()`: line breaks become spaces, then the
      ends are stripped. */
  function Flatten(text: string): (r: string)
    ensures IsTrimmed(r, IsPySpace)
  {
    PyStrip(ReplaceChar(text, '\n', ' '))
  }

  /** Flattened text is on one line. */
  lemma FlattenOneLine(text: string)
    ensures '\n' !in Flatten(text)
  {
    ReplaceCharRemoves(text, '\n', ' ');
    TrimOneLine(ReplaceChar(text, '\n', ' '), IsPySpace);
  }
}
