/**
 * MPdetector's `TfliteHelper`: one interpreter, built on the CPU, and `classify`,
 * which says whether the class-1 score exceeds 0.5, and false whenever there is no
 * interpreter or inference fails.
 */
module MPdetectorTflite {
  import opened Common

  /** How loading the model and building the interpreter ends. */
  datatype Attempt = Succeeds | ThrowsIo | ThrowsOther

  /** What `interpreter.run` does with the prepared image: two class scores, or an exception. */
  datatype Inference = Scores(score0: real, score1: real) | InferenceThrows

  /** The decision threshold on the class-1 score. */
  const Threshold: real := 0.5

  /** The answer of `classify`, given whether an interpreter exists and what inference does. */
  predicate Classification(hasInterpreter: bool, run: Inference)
  {
    hasInterpreter && run.Scores? && run.score1 > Threshold
  }

  /** A positive answer needs an interpreter, a completed inference and a class-1 score above 0.5. */
  lemma ClassificationCases(hasInterpreter: bool, run: Inference)
    ensures !hasInterpreter ==> !Classification(hasInterpreter, run)
    ensures run.InferenceThrows? ==> !Classification(hasInterpreter, run)
    ensures hasInterpreter && run.Scores? ==> (Classification(hasInterpreter, run) <==> run.score1 > 0.5)
  {
  }

  class TfliteHelper {
    var hasInterpreter: bool

    /**
     * The `init` block: an `IOException` leaves the interpreter null; any other
     * exception is not caught and leaves the constructor, which is modelled by the
     * caller, so `load` is not `ThrowsOther` here.
     */
    constructor (load: Attempt)
      requires load != ThrowsOther
      ensures hasInterpreter <==> load == Succeeds
    {
      hasInterpreter := load == Succeeds;
    }

    /** `classify(bitmap)`, with the interpreter's behaviour on the prepared image as `run`. */
    method Classify(run: Inference) returns (positive: bool)
      ensures positive == Classification(hasInterpreter, run)
    {
      if !hasInterpreter {
        return false;
      }
      if run.InferenceThrows? {
        return false;
      }
      positive := run.score1 > Threshold;
    }

    /** `close()`: the interpreter is dropped, so every later `classify` answers false. */
    method Close()
      modifies this
      ensures !hasInterpreter
      ensures forall run :: !Classification(hasInterpreter, run)
    {
      hasInterpreter := false;
    }
  }

  /** `TfliteHelper(context)`: `None` when the constructor throws. */
  method NewTfliteHelper(load: Attempt) returns (helper: Option<TfliteHelper>)
    ensures helper.None? <==> load == ThrowsOther
    ensures helper.Some? ==> fresh(helper.value) && (helper.value.hasInterpreter <==> load == Succeeds)
  {
    if load == ThrowsOther {
      return None;
    }
    var h := new TfliteHelper(load);
    helper := Some(h);
  }
}
