/**
 * AnyAICam's `TfliteHelper`: the tongue classifier's interpreter, created with the
 * NNAPI delegate and falling back to the CPU, and `classify`, which answers the
 * index of the best of the model's two class scores, or 2 ("other") when there is
 * no interpreter or inference fails. Inference itself is an input.
 */
module AnyAICamTflite {
  import opened Common

  /** Which interpreter was built. */
  datatype Backend = Nnapi | Cpu

  /** How one attempt to load the model and build an interpreter ends. */
  datatype Attempt = Succeeds | ThrowsIo | ThrowsOther

  /** How the `init` block ends: with an interpreter or none, or by throwing out of the constructor. */
  datatype InitOutcome = Initialized(interpreter: Option<Backend>) | ConstructorThrows

  /** What `interpreter.run` does with the prepared image: two class scores, or an exception. */
  datatype Inference = Scores(score0: real, score1: real) | InferenceThrows

  /** The class code for "other". */
  const OtherClass: int := 2

  /**
   * The `init` block. Any failure of the NNAPI attempt falls back to the CPU; the
   * fallback only catches `IOException`, so any other failure there leaves the
   * constructor.
   */
  function Init(nnapi: Attempt, cpu: Attempt): (r: InitOutcome)
    ensures r == Initialized(Some(Nnapi)) <==> nnapi == Succeeds
    ensures r == Initialized(Some(Cpu)) <==> nnapi != Succeeds && cpu == Succeeds
    ensures r == Initialized(None) <==> nnapi != Succeeds && cpu == ThrowsIo
    ensures r == ConstructorThrows <==> nnapi != Succeeds && cpu == ThrowsOther
  {
    if nnapi == Succeeds then Initialized(Some(Nnapi))
    else match cpu
      case Succeeds => Initialized(Some(Cpu))
      case ThrowsIo => Initialized(None)
      case ThrowsOther => ConstructorThrows
  }

  /**
   * `maxByOrNull` over the indices of `scores`: the first index whose score is not
   * exceeded by any other, `None` for no scores.
   */
  function MaxByOrNull(scores: seq<real>): (r: Option<nat>)
    ensures r.None? <==> scores == []
    ensures r.Some? ==> r.value < |scores|
    ensures r.Some? ==> forall j :: 0 <= j < |scores| ==> scores[j] <= scores[r.value]
    ensures r.Some? ==> forall j :: 0 <= j < r.value ==> scores[j] < scores[r.value]
  {
    if scores == [] then None
    else
      var best := MaxByOrNull(scores[..|scores| - 1]);
      if best.None? || scores[best.value] < scores[|scores| - 1] then Some(|scores| - 1) else best
  }

  /** The class `classify` answers, given the interpreter it finds and what inference does. */
  function Classification(interpreter: Option<Backend>, run: Inference): (c: int)
  {
    if interpreter.None? || run.InferenceThrows? then OtherClass
    else MaxByOrNull([run.score0, run.score1]).GetOr(OtherClass)
  }

  /**
   * `classify` answers 2 exactly when there is no interpreter or inference throws;
   * otherwise the better of the two classes, class 0 on a tie.
   */
  lemma ClassificationCases(interpreter: Option<Backend>, run: Inference)
    ensures Classification(interpreter, run) in {0, 1, 2}
    ensures Classification(interpreter, run) == OtherClass <==> interpreter.None? || run.InferenceThrows?
    ensures interpreter.Some? && run.Scores? ==>
              (Classification(interpreter, run) == 0 <==> run.score0 >= run.score1)
  {
    if interpreter.Some? && run.Scores? {
      var m := MaxByOrNull([run.score0, run.score1]);
      assert m.Some?;
    }
  }

  class TfliteHelper {
    var interpreter: Option<Backend>

    constructor (interpreter: Option<Backend>)
      ensures this.interpreter == interpreter
    {
      this.interpreter := interpreter;
    }

    /** `classify(bitmap)`, with the interpreter's behaviour on the prepared image as `run`. */
    method Classify(run: Inference) returns (c: int)
      ensures c == Classification(interpreter, run)
    {
      if interpreter.None? {
        return OtherClass;
      }
      if run.InferenceThrows? {
        return OtherClass;
      }
      var best := MaxByOrNull([run.score0, run.score1]);
      c := best.GetOr(OtherClass);
    }

    /** `close()`: the interpreter is dropped, so every later `classify` answers 2. */
    method Close()
      modifies this
      ensures interpreter.None?
      ensures forall run :: Classification(interpreter, run) == OtherClass
    {
      interpreter := None;
    }
  }

  /** `TfliteHelper(context)`: `None` when the constructor throws. */
  method NewTfliteHelper(nnapi: Attempt, cpu: Attempt) returns (helper: Option<TfliteHelper>)
    ensures helper.None? <==> Init(nnapi, cpu) == ConstructorThrows
    ensures helper.Some? ==> fresh(helper.value) && Init(nnapi, cpu) == Initialized(helper.value.interpreter)
  {
    var interpreter: Option<Backend> := None;
    if nnapi == Succeeds {
      interpreter := Some(Nnapi);
    } else {
      // fallback to the CPU; only IOException is caught here
      if cpu == ThrowsOther {
        return None;
      }
      if cpu == Succeeds {
        interpreter := Some(Cpu);
      }
    }
    var h := new TfliteHelper(interpreter);
    helper := Some(h);
  }
}
