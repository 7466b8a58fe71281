/**
 * `ProcessorRepository`: loads each declared processor class by reflection, in
 * declaration order, skips a class that fails to load, and caches the list on the
 * first call, failures included. Whether each class loads is an input.
 */
module Registry {
  import opened Common
  import opened Processors

  /** The class names whose load succeeded, in declaration order. */
  function Loaded(classNames: seq<string>, loads: seq<bool>): (r: seq<string>)
    requires |loads| == |classNames|
    ensures |r| <= |classNames|
  {
    if classNames == [] then []
    else
      var n := |classNames| - 1;
      Loaded(classNames[..n], loads[..n]) + (if loads[n] then [classNames[n]] else [])
  }

  /**
   * A class is in the result iff some successful load declared it: a failure drops
   * only its own class. The result is a subsequence of the declared list.
   */
  lemma {:induction false} LoadedExact(classNames: seq<string>, loads: seq<bool>, c: string)
    requires |loads| == |classNames|
    ensures c in Loaded(classNames, loads) <==> exists i :: 0 <= i < |classNames| && classNames[i] == c && loads[i]
    ensures forall d :: d in Loaded(classNames, loads) ==> d in classNames
  {
    if classNames != [] {
      var n := |classNames| - 1;
      LoadedExact(classNames[..n], loads[..n], c);
      if c in Loaded(classNames, loads) && c !in Loaded(classNames[..n], loads[..n]) {
        assert classNames[n] == c && loads[n];
      }
      if exists i :: 0 <= i < |classNames| && classNames[i] == c && loads[i] {
        var i :| 0 <= i < |classNames| && classNames[i] == c && loads[i];
        if i < n {
          assert classNames[..n][i] == c && loads[..n][i];
        }
      }
    }
  }

  /** When every class loads, the result is the declared list itself. */
  lemma {:induction false} AllLoaded(classNames: seq<string>, loads: seq<bool>)
    requires |loads| == |classNames| && forall i :: 0 <= i < |loads| ==> loads[i]
    ensures Loaded(classNames, loads) == classNames
  {
    if classNames != [] {
      var n := |classNames| - 1;
      AllLoaded(classNames[..n], loads[..n]);
      assert classNames[..n] + [classNames[n]] == classNames;
    }
  }

  /** Loading one more class appends it exactly when it loads. */
  lemma LoadedStep(classNames: seq<string>, loads: seq<bool>, i: nat)
    requires |loads| == |classNames| && i < |classNames|
    ensures Loaded(classNames[..i + 1], loads[..i + 1])
            == Loaded(classNames[..i], loads[..i]) + (if loads[i] then [classNames[i]] else [])
  {
    assert classNames[..i + 1][..i] == classNames[..i];
    assert loads[..i + 1][..i] == loads[..i];
  }

  class ProcessorRepository {
    const processorClassNames: seq<string>
    var cachedProcessors: Option<seq<Processor>>

    constructor AnyAICam()
      ensures processorClassNames == AnyAICamClassNames && cachedProcessors.None?
    {
      processorClassNames := AnyAICamClassNames;
      cachedProcessors := None;
    }

    constructor MPdetector()
      ensures processorClassNames == MPdetectorClassNames && cachedProcessors.None?
    {
      processorClassNames := MPdetectorClassNames;
      cachedProcessors := None;
    }

    /**
     * `getProcessors()`. `loads[i]` says whether class `i` loads. A cached list comes
     * back as it is and nothing is loaded; otherwise the loaded classes, each a new
     * processor with its class's labels, in declaration order, and the list is cached.
     */
    method GetProcessors(loads: seq<bool>) returns (processors: seq<Processor>)
      requires |loads| == |processorClassNames|
      requires forall c :: c in processorClassNames ==> LabelsOf(c).Some?
      modifies this
      ensures old(cachedProcessors).Some? ==>
                processors == old(cachedProcessors).value && cachedProcessors == old(cachedProcessors)
      ensures old(cachedProcessors).None? ==>
                && cachedProcessors == Some(processors)
                && |processors| == |Loaded(processorClassNames, loads)|
                && (forall i :: 0 <= i < |processors| ==> processors[i].className == Loaded(processorClassNames, loads)[i])
                && (forall i :: 0 <= i < |processors| ==> fresh(processors[i]))
                && (forall i, j :: 0 <= i < j < |processors| ==> processors[i] != processors[j])
                && (forall i :: 0 <= i < |processors| ==>
                      LabelledAs(processors[i].className, processors[i].name, processors[i].saveDirectoryName))
    {
      if cachedProcessors.Some? {
        return cachedProcessors.value;
      }
      var processorList: seq<Processor> := [];
      var i := 0;
      while i < |processorClassNames|
        invariant 0 <= i <= |processorClassNames|
        invariant |processorList| == |Loaded(processorClassNames[..i], loads[..i])|
        invariant forall k :: 0 <= k < |processorList| ==> processorList[k].className == Loaded(processorClassNames[..i], loads[..i])[k]
        invariant forall k :: 0 <= k < |processorList| ==> fresh(processorList[k])
        invariant forall k, l :: 0 <= k < l < |processorList| ==> processorList[k] != processorList[l]
        invariant forall k :: 0 <= k < |processorList| ==>
                    LabelledAs(processorList[k].className, processorList[k].name, processorList[k].saveDirectoryName)
      {
        var className := processorClassNames[i];
        LoadedStep(processorClassNames, loads, i);
        if loads[i] {
          var processor := new Processor(className, LabelsOf(className).value);
          processorList := processorList + [processor];
        }
        i := i + 1;
      }
      assert processorClassNames[..i] == processorClassNames && loads[..i] == loads;
      cachedProcessors := Some(processorList);
      processors := processorList;
    }
  }

  /** AnyAICam loads at most its five declared processors, MPdetector at most three. */
  lemma RegistrySizes(loadsA: seq<bool>, loadsM: seq<bool>)
    requires |loadsA| == |AnyAICamClassNames| && |loadsM| == |MPdetectorClassNames|
    ensures |Loaded(AnyAICamClassNames, loadsA)| <= 5
    ensures |Loaded(MPdetectorClassNames, loadsM)| <= 3
  {
  }
}
