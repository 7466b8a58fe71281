/**
 * Processor objects as the registry, the selection dialog and the preview screen
 * see them: an identity (the Kotlin object), the class it was loaded from, its
 * display name and save directory, and AnyAICam's dummy-preview flag, which only a
 * class that overrides it can store.
 */
module Processors {
  import opened Common
  import opened Stages
  import opened TongueGeometry

  /** The fully qualified class names each app's registry loads, in declaration order. */
  const AnyAICamClassNames: seq<string> := [
    "com.example.AnyAICam.models.raw.ImgAnalyzer",
    "com.example.AnyAICam.models.face_detector.ImgAnalyzer",
    "com.example.AnyAICam.models.pose_detector.ImgAnalyzer",
    "com.example.AnyAICam.models.tongue_detector.ImgAnalyzer",
    "com.example.AnyAICam.models.wink_detector.ImgAnalyzer"
  ]
  const MPdetectorClassNames: seq<string> := [
    "com.example.MPdetector.models.raw.ImgAnalyzer",
    "com.example.MPdetector.models.wink_detector.ImgAnalyzer",
    "com.example.MPdetector.models.tongue_detector.ImgAnalyzer"
  ]

  /** A processor's `name` and `saveDirectoryName`. */
  datatype Labels = Labels(name: string, saveDirectoryName: string)

  /** The labels a loaded class carries; `None` for a class neither registry declares. */
  function LabelsOf(className: string): Option<Labels>
  {
    if className == AnyAICamClassNames[0] || className == MPdetectorClassNames[0] then Some(Labels(RawName, RawSaveDirectory))
    else if className == AnyAICamClassNames[1] then Some(Labels(FaceName, FaceSaveDirectory))
    else if className == AnyAICamClassNames[2] then Some(Labels(PoseName, PoseSaveDirectory))
    else if className == AnyAICamClassNames[3] || className == MPdetectorClassNames[2] then Some(Labels(TongueName, TongueSaveDirectory))
    else if className == AnyAICamClassNames[4] || className == MPdetectorClassNames[1] then Some(Labels(WinkName, WinkSaveDirectory))
    else None
  }

  /** Every declared class has labels, and within one app no two classes share a name or a directory. */
  lemma DeclaredLabelsDistinct()
    ensures forall c :: c in AnyAICamClassNames ==> LabelsOf(c).Some?
    ensures forall c :: c in MPdetectorClassNames ==> LabelsOf(c).Some?
    ensures forall i, j :: 0 <= i < j < |AnyAICamClassNames| ==>
              LabelsOf(AnyAICamClassNames[i]).value.name != LabelsOf(AnyAICamClassNames[j]).value.name
              && LabelsOf(AnyAICamClassNames[i]).value.saveDirectoryName != LabelsOf(AnyAICamClassNames[j]).value.saveDirectoryName
    ensures forall i, j :: 0 <= i < j < |MPdetectorClassNames| ==>
              LabelsOf(MPdetectorClassNames[i]).value.name != LabelsOf(MPdetectorClassNames[j]).value.name
              && LabelsOf(MPdetectorClassNames[i]).value.saveDirectoryName != LabelsOf(MPdetectorClassNames[j]).value.saveDirectoryName
  {
  }

  /** `name` and `saveDirectoryName` are the labels class `className` declares. */
  predicate LabelledAs(className: string, name: string, saveDirectoryName: string) {
    LabelsOf(className) == Some(Labels(name, saveDirectoryName))
  }

  /**
   * The AnyAICam classes that override `isDummyPreviewEnabled` with a property of
   * their own, and so have a backing field for it: the pose analyzer. The tongue
   * analyzer inherits `ImgProcessor`'s accessors, whose getter answers `false` and
   * whose setter keeps nothing.
   */
  predicate StoresDummyFlag(className: string) {
    className == AnyAICamClassNames[2]
  }

  /** One `ImgProcessor` instance. */
  class Processor {
    const className: string
    const name: string
    const saveDirectoryName: string
    /** The backing field of `isDummyPreviewEnabled`, for a class that declares one. */
    var dummyPreviewField: bool

    /** `clazz.newInstance()` */
    constructor (className: string, labels: Labels)
      ensures this.className == className
      ensures name == labels.name && saveDirectoryName == labels.saveDirectoryName
      ensures !IsDummyPreviewEnabled()
    {
      this.className := className;
      name := labels.name;
      saveDirectoryName := labels.saveDirectoryName;
      dummyPreviewField := false;
    }

    /** AnyAICam only: show the processor's placeholder instead of its real output. */
    predicate IsDummyPreviewEnabled()
      reads this
    {
      StoresDummyFlag(className) && dummyPreviewField
    }

    /** `isDummyPreviewEnabled = value`: kept only by a class with a backing field. */
    method SetDummyPreviewEnabled(value: bool)
      modifies this
      ensures IsDummyPreviewEnabled() <==> StoresDummyFlag(className) && value
      ensures !StoresDummyFlag(className) ==> dummyPreviewField == old(dummyPreviewField)
    {
      if StoresDummyFlag(className) {
        dummyPreviewField := value;
      }
    }
  }
}
