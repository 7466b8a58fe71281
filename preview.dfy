/**
 * AnyAICam's preview/save screen (`PreviewFragment`). For every active processor it
 * stores the real output of `processFrameForSaving` on a fresh copy of the captured
 * frame, shows either that output or the placeholder icon, and on "save" writes one
 * gallery image per stored output. Bitmaps are values that record where they came
 * from; each processor's save output, the placeholder decoding and each MediaStore
 * write are inputs.
 */
module Preview {
  import opened Common
  import opened Stages
  import opened Processors

  /** Where a bitmap on this screen came from. */
  datatype Bitmap =
    | Captured(width: int, height: int)             // `sharedViewModel.rawFrame` itself
    | CopyOf(copy: nat, width: int, height: int)    // the mutable copy made for the `copy`-th active processor
    | Output(copy: nat, width: int, height: int)    // a new bitmap that processor's save stage made from its copy
    | Placeholder                                   // `icon.png` decoded from the assets

  /** How decoding the placeholder asset ends. */
  datatype PlaceholderLoad = Decoded | DecodedNull | LoadThrows

  /** One `(processor.name, bitmap)` row of the preview list. */
  datatype PreviewItem = PreviewItem(name: string, image: Bitmap)

  /**
   * The bitmap stored for the `k`-th active processor: the result of its save stage
   * run on a copy of `raw` of its own, never `raw` itself nor another processor's copy.
   */
  function Stored(k: nat, raw: Bitmap, save: SaveResult): (b: Bitmap)
    requires raw.Captured?
    ensures b != raw && (b.CopyOf? || b.Output?) && b.copy == k
    ensures save.SameBitmap? ==> b == CopyOf(k, raw.width, raw.height)
    ensures save.NewBitmap? ==> b.Output? && b.width == save.width && b.height == save.height
  {
    match save
    case SameBitmap => CopyOf(k, raw.width, raw.height)
    case NewBitmap(w, h) => Output(k, w, h)
  }

  /** The bitmap shown for a processor: the placeholder iff dummy preview is on and the icon decodes, else the stored one. */
  function Shown(dummy: bool, load: PlaceholderLoad, stored: Bitmap): (b: Bitmap)
    requires stored != Placeholder
    ensures b == Placeholder <==> dummy && load == Decoded
    ensures b != Placeholder ==> b == stored
  {
    if dummy then
      match load
      case Decoded => Placeholder
      case DecodedNull => stored
      case LoadThrows => stored
    else stored
  }

  // ---------------------------------------------------------------- the results map

  /** `mutableMapOf<ImgProcessor, Bitmap>()`, a map that keeps insertion order: keys and values side by side. */
  datatype LinkedMap = LinkedMap(keys: seq<Processor>, values: seq<Bitmap>) {
    ghost predicate Valid() {
      |keys| == |values| && NoDuplicates(keys)
    }
  }

  /** The position of the first `x` in `s`. */
  function IndexOf<T(==)>(s: seq<T>, x: T): (i: nat)
    requires x in s
    ensures i < |s| && s[i] == x
    ensures forall j :: 0 <= j < i ==> s[j] != x
  {
    if s[0] == x then 0 else 1 + IndexOf(s[1..], x)
  }

  /** The position of the last `x` in `s`. */
  function LastIndexOf<T(==)>(s: seq<T>, x: T): (i: nat)
    requires x in s
    ensures i < |s| && s[i] == x
    ensures forall j :: i < j < |s| ==> s[j] != x
  {
    if s[|s| - 1] == x then |s| - 1 else LastIndexOf(s[..|s| - 1], x)
  }

  /** Appending `y` moves the last `x` to the end iff `y` is `x`. */
  lemma LastIndexOfAppend<T>(s: seq<T>, y: T, x: T)
    requires x in s + [y]
    ensures LastIndexOf(s + [y], x) == if x == y then |s| else LastIndexOf(s, x)
  {
    if x != y {
      assert (s + [y])[..|s|] == s;
    }
  }

  /** `map[p]` for a key `p`. */
  function Get(m: LinkedMap, p: Processor): Bitmap
    requires |m.keys| == |m.values| && p in m.keys
  {
    m.values[IndexOf(m.keys, p)]
  }

  /**
   * `map[p] = b`: a new key goes last, an existing key keeps its place and takes the
   * new value, and every other key keeps its value.
   */
  function Put(m: LinkedMap, p: Processor, b: Bitmap): (r: LinkedMap)
    requires m.Valid()
    ensures r.Valid()
    ensures p in m.keys ==> r.keys == m.keys
    ensures p !in m.keys ==> r.keys == m.keys + [p]
    ensures Get(r, p) == b
    ensures forall q :: q in m.keys && q != p ==> Get(r, q) == Get(m, q)
  {
    if p in m.keys then
      LinkedMap(m.keys, m.values[IndexOf(m.keys, p) := b])
    else
      LinkedMap(m.keys + [p], m.values + [b])
  }

  // ---------------------------------------------------------------- file names

  /** Whitespace in the sense of `isBlank`, for the characters modelled here. */
  predicate IsWhitespace(c: char) {
    c == ' ' || c == '\t' || c == '\n' || c == '\r' || c == '\U{000B}' || c == '\U{000C}'
  }

  /** `isBlank()`: empty or whitespace only. */
  predicate IsBlank(s: string) {
    forall i :: 0 <= i < |s| ==> IsWhitespace(s[i])
  }

  /** The base every file name starts with: the user's text, or "capture_" and the timestamp when the text is blank. */
  function BaseName(filenameBase: string, timestamp: string): (r: string)
    ensures !IsBlank(r)
    ensures !IsBlank(filenameBase) ==> r == filenameBase
    ensures IsBlank(filenameBase) ==> |r| == 8 + |timestamp| && r[..8] == "capture_" && r[8..] == timestamp
  {
    if !IsBlank(filenameBase) then filenameBase
    else
      var r := "capture_" + timestamp;
      assert !IsWhitespace(r[0]);
      r
  }

  /** `"${filenameBase}_${suffix}.png"` */
  function FileName(filenameBase: string, suffix: string): (r: string)
    ensures |r| == |filenameBase| + |suffix| + 5
    ensures r[..|filenameBase|] == filenameBase && r[|filenameBase|] == '_'
    ensures r[|filenameBase| + 1..|r| - 4] == suffix && r[|r| - 4..] == ".png"
  {
    filenameBase + "_" + suffix + ".png"
  }

  /** Within one save, processors with different names get different files. */
  lemma FileNameInjective(filenameBase: string, s1: string, s2: string)
    requires FileName(filenameBase, s1) == FileName(filenameBase, s2)
    ensures s1 == s2
  {
    var n1 := FileName(filenameBase, s1);
    assert s1 == n1[|filenameBase| + 1..|n1| - 4];
  }

  /** `Environment.DIRECTORY_PICTURES + "/AnyAICam/" + directory` */
  function RelativePath(directory: string): (r: string)
    ensures |r| == 18 + |directory| && r[..18] == "Pictures/AnyAICam/" && r[18..] == directory
  {
    "Pictures/AnyAICam/" + directory
  }

  /** Different save directories give different gallery folders. */
  lemma RelativePathInjective(d1: string, d2: string)
    requires RelativePath(d1) == RelativePath(d2)
    ensures d1 == d2
  {
    assert d1 == RelativePath(d1)[18..];
  }

  // ---------------------------------------------------------------- gallery writes

  /** How one MediaStore write ends. */
  datatype WriteOutcome =
    | InsertReturnsNull    // `resolver.insert` gives no uri: nothing is written
    | StreamNull           // no output stream: the entry stays empty
    | CompressThrows       // writing the PNG throws, and the exception is swallowed
    | Written

  /** A MediaStore image entry as `saveBitmap` leaves it. */
  datatype GalleryImage = GalleryImage(displayName: string, mimeType: string, relativePath: Option<string>,
                                       content: Option<Bitmap>, pending: bool)

  /**
   * `saveBitmap`: the entry is named `<base>_<suffix>.png`, filed under the processor's
   * folder from Android Q on, holds the bitmap only if the PNG was written, and stays
   * pending when the write threw on Android Q or later.
   */
  function SaveBitmap(bitmap: Bitmap, filenameBase: string, suffix: string, directory: string,
                      sdkAtLeastQ: bool, outcome: WriteOutcome): (r: Option<GalleryImage>)
    ensures r.None? <==> outcome == InsertReturnsNull
    ensures r.Some? ==> r.value.displayName == FileName(filenameBase, suffix) && r.value.mimeType == "image/png"
    ensures r.Some? ==> (r.value.relativePath.Some? <==> sdkAtLeastQ)
    ensures r.Some? && sdkAtLeastQ ==> r.value.relativePath == Some(RelativePath(directory))
    ensures r.Some? ==> (r.value.content.Some? <==> outcome == Written)
    ensures r.Some? && r.value.content.Some? ==> r.value.content.value == bitmap
    ensures r.Some? ==> (r.value.pending <==> sdkAtLeastQ && outcome == CompressThrows)
  {
    if outcome == InsertReturnsNull then None
    else
      var path := if sdkAtLeastQ then Some(RelativePath(directory)) else None;
      var content := if outcome == Written then Some(bitmap) else None;
      Some(GalleryImage(FileName(filenameBase, suffix), "image/png", path, content,
                        sdkAtLeastQ && outcome == CompressThrows))
  }

  /** The gallery entries written for the first `|outcomes|` stored results, in map order. */
  function SaveAll(m: LinkedMap, filenameBase: string, sdkAtLeastQ: bool, outcomes: seq<WriteOutcome>): (r: seq<GalleryImage>)
    requires |outcomes| <= |m.keys| == |m.values|
    ensures |r| <= |outcomes|
    decreases |outcomes|
  {
    if outcomes == [] then []
    else
      var n := |outcomes| - 1;
      var e := SaveBitmap(m.values[n], filenameBase, m.keys[n].name, m.keys[n].saveDirectoryName, sdkAtLeastQ, outcomes[n]);
      SaveAll(m, filenameBase, sdkAtLeastQ, outcomes[..n]) + (if e.Some? then [e.value] else [])
  }

  /**
   * Every gallery entry of one save belongs to one stored result: it carries that
   * processor's file name and folder, and at most that result's bitmap.
   */
  lemma {:induction false} SaveAllEntries(m: LinkedMap, filenameBase: string, sdkAtLeastQ: bool, outcomes: seq<WriteOutcome>)
    requires |outcomes| <= |m.keys| == |m.values|
    ensures forall g :: g in SaveAll(m, filenameBase, sdkAtLeastQ, outcomes) ==>
              exists k :: 0 <= k < |outcomes|
                && g.displayName == FileName(filenameBase, m.keys[k].name)
                && (sdkAtLeastQ ==> g.relativePath == Some(RelativePath(m.keys[k].saveDirectoryName)))
                && (g.content.Some? ==> g.content.value == m.values[k])
  {
    if outcomes != [] {
      var n := |outcomes| - 1;
      SaveAllEntries(m, filenameBase, sdkAtLeastQ, outcomes[..n]);
    }
  }

  /** When every write succeeds, there is one complete, non-pending entry per stored result, in map order. */
  lemma {:induction false} SaveAllWritten(m: LinkedMap, filenameBase: string, sdkAtLeastQ: bool, outcomes: seq<WriteOutcome>)
    requires |outcomes| <= |m.keys| == |m.values|
    requires forall k :: 0 <= k < |outcomes| ==> outcomes[k] == Written
    ensures |SaveAll(m, filenameBase, sdkAtLeastQ, outcomes)| == |outcomes|
    ensures forall k :: 0 <= k < |outcomes| ==>
              var g := SaveAll(m, filenameBase, sdkAtLeastQ, outcomes)[k];
              g.displayName == FileName(filenameBase, m.keys[k].name) && g.content == Some(m.values[k]) && !g.pending
  {
    if outcomes != [] {
      var n := |outcomes| - 1;
      SaveAllWritten(m, filenameBase, sdkAtLeastQ, outcomes[..n]);
    }
  }

  /** The captured frame is never written: every stored result is a copy or a processor's output. */
  lemma SaveAllNeverCaptured(m: LinkedMap, filenameBase: string, sdkAtLeastQ: bool, outcomes: seq<WriteOutcome>)
    requires |outcomes| <= |m.keys| == |m.values|
    requires forall k :: 0 <= k < |m.values| ==> m.values[k].CopyOf? || m.values[k].Output?
    ensures forall g :: g in SaveAll(m, filenameBase, sdkAtLeastQ, outcomes) && g.content.Some? ==> !g.content.value.Captured?
  {
    SaveAllEntries(m, filenameBase, sdkAtLeastQ, outcomes);
  }

  // ---------------------------------------------------------------- the screen

  /**
   * `m` holds the results of the processors in `processors`, in that order, copy
   * `k` being made for `processors[k]`: each processor once, with the result of its
   * last occurrence, and nothing but processor results.
   */
  ghost predicate HoldsResults(m: LinkedMap, processors: seq<Processor>, raw: Bitmap, saves: seq<SaveResult>)
    requires raw.Captured? && |processors| <= |saves|
  {
    && m.Valid()
    && (forall k :: 0 <= k < |m.values| ==> m.values[k].CopyOf? || m.values[k].Output?)
    && (forall p :: p in m.keys ==> p in processors)
    && (forall p :: p in processors ==> p in m.keys)
    && (forall p :: p in m.keys ==>
          Get(m, p) == Stored(LastIndexOf(processors, p), raw, saves[LastIndexOf(processors, p)]))
  }

  /** For processors listed once each, the map is the list paired with its results. */
  ghost predicate HoldsResultsInOrder(m: LinkedMap, processors: seq<Processor>, raw: Bitmap, saves: seq<SaveResult>)
    requires raw.Captured? && |processors| <= |saves|
  {
    && m.keys == processors && |m.values| == |processors|
    && forall k :: 0 <= k < |processors| ==> m.values[k] == Stored(k, raw, saves[k])
  }

  /** Storing the next processor's result keeps the map holding the results of the longer list. */
  lemma PutStep(m: LinkedMap, processors: seq<Processor>, processor: Processor, raw: Bitmap, saves: seq<SaveResult>)
    requires raw.Captured? && |processors| < |saves|
    requires HoldsResults(m, processors, raw, saves)
    ensures HoldsResults(Put(m, processor, Stored(|processors|, raw, saves[|processors|])), processors + [processor], raw, saves)
  {
    var b := Stored(|processors|, raw, saves[|processors|]);
    var r := Put(m, processor, b);
    forall p | p in r.keys
      ensures Get(r, p) == Stored(LastIndexOf(processors + [processor], p), raw, saves[LastIndexOf(processors + [processor], p)])
    {
      LastIndexOfAppend(processors, processor, p);
    }
    forall k | 0 <= k < |r.values|
      ensures r.values[k].CopyOf? || r.values[k].Output?
    {
      if processor in m.keys && k == IndexOf(m.keys, processor) {
        assert r.values[k] == b;
      }
    }
  }

  /** The preview row of a processor whose stored result is `stored`: its name and the bitmap shown for it. */
  function PreviewRow(p: Processor, load: PlaceholderLoad, stored: Bitmap): (r: PreviewItem)
    requires stored != Placeholder
    reads p
    ensures r.name == p.name
    ensures r.image == Placeholder <==> p.IsDummyPreviewEnabled() && load == Decoded
    ensures r.image != Placeholder ==> r.image == stored
  {
    PreviewItem(p.name, Shown(p.IsDummyPreviewEnabled(), load, stored))
  }

  /** The results map after storing the results of `processors`, copy `k` made for `processors[k]`. */
  function StoreAll(processors: seq<Processor>, raw: Bitmap, saves: seq<SaveResult>): (m: LinkedMap)
    requires raw.Captured? && |processors| <= |saves|
    ensures m.Valid()
  {
    if processors == [] then LinkedMap([], [])
    else
      var n := |processors| - 1;
      Put(StoreAll(processors[..n], raw, saves), processors[n], Stored(n, raw, saves[n]))
  }

  /** Storing every active processor's result leaves each processor once, with its last result. */
  lemma {:induction false} StoreAllHoldsResults(processors: seq<Processor>, raw: Bitmap, saves: seq<SaveResult>)
    requires raw.Captured? && |processors| <= |saves|
    ensures HoldsResults(StoreAll(processors, raw, saves), processors, raw, saves)
  {
    if processors != [] {
      var n := |processors| - 1;
      StoreAllHoldsResults(processors[..n], raw, saves);
      PutStep(StoreAll(processors[..n], raw, saves), processors[..n], processors[n], raw, saves);
      assert processors[..n] + [processors[n]] == processors;
    }
  }

  /** With every processor listed once, the map is the active list paired with its results, in order. */
  lemma {:induction false} StoreAllInOrder(processors: seq<Processor>, raw: Bitmap, saves: seq<SaveResult>)
    requires raw.Captured? && |processors| <= |saves| && NoDuplicates(processors)
    ensures HoldsResultsInOrder(StoreAll(processors, raw, saves), processors, raw, saves)
  {
    if processors != [] {
      var n := |processors| - 1;
      assert NoDuplicates(processors[..n]);
      StoreAllInOrder(processors[..n], raw, saves);
      assert processors[n] !in processors[..n];
      assert processors[..n] + [processors[n]] == processors;
    }
  }

  /** The preview rows of `processors`, copy `k` made for `processors[k]`. */
  function Rows(processors: seq<Processor>, loads: seq<PlaceholderLoad>, raw: Bitmap, saves: seq<SaveResult>): (r: seq<PreviewItem>)
    requires raw.Captured? && |processors| <= |saves| && |processors| <= |loads|
    reads set p | p in processors
    ensures |r| == |processors|
  {
    if processors == [] then []
    else
      var n := |processors| - 1;
      Rows(processors[..n], loads, raw, saves) + [PreviewRow(processors[n], loads[n], Stored(n, raw, saves[n]))]
  }

  /** One row per processor, in order: row `k` names `processors[k]` and shows its result or the placeholder. */
  lemma {:induction false} RowsExact(processors: seq<Processor>, loads: seq<PlaceholderLoad>, raw: Bitmap, saves: seq<SaveResult>)
    requires raw.Captured? && |processors| <= |saves| && |processors| <= |loads|
    ensures forall k :: 0 <= k < |processors| ==>
              Rows(processors, loads, raw, saves)[k] == PreviewRow(processors[k], loads[k], Stored(k, raw, saves[k]))
  {
    if processors != [] {
      var n := |processors| - 1;
      RowsExact(processors[..n], loads, raw, saves);
    }
  }

  /**
   * The results of the save calls that return before the first one that throws;
   * `saves[k]` is how the `k`-th call of `processFrameForSaving` ends.
   */
  function Completed(saves: seq<SaveOutcome>): (done: seq<SaveResult>)
    ensures |done| <= |saves|
    ensures forall k :: 0 <= k < |done| ==> saves[k] == Returns(done[k])
    ensures |done| < |saves| ==> saves[|done|] == SaveThrows
  {
    if saves == [] || saves[0] == SaveThrows then []
    else [saves[0].result] + Completed(saves[1..])
  }

  /**
   * What the loop of `generatePreviews` leaves behind, for processors whose save
   * stages end as `saves` says: the map holds the results of the processors whose
   * save stage ran before the first throw, and when none throws, row `k` shows the
   * `k`-th processor's result or the placeholder.
   */
  lemma PreviewsOf(processors: seq<Processor>, loads: seq<PlaceholderLoad>, raw: Bitmap, saves: seq<SaveOutcome>)
    requires raw.Captured? && |saves| == |loads| == |processors|
    ensures var done := Completed(saves);
            HoldsResults(StoreAll(processors[..|done|], raw, done), processors[..|done|], raw, done)
    ensures var done := Completed(saves);
            NoDuplicates(processors) ==>
              HoldsResultsInOrder(StoreAll(processors[..|done|], raw, done), processors[..|done|], raw, done)
    ensures |Completed(saves)| == |saves| ==>
              forall k :: 0 <= k < |processors| ==>
                saves[k].Returns? &&
                Rows(processors, loads, raw, Completed(saves))[k] == PreviewRow(processors[k], loads[k], Stored(k, raw, saves[k].result))
  {
    var done := Completed(saves);
    var ran := processors[..|done|];
    StoreAllHoldsResults(ran, raw, done);
    if NoDuplicates(processors) {
      assert NoDuplicates(ran);
      StoreAllInOrder(ran, raw, done);
    }
    if |done| == |saves| {
      RowsExact(processors, loads, raw, done);
      forall k | 0 <= k < |processors|
        ensures saves[k].Returns? &&
                Rows(processors, loads, raw, done)[k] == PreviewRow(processors[k], loads[k], Stored(k, raw, saves[k].result))
      {
        assert saves[k] == Returns(done[k]);
      }
    }
  }

  /**
   * The loop of `generatePreviews` over the active processors: each result is stored
   * as it is produced, and one preview row per processor is added, in order. A save
   * stage that throws ends the loop: the map then holds the results of the
   * processors before it.
   */
  method BuildPreviews(raw: Bitmap, processors: seq<Processor>, saves: seq<SaveOutcome>, loads: seq<PlaceholderLoad>)
    returns (stored: LinkedMap, displayList: seq<PreviewItem>, threw: bool)
    requires raw.Captured? && |saves| == |loads| == |processors|
    ensures threw <==> |Completed(saves)| < |saves|
    ensures stored == StoreAll(processors[..|Completed(saves)|], raw, Completed(saves))
    ensures !threw ==> displayList == Rows(processors, loads, raw, Completed(saves))
  {
    ghost var done := Completed(saves);
    stored := LinkedMap([], []);
    displayList := [];
    threw := false;
    var i := 0;
    while i < |processors|
      invariant 0 <= i <= |done|
      invariant stored == StoreAll(processors[..i], raw, done)
      invariant displayList == Rows(processors[..i], loads, raw, done)
    {
      var processor := processors[i];
      if saves[i] == SaveThrows {
        assert i == |done|;
        threw := true;
        break;
      }
      assert i < |done| && saves[i] == Returns(done[i]);
      var bitmapToSave := Stored(i, raw, saves[i].result);
      assert processors[..i + 1][..i] == processors[..i];
      stored := Put(stored, processor, bitmapToSave);
      displayList := displayList + [PreviewRow(processor, loads[i], bitmapToSave)];
      i := i + 1;
    }
    if !threw {
      assert processors[..i] == processors;
    }
  }

  /** `PreviewAdapter`: the rows the preview list shows. */
  class PreviewAdapter {
    var imageList: seq<PreviewItem>

    constructor ()
      ensures imageList == []
    {
      imageList := [];
    }

    /** `updateData`: the list is replaced wholesale. */
    method UpdateData(newImageList: seq<PreviewItem>)
      modifies this
      ensures imageList == newImageList
    {
      imageList := newImageList;
    }
  }

  class PreviewFragment {
    const adapter: PreviewAdapter
    /** The stored results, keyed by processor, in the order they were produced. */
    var processedBitmaps: LinkedMap
    var rawBitmap: Option<Bitmap>
    /** `navigateBackToCamera()` has been called. */
    var navigatedBack: bool
    /** The MediaStore image entries this screen has created. */
    var gallery: seq<GalleryImage>

    /** The map is well formed and holds only processor results, never the captured frame or the icon. */
    ghost predicate Valid()
      reads this
    {
      && processedBitmaps.Valid()
      && (forall k :: 0 <= k < |processedBitmaps.values| ==>
            processedBitmaps.values[k].CopyOf? || processedBitmaps.values[k].Output?)
    }

    /** `onViewCreated` up to `generatePreviews`: an empty preview list and nothing stored. */
    constructor ()
      ensures Valid() && fresh(adapter) && adapter.imageList == []
      ensures processedBitmaps == LinkedMap([], []) && rawBitmap.None? && !navigatedBack && gallery == []
    {
      adapter := new PreviewAdapter();
      processedBitmaps := LinkedMap([], []);
      rawBitmap := None;
      navigatedBack := false;
      gallery := [];
    }

    /**
     * `generatePreviews`. `rawFrame` is the shared captured frame, `active` the shared
     * active-processor list; `saves[k]` is how the `k`-th active processor's save
     * stage ends and `loads[k]` how decoding the icon ends for it. Without a frame the
     * screen goes back and nothing else changes. Otherwise the old results are
     * dropped and every active processor's result is stored under it as it is
     * produced (a processor listed twice keeps its last result at its first place).
     * When every save stage returns, the preview list gets one row per active
     * processor, in order. A save stage that throws escapes `lifecycleScope.launch`
     * uncaught, which crashes the app: the preview is abandoned with the results
     * stored so far, and the preview list is never updated.
     */
    method GeneratePreviews(rawFrame: Option<Bitmap>, active: Option<seq<Processor>>,
                            saves: seq<SaveOutcome>, loads: seq<PlaceholderLoad>)
      returns (threw: bool)
      requires Valid()
      requires rawFrame.Some? ==> rawFrame.value.Captured?
      requires |saves| == |loads| == |active.GetOr([])|
      modifies this, adapter
      ensures Valid() && rawBitmap == rawFrame && gallery == old(gallery)
      ensures threw <==> rawFrame.Some? && |Completed(saves)| < |saves|
      ensures rawFrame.None? ==>
                navigatedBack && processedBitmaps == old(processedBitmaps) && adapter.imageList == old(adapter.imageList)
      ensures rawFrame.Some? ==> navigatedBack == old(navigatedBack)
      ensures rawFrame.Some? ==>
                HoldsResults(processedBitmaps, active.GetOr([])[..|Completed(saves)|], rawFrame.value, Completed(saves))
      ensures rawFrame.Some? && NoDuplicates(active.GetOr([])) ==>
                HoldsResultsInOrder(processedBitmaps, active.GetOr([])[..|Completed(saves)|], rawFrame.value, Completed(saves))
      ensures threw ==> adapter.imageList == old(adapter.imageList)
      ensures rawFrame.Some? && !threw ==>
                adapter.imageList == old(Rows(active.GetOr([]), loads, rawFrame.value, Completed(saves)))
    {
      rawBitmap := rawFrame;
      if rawFrame.None? {
        navigatedBack := true;
        return false;
      }
      var processors := active.GetOr([]);
      var stored, displayList;
      stored, displayList, threw := BuildPreviews(rawFrame.value, processors, saves, loads);
      PreviewsOf(processors, loads, rawFrame.value, saves);
      if !threw {
        adapter.UpdateData(displayList);
      }
      processedBitmaps := stored;
    }

    /**
     * `saveImages` after the dialog's "save": every stored result is written as
     * `<base>_<processor name>.png`, where the base is the user's text or
     * "capture_<timestamp>". `outcomes[k]` is how the `k`-th write ends. The reported
     * count is the number of stored results, whatever the writes did; the screen then
     * goes back.
     */
    method SaveImages(filenameBase: string, timestamp: string, sdkAtLeastQ: bool, outcomes: seq<WriteOutcome>)
      returns (saveCount: nat)
      requires Valid() && |outcomes| == |processedBitmaps.keys|
      modifies this
      ensures Valid() && processedBitmaps == old(processedBitmaps) && rawBitmap == old(rawBitmap)
      ensures saveCount == |processedBitmaps.keys|
      ensures gallery == old(gallery) + SaveAll(processedBitmaps, BaseName(filenameBase, timestamp), sdkAtLeastQ, outcomes)
      ensures navigatedBack
    {
      var finalFilenameBase := BaseName(filenameBase, timestamp);
      saveCount := 0;
      var i := 0;
      while i < |processedBitmaps.keys|
        invariant 0 <= i <= |processedBitmaps.keys|
        invariant saveCount == i
        invariant processedBitmaps == old(processedBitmaps) && rawBitmap == old(rawBitmap)
        invariant gallery == old(gallery) + SaveAll(processedBitmaps, finalFilenameBase, sdkAtLeastQ, outcomes[..i])
      {
        var processor := processedBitmaps.keys[i];
        var entry := SaveBitmap(processedBitmaps.values[i], finalFilenameBase, processor.name,
                                processor.saveDirectoryName, sdkAtLeastQ, outcomes[i]);
        assert outcomes[..i + 1][..i] == outcomes[..i];
        if entry.Some? {
          gallery := gallery + [entry.value];
        }
        saveCount := saveCount + 1;
        i := i + 1;
      }
      assert outcomes[..i] == outcomes;
      navigatedBack := true;
    }
  }
}
