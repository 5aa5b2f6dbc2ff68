/**
 * Batch export of objects to files (`ULightmapExportFunctionLibrary::ExportObjects`):
 * which exporters are valid for an object and its file, which one is used, which
 * objects are skipped, when the batch is cancelled and how the exporters' batch flags
 * are reset.
 */
module AssetExport {

  import opened Wrappers
  import opened Strings
  import opened Sequences
  import opened Platform

  /**
   * An object handed to the exporter. `isPackage` is `IsA(UPackage)`, `exportDisallowed`
   * is `GetOutermost()->HasAnyPackageFlags(PKG_DisallowExport)` and `exporterName` is
   * `GetExporterName()`.
   */
  datatype Asset = Asset(name: string, isPackage: bool, exportDisallowed: bool, exporterName: string)

  /** An exporter's batch mode, cancel-batch and show-export-option flags. */
  datatype Flags = Flags(batchMode: bool, cancelBatch: bool, showExportOption: bool)

  const ClearedFlags := Flags(false, false, false)

  /**
   * An exporter object. Its class name, its format extensions and what it supports are
   * fixed; its three batch flags change while a batch runs.
   */
  class Exporter {
    const className: string
    const formatExtensions: seq<string>
    const supports: Asset -> bool  // SupportsObject
    var batchMode: bool
    var cancelBatch: bool
    var showExportOption: bool

    constructor (className: string, formatExtensions: seq<string>, supports: Asset -> bool, flags: Flags)
      ensures this.className == className && this.formatExtensions == formatExtensions && this.supports == supports
      ensures CurrentFlags() == flags
    {
      this.className := className;
      this.formatExtensions := formatExtensions;
      this.supports := supports;
      batchMode, cancelBatch, showExportOption := flags.batchMode, flags.cancelBatch, flags.showExportOption;
    }

    function CurrentFlags(): Flags
      reads this
    {
      Flags(batchMode, cancelBatch, showExportOption)
    }

    /** `SetBatchMode`, `SetCancelBatch` and `SetShowExportOption` in one call. */
    method SetFlags(flags: Flags)
      modifies this
      ensures CurrentFlags() == flags
    {
      batchMode, cancelBatch, showExportOption := flags.batchMode, flags.cancelBatch, flags.showExportOption;
    }
  }

  // ---------------------------------------------------------------------------
  // Valid exporters (lines 62-81)

  /** A format extension accepts a file extension when the two compare equal ignoring case, or when it is `*`. */
  predicate ExtensionMatches(formatExtension: string, fileExtension: string)
  {
    EqualsIgnoreCase(formatExtension, fileExtension) || EqualsIgnoreCase(formatExtension, "*")
  }

  /** The wildcard test accepts only the literal `*`, whatever the case folding. */
  lemma ExtensionMatchesIff(formatExtension: string, fileExtension: string)
    ensures ExtensionMatches(formatExtension, fileExtension) <==>
      EqualsIgnoreCase(formatExtension, fileExtension) || formatExtension == "*"
  {
    WildcardMatchesOnlyItself(formatExtension);
  }

  predicate HandlesExtension(e: Exporter, fileExtension: string)
  {
    exists f :: 0 <= f < |e.formatExtensions| && ExtensionMatches(e.formatExtensions[f], fileExtension)
  }

  predicate IsValidExporter(e: Exporter, obj: Asset, fileExtension: string)
  {
    e.supports(obj) && HandlesExtension(e, fileExtension)
  }

  function Validity(obj: Asset, fileExtension: string): Exporter -> Option<Exporter>
  {
    e => if IsValidExporter(e, obj, fileExtension) then Some(e) else None
  }

  /** The exporters the loop of lines 62-81 collects, in the order of `exporters`. */
  function ValidExporters(exporters: seq<Exporter>, obj: Asset, fileExtension: string): seq<Exporter>
  {
    FilterMap(exporters, Validity(obj, fileExtension))
  }

  /**
   * The valid exporters are an order-preserving selection of `exporters`, one entry per
   * position at most: position `i` is selected exactly when its exporter supports the
   * object and declares a matching extension. An exporter is valid exactly when it is
   * one of `exporters` and passes that test, and the selection repeats no exporter
   * that `exporters` does not repeat.
   */
  lemma ValidExportersExact(exporters: seq<Exporter>, obj: Asset, fileExtension: string)
    ensures var valid, kept := ValidExporters(exporters, obj, fileExtension), KeptIndices(KeptMask(exporters, Validity(obj, fileExtension)));
      && |valid| == |kept|
      && StrictlyIncreasing(kept)
      && (forall i :: 0 <= i < |exporters| ==> (i in kept <==> IsValidExporter(exporters[i], obj, fileExtension)))
      && (forall k :: 0 <= k < |valid| ==> kept[k] < |exporters| && valid[k] == exporters[kept[k]])
    ensures forall e :: e in ValidExporters(exporters, obj, fileExtension) <==> e in exporters && IsValidExporter(e, obj, fileExtension)
    ensures NoDuplicates(exporters) ==> NoDuplicates(ValidExporters(exporters, obj, fileExtension))
  {
    var f := Validity(obj, fileExtension);
    var valid, kept := ValidExporters(exporters, obj, fileExtension), KeptIndices(KeptMask(exporters, f));
    FilterMapAt(exporters, f);
    forall e | e in exporters && IsValidExporter(e, obj, fileExtension)
      ensures e in valid
    {
      var i :| 0 <= i < |exporters| && exporters[i] == e;
      assert i in kept;
      var k :| 0 <= k < |kept| && kept[k] == i;
      assert valid[k] == e;
    }
  }

  /**
   * Lines 62-81: every exporter that supports the object is searched for a format
   * extension that accepts the save file's extension; the first one found adds the
   * exporter and ends its search.
   */
  method FindValidExporters(exporters: seq<Exporter>, obj: Asset, saveFileName: string, host: Host)
    returns (valid: seq<Exporter>)
    ensures valid == ValidExporters(exporters, obj, host.getExtension(saveFileName))
  {
    ghost var fileExtension := host.getExtension(saveFileName);
    valid := [];
    for exporterIndex := 0 to |exporters|
      invariant valid == ValidExporters(exporters[..exporterIndex], obj, fileExtension)
    {
      assert exporters[..exporterIndex + 1][..exporterIndex] == exporters[..exporterIndex];
      var exporter := exporters[exporterIndex];
      if exporter.supports(obj) {
        var formatIndex := 0;
        while formatIndex < |exporter.formatExtensions|
          invariant formatIndex <= |exporter.formatExtensions|
          invariant forall f :: 0 <= f < formatIndex ==> !ExtensionMatches(exporter.formatExtensions[f], fileExtension)
          invariant valid == ValidExporters(exporters[..exporterIndex], obj, fileExtension)
        {
          var formatExtension := exporter.formatExtensions[formatIndex];
          if EqualsIgnoreCase(formatExtension, host.getExtension(saveFileName)) || EqualsIgnoreCase(formatExtension, "*") {
            valid := valid + [exporter];
            break;
          }
          formatIndex := formatIndex + 1;
        }
      }
    }
    assert exporters[..|exporters|] == exporters;
  }

  // ---------------------------------------------------------------------------
  // Choosing the exporter (lines 84-106)

  /** `GetClass()->GetFName() == GetExporterName()`; names compare ignoring case. */
  predicate IsPreferred(e: Exporter, exporterName: string)
  {
    EqualsIgnoreCase(e.className, exporterName)
  }

  /** The position of the first preferred candidate, or `|valid|` when there is none. */
  function PreferredIndex(valid: seq<Exporter>, exporterName: string): (k: nat)
    ensures k <= |valid|
    ensures k < |valid| ==> IsPreferred(valid[k], exporterName)
    ensures forall j :: 0 <= j < k ==> !IsPreferred(valid[j], exporterName)
  {
    if |valid| == 0 then 0
    else if IsPreferred(valid[0], exporterName) then 0
    else 1 + PreferredIndex(valid[1..], exporterName)
  }

  /**
   * The exporter used for an object: none without candidates, the only one when there
   * is one and otherwise the first preferred candidate, falling back to the first. The
   * single-candidate shortcut agrees with the general rule.
   */
  function Chosen(valid: seq<Exporter>, exporterName: string): (r: Option<Exporter>)
    ensures r.None? <==> |valid| == 0
    ensures r.Some? ==> r.value in valid
    ensures forall j ::
              (0 <= j < |valid| && IsPreferred(valid[j], exporterName)
               && forall i :: 0 <= i < j ==> !IsPreferred(valid[i], exporterName)) ==> r == Some(valid[j])
    ensures |valid| > 0 && (forall j :: 0 <= j < |valid| ==> !IsPreferred(valid[j], exporterName)) ==> r == Some(valid[0])
  {
    if |valid| == 0 then None
    else if |valid| == 1 then Some(valid[0])
    else
      var k := PreferredIndex(valid, exporterName);
      Some(if k < |valid| then valid[k] else valid[0])
  }

  /** Lines 84-106. */
  method ChooseExporter(valid: seq<Exporter>, exporterName: string) returns (exporterToUse: Option<Exporter>)
    ensures exporterToUse == Chosen(valid, exporterName)
  {
    exporterToUse := None;
    if |valid| == 1 {
      exporterToUse := Some(valid[0]);
    } else if |valid| > 1 {
      exporterToUse := Some(valid[0]);
      for exporterIdx := 0 to |valid|
        invariant exporterToUse == Some(valid[0])
        invariant forall j :: 0 <= j < exporterIdx ==> !IsPreferred(valid[j], exporterName)
      {
        if EqualsIgnoreCase(valid[exporterIdx].className, exporterName) {
          exporterToUse := Some(valid[exporterIdx]);
          break;
        }
      }
    }
  }

  // ---------------------------------------------------------------------------
  // The export loop (lines 32-139) as a function of the objects processed so far

  /** `UAssetExportTask`: the object, the exporter, the file and the options set at lines 123-130. */
  datatype ExportTask = ExportTask(
    obj: Asset, exporter: Exporter, filename: string,
    selected: bool, replaceIdentical: bool, prompt: bool, useFileArchive: bool, writeEmptyFiles: bool)

  function TaskFor(obj: Asset, exporter: Exporter, filename: string): ExportTask
  {
    ExportTask(obj, exporter, filename, false, true, false, obj.isPackage, false)
  }

  /**
   * What the loop does that is visible from outside: the two error dialogs and each
   * call of `RunAssetExportTask`, tagged with the object's position.
   */
  datatype Event =
    | FailedToMakeDirectory(path: string)
    | CouldntWriteToFile(filename: string)
    | Exported(index: nat, task: ExportTask)

  /**
   * The inputs of one batch. `runTask` stands for `UExporter::RunAssetExportTask`: given
   * the object's position, the export task and the exporter's flags before the call, it gives
   * the exporter's flags after it (an options dialog may switch on batch mode and
   * cancel the batch).
   */
  datatype Batch = Batch(
    objects: seq<Option<Asset>>, saveFileNames: seq<string>, exporters: seq<Exporter>,
    host: Host, runTask: (nat, ExportTask, Flags) -> Flags)

  /** `used` is `UsedExporters`; `flags` holds the flags of each used exporter; `stopped` records a cancelled batch. */
  datatype LoopState = LoopState(used: seq<Exporter>, flags: map<Exporter, Flags>, events: seq<Event>, stopped: bool)

  /** No exporter is used twice, every used exporter is one of the batch's, and flags are kept for exactly the used ones. */
  predicate WellFormed(b: Batch, st: LoopState)
  {
    && NoDuplicates(st.used)
    && (forall e :: e in st.used ==> e in b.exporters)
    && (forall e :: e in st.flags ==> e in st.used)
    && (forall e :: e in st.used ==> e in st.flags)
  }

  /** `MakeDirectory` only runs, and can only fail, for a path that contains a `/`. */
  predicate DirectoryCreationFails(host: Host, saveFileName: string)
  {
    var objectExportPath := host.getPath(saveFileName);
    '/' in objectExportPath && !host.makeDirectory(objectExportPath)
  }

  /** The exporter used for the object at position `i`, if any, ignoring the skip rules. */
  function ChosenAt(b: Batch, i: nat, obj: Asset): Option<Exporter>
    requires i < |b.objects| <= |b.saveFileNames|
  {
    Chosen(ValidExporters(b.exporters, obj, b.host.getExtension(b.saveFileNames[i])), obj.exporterName)
  }

  /** What the loop body does with the object at position `i`; it does not depend on earlier objects. */
  datatype Outcome = Skipped | Reported(event: Event) | Runs(task: ExportTask)

  /**
   * Lines 36-58 and 108-131: a missing object, one whose package disallows export, and
   * one without a valid exporter are passed over; a directory that cannot be made and a
   * read-only file are reported; otherwise the chosen exporter runs a task for the file.
   */
  function OutcomeAt(b: Batch, i: nat): (r: Outcome)
    requires i < |b.objects| <= |b.saveFileNames|
    ensures r.Runs? ==> r.task.exporter in b.exporters
    ensures r.Reported? ==> !r.event.Exported?
  {
    match b.objects[i]
    case None => Skipped
    case Some(obj) =>
      var saveFileName := b.saveFileNames[i];
      if obj.exportDisallowed then Skipped
      else if DirectoryCreationFails(b.host, saveFileName) then Reported(FailedToMakeDirectory(b.host.getPath(saveFileName)))
      else if b.host.isReadOnly(saveFileName) then Reported(CouldntWriteToFile(saveFileName))
      else
        match ChosenAt(b, i, obj)
        case None => Skipped
        case Some(e) =>
          ValidExportersExact(b.exporters, obj, b.host.getExtension(saveFileName));
          Runs(TaskFor(obj, e, saveFileName))
  }

  /**
   * One pass of the loop body for the object at position `i`. An exporter used for the
   * first time has its flags cleared before its task runs (lines 110-117); the batch
   * stops when the exporter comes back from its export task in batch mode with the batch
   * cancelled (lines 134-138).
   */
  function Step(b: Batch, i: nat, st: LoopState): (r: LoopState)
    requires i < |b.objects| <= |b.saveFileNames|
    requires WellFormed(b, st)
    ensures WellFormed(b, r)
  {
    match OutcomeAt(b, i)
    case Skipped => st
    case Reported(event) => st.(events := st.events + [event])
    case Runs(task) =>
      var e := task.exporter;
      var before := if e in st.used then st.flags[e] else ClearedFlags;
      var after := b.runTask(i, task, before);
      LoopState(
        if e in st.used then st.used else st.used + [e],
        st.flags[e := after],
        st.events + [Exported(i, task)],
        after.batchMode && after.cancelBatch)
  }

  /** The state after the first `n` objects, or at the cancellation if that came earlier. */
  function Run(b: Batch, n: nat): (st: LoopState)
    requires n <= |b.objects| <= |b.saveFileNames|
    ensures WellFormed(b, st)
  {
    if n == 0 then LoopState([], map[], [], false)
    else
      var prev := Run(b, n - 1);
      if prev.stopped then prev else Step(b, n - 1, prev)
  }

  /** Once the batch is cancelled nothing more happens. */
  lemma {:induction false} StopIsFinal(b: Batch, m: nat, n: nat)
    requires m <= n <= |b.objects| <= |b.saveFileNames|
    requires Run(b, m).stopped
    ensures Run(b, n) == Run(b, m)
  {
    if n > m {
      StopIsFinal(b, m, n - 1);
    }
  }

  /**
   * The object at position `i` is exported with task `t` exactly when the batch reached
   * it uncancelled, the object is present, its package allows export, its directory
   * could be made, its file is writable, an exporter was chosen for it, and `t` is the
   * task for that object, that exporter and that file.
   */
  lemma {:induction false} ExportedExactly(b: Batch, n: nat, i: nat, t: ExportTask)
    requires n <= |b.objects| <= |b.saveFileNames|
    ensures Exported(i, t) in Run(b, n).events <==>
      && i < n
      && !Run(b, i).stopped
      && b.objects[i].Some?
      && !b.objects[i].value.exportDisallowed
      && !DirectoryCreationFails(b.host, b.saveFileNames[i])
      && !b.host.isReadOnly(b.saveFileNames[i])
      && ChosenAt(b, i, b.objects[i].value) == Some(t.exporter)
      && t == TaskFor(b.objects[i].value, t.exporter, b.saveFileNames[i])
  {
    if n > 0 {
      ExportedExactly(b, n - 1, i, t);
    }
  }

  /** No export task runs for any object at or after the point where the batch was cancelled. */
  lemma NoExportAfterCancel(b: Batch, m: nat, n: nat, i: nat, t: ExportTask)
    requires m <= i && n <= |b.objects| <= |b.saveFileNames|
    requires m <= |b.objects| && Run(b, m).stopped
    ensures Exported(i, t) !in Run(b, n).events
  {
    ExportedExactly(b, n, i, t);
    if i < n {
      StopIsFinal(b, m, i);
    }
  }

  /** An exporter is in `UsedExporters` exactly when some export task ran with it. */
  lemma {:induction false} UsedAreTheChosen(b: Batch, n: nat, e: Exporter)
    requires n <= |b.objects| <= |b.saveFileNames|
    ensures var st := Run(b, n);
      e in st.used <==> exists k :: 0 <= k < |st.events| && st.events[k].Exported? && st.events[k].task.exporter == e
  {
    if n > 0 {
      UsedAreTheChosen(b, n - 1, e);
      var prev, st := Run(b, n - 1), Run(b, n);
      if !prev.stopped {
        var outcome := OutcomeAt(b, n - 1);
        var added := if outcome.Runs? then [Exported(n - 1, outcome.task)] else if outcome.Reported? then [outcome.event] else [];
        assert st.events == prev.events + added;
        assert e in st.used <==> e in prev.used || (outcome.Runs? && outcome.task.exporter == e);
        if e in prev.used {
          var k :| 0 <= k < |prev.events| && prev.events[k].Exported? && prev.events[k].task.exporter == e;
          assert st.events[k] == prev.events[k];
        }
        if outcome.Runs? && outcome.task.exporter == e {
          assert st.events[|prev.events|] == Exported(n - 1, outcome.task);
        }
      }
    }
  }

  /** Lines 141-148: every used exporter gets its three flags cleared. */
  method ResetExporters(exporters: seq<Exporter>, usedExporters: seq<Exporter>)
    requires forall e :: e in usedExporters ==> e in exporters
    modifies exporters
    ensures forall e :: e in usedExporters ==> e.CurrentFlags() == ClearedFlags
    ensures forall e :: e in exporters && e !in usedExporters ==> e.CurrentFlags() == old(e.CurrentFlags())
  {
    for k := 0 to |usedExporters|
      invariant forall j :: 0 <= j < k ==> usedExporters[j].CurrentFlags() == ClearedFlags
      invariant forall e :: e in exporters && e !in usedExporters ==> e.CurrentFlags() == old(e.CurrentFlags())
    {
      var usedExporter := usedExporters[k];
      assert usedExporter in exporters;
      usedExporter.SetFlags(ClearedFlags);
    }
  }

  /**
   * Lines 36-139, the loop body for the object at position `index`: it leaves the used
   * exporters, the events and the flags as `Step` describes, and reports whether the
   * batch was cancelled.
   */
  method ExportObjectAt(b: Batch, index: nat, usedExporters: seq<Exporter>, events: seq<Event>)
    returns (usedAfter: seq<Exporter>, eventsAfter: seq<Event>, cancelled: bool)
    requires index < |b.objects| <= |b.saveFileNames|
    requires !Run(b, index).stopped
    requires usedExporters == Run(b, index).used && events == Run(b, index).events
    requires forall e :: e in usedExporters ==> e.CurrentFlags() == Run(b, index).flags[e]
    modifies b.exporters
    ensures var next := Run(b, index + 1);
      && usedAfter == next.used && eventsAfter == next.events && cancelled == next.stopped
      && (forall e :: e in usedExporters ==> e in usedAfter)
      && (forall e :: e in usedAfter ==> e.CurrentFlags() == next.flags[e])
      && (forall e :: e in b.exporters && e !in usedAfter ==> e.CurrentFlags() == old(e.CurrentFlags()))
  {
    usedAfter, eventsAfter, cancelled := usedExporters, events, false;
    var objectToExport := b.objects[index];
    if objectToExport.None? {
      assert OutcomeAt(b, index) == Skipped;
      return;
    }
    var obj := objectToExport.value;
    if obj.exportDisallowed {
      assert OutcomeAt(b, index) == Skipped;
      return;
    }
    var saveFileName := b.saveFileNames[index];
    var objectExportPath := b.host.getPath(saveFileName);
    var fileInSubdirectory := '/' in objectExportPath;
    if fileInSubdirectory && !b.host.makeDirectory(objectExportPath) {
      assert OutcomeAt(b, index) == Reported(FailedToMakeDirectory(objectExportPath));
      eventsAfter := events + [FailedToMakeDirectory(objectExportPath)];
    } else if b.host.isReadOnly(saveFileName) {
      assert OutcomeAt(b, index) == Reported(CouldntWriteToFile(saveFileName));
      eventsAfter := events + [CouldntWriteToFile(saveFileName)];
    } else {
      var validExporters := FindValidExporters(b.exporters, obj, saveFileName, b.host);
      var exporterToUse := ChooseExporter(validExporters, obj.exporterName);
      assert exporterToUse == ChosenAt(b, index, obj);
      if exporterToUse.Some? {
        var exporter := exporterToUse.value;
        var task := TaskFor(obj, exporter, saveFileName);
        assert OutcomeAt(b, index) == Runs(task);
        ghost var st := Run(b, index);
        ghost var before := if exporter in st.used then st.flags[exporter] else ClearedFlags;
        if exporter !in usedExporters {
          exporter.SetFlags(ClearedFlags);
          usedAfter := usedExporters + [exporter];
        }
        assert exporter.CurrentFlags() == before;
        var after := b.runTask(index, task, exporter.CurrentFlags());
        exporter.SetFlags(after);
        eventsAfter := events + [Exported(index, task)];
        cancelled := exporter.batchMode && exporter.cancelBatch;
      } else {
        assert OutcomeAt(b, index) == Skipped;
      }
    }
  }

  /**
   * Lines 18-157. The events are those of `Run` over all objects. Every used exporter
   * ends with its three flags cleared; every other exporter keeps the flags it had.
   */
  method ExportObjects(
    objectsToExport: seq<Option<Asset>>, saveFileNameList: seq<string>, exporters: seq<Exporter>,
    host: Host, runTask: (nat, ExportTask, Flags) -> Flags)
    returns (events: seq<Event>)
    requires |objectsToExport| <= |saveFileNameList|
    modifies exporters
    ensures var final := Run(Batch(objectsToExport, saveFileNameList, exporters, host, runTask), |objectsToExport|);
      && events == final.events
      && (forall e :: e in final.used ==> e.CurrentFlags() == ClearedFlags)
      && (forall e :: e in exporters && e !in final.used ==> e.CurrentFlags() == old(e.CurrentFlags()))
  {
    var b := Batch(objectsToExport, saveFileNameList, exporters, host, runTask);
    ghost var n := |objectsToExport|;
    ghost var final := Run(b, n);
    var usedExporters: seq<Exporter> := [];
    events := [];
    for index := 0 to |objectsToExport|
      invariant !Run(b, index).stopped
      invariant usedExporters == Run(b, index).used && events == Run(b, index).events
      invariant forall e :: e in usedExporters ==> e.CurrentFlags() == Run(b, index).flags[e]
      invariant forall e :: e in exporters && e !in usedExporters ==> e.CurrentFlags() == old(e.CurrentFlags())
    {
      var cancelled;
      usedExporters, events, cancelled := ExportObjectAt(b, index, usedExporters, events);
      if cancelled {
        StopIsFinal(b, index + 1, n);
        assert usedExporters == final.used && events == final.events;
        break;
      }
    }
    assert usedExporters == final.used && events == final.events;
    ResetExporters(exporters, usedExporters);
    usedExporters := [];
  }

}
