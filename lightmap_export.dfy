/**
 * The editor action that exports a world's lightmaps
 * (`ULightmapExportFunctionLibrary::ExportLightmap`): one image file per distinct
 * lightmap texture name, then the per-actor metadata documents.
 */
module LightmapExport {

  import opened Wrappers
  import opened Strings
  import opened Sequences
  import opened Platform
  import opened AssetExport
  import opened LightmapInfo

  /** `FPaths::Combine(ExportPath, Obj->GetName() + ".png")`. */
  function LightmapFileName(exportPath: string, obj: Asset, host: Host): string
  {
    host.combine(exportPath, obj.name + ".png")
  }

  /** `TArray<FString>::Contains`: `FString` equality ignores case. */
  predicate ContainsIgnoreCase(names: seq<string>, name: string)
  {
    exists k :: 0 <= k < |names| && EqualsIgnoreCase(names[k], name)
  }

  /**
   * What the de-duplication loop collects: the objects to export, their file names, and
   * (for the proofs) the position in the texture list that each object came from.
   */
  datatype Collection = Collection(objs: seq<Asset>, names: seq<string>, origin: seq<nat>)

  /** The collection after the loop has seen the textures `all`, in order. */
  function Collect(all: seq<Option<Asset>>, exportPath: string, host: Host): (c: Collection)
    ensures |c.objs| == |c.names| == |c.origin|
    ensures forall k :: 0 <= k < |c.origin| ==> c.origin[k] < |all| && all[c.origin[k]] == Some(c.objs[k])
    ensures forall k :: 0 <= k < |c.names| ==> c.names[k] == LightmapFileName(exportPath, c.objs[k], host)
  {
    if |all| == 0 then Collection([], [], [])
    else
      var c := Collect(all[..|all| - 1], exportPath, host);
      match all[|all| - 1]
      case None => c
      case Some(obj) =>
        var name := LightmapFileName(exportPath, obj, host);
        if ContainsIgnoreCase(c.names, name) then c
        else Collection(c.objs + [obj], c.names + [name], c.origin + [|all| - 1])
  }

  /** The texture at position `i` is present and no earlier present texture has the same file name, ignoring case. */
  predicate FirstOfItsName(all: seq<Option<Asset>>, i: nat, exportPath: string, host: Host)
    requires i < |all|
  {
    && all[i].Some?
    && forall j :: 0 <= j < i && all[j].Some? ==>
         !EqualsIgnoreCase(LightmapFileName(exportPath, all[j].value, host), LightmapFileName(exportPath, all[i].value, host))
  }

  /** Each step of the loop only appends: the collection of a prefix is a prefix of the collection. */
  lemma CollectExtends(all: seq<Option<Asset>>, exportPath: string, host: Host)
    requires |all| > 0
    ensures var cf, c := Collect(all[..|all| - 1], exportPath, host), Collect(all, exportPath, host);
      && |cf.names| <= |c.names| && c.names[..|cf.names|] == cf.names
      && c.origin[..|cf.origin|] == cf.origin
      && (|c.names| == |cf.names| || (|c.names| == |cf.names| + 1 && c.origin[|cf.origin|] == |all| - 1))
  {
  }

  lemma ContainsInExtension(names: seq<string>, longer: seq<string>, name: string)
    requires |names| <= |longer| && longer[..|names|] == names
    requires ContainsIgnoreCase(names, name)
    ensures ContainsIgnoreCase(longer, name)
  {
    var k :| 0 <= k < |names| && EqualsIgnoreCase(names[k], name);
    assert longer[k] == names[k];
  }

  /** The name of every present texture is among the collected names, up to case. */
  lemma {:induction false} CollectCoversAllNames(all: seq<Option<Asset>>, exportPath: string, host: Host)
    ensures forall i :: 0 <= i < |all| && all[i].Some? ==>
      ContainsIgnoreCase(Collect(all, exportPath, host).names, LightmapFileName(exportPath, all[i].value, host))
  {
    if |all| > 0 {
      var n := |all| - 1;
      var front := all[..n];
      CollectCoversAllNames(front, exportPath, host);
      CollectExtends(all, exportPath, host);
      var cf, c := Collect(front, exportPath, host), Collect(all, exportPath, host);
      forall i | 0 <= i < |all| && all[i].Some?
        ensures ContainsIgnoreCase(c.names, LightmapFileName(exportPath, all[i].value, host))
      {
        var name := LightmapFileName(exportPath, all[i].value, host);
        if i < n {
          assert front[i] == all[i];
          ContainsInExtension(cf.names, c.names, name);
        } else if ContainsIgnoreCase(cf.names, name) {
          ContainsInExtension(cf.names, c.names, name);
        } else {
          assert c.names[|cf.names|] == name;
        }
      }
    }
  }

  /** No two collected names are equal, even ignoring case. */
  lemma {:induction false} CollectNamesDifferIgnoringCase(all: seq<Option<Asset>>, exportPath: string, host: Host)
    ensures var names := Collect(all, exportPath, host).names;
      forall k, l :: 0 <= k < l < |names| ==> !EqualsIgnoreCase(names[k], names[l])
  {
    if |all| > 0 {
      var n := |all| - 1;
      CollectNamesDifferIgnoringCase(all[..n], exportPath, host);
      CollectExtends(all, exportPath, host);
      var cf, c := Collect(all[..n], exportPath, host), Collect(all, exportPath, host);
      forall k, l | 0 <= k < l < |c.names|
        ensures !EqualsIgnoreCase(c.names[k], c.names[l])
      {
        assert c.names[k] == cf.names[k];
        if l < |cf.names| {
          assert c.names[l] == cf.names[l];
        }
      }
    }
  }

  /** Whether a texture is the first of its name depends only on the textures up to it. */
  lemma FirstOfItsNameInPrefix(all: seq<Option<Asset>>, m: nat, i: nat, exportPath: string, host: Host)
    requires i < m <= |all|
    ensures FirstOfItsName(all[..m], i, exportPath, host) <==> FirstOfItsName(all, i, exportPath, host)
  {
    assert forall j :: 0 <= j <= i ==> all[..m][j] == all[j];
  }

  /** The last texture's name was collected before exactly when an earlier present texture has it, up to case. */
  lemma SeenBeforeIffNotFirst(all: seq<Option<Asset>>, exportPath: string, host: Host)
    requires |all| > 0 && all[|all| - 1].Some?
    ensures var n := |all| - 1;
      ContainsIgnoreCase(Collect(all[..n], exportPath, host).names, LightmapFileName(exportPath, all[n].value, host))
      <==> !FirstOfItsName(all, n, exportPath, host)
  {
    var n := |all| - 1;
    var front := all[..n];
    var cf := Collect(front, exportPath, host);
    var name := LightmapFileName(exportPath, all[n].value, host);
    if ContainsIgnoreCase(cf.names, name) {
      var k :| 0 <= k < |cf.names| && EqualsIgnoreCase(cf.names[k], name);
      assert all[cf.origin[k]] == front[cf.origin[k]];
    } else {
      CollectCoversAllNames(front, exportPath, host);
      forall j | 0 <= j < n && all[j].Some?
        ensures !EqualsIgnoreCase(LightmapFileName(exportPath, all[j].value, host), name)
      {
        assert front[j] == all[j];
        var k :| 0 <= k < |cf.names| && EqualsIgnoreCase(cf.names[k], LightmapFileName(exportPath, all[j].value, host));
        EqualsIgnoreCaseIsEquivalence(cf.names[k], LightmapFileName(exportPath, all[j].value, host), name);
      }
    }
  }

  /**
   * The loop keeps, in order, exactly the first texture of each file name: the kept
   * positions increase, and a position is kept exactly when its texture is present and
   * no earlier present texture has its name, up to case.
   */
  lemma {:induction false} CollectKeepsFirstOccurrences(all: seq<Option<Asset>>, exportPath: string, host: Host)
    ensures var origin := Collect(all, exportPath, host).origin;
      && StrictlyIncreasing(origin)
      && forall i :: 0 <= i < |all| ==> (i in origin <==> FirstOfItsName(all, i, exportPath, host))
  {
    if |all| > 0 {
      var n := |all| - 1;
      var front := all[..n];
      CollectKeepsFirstOccurrences(front, exportPath, host);
      CollectExtends(all, exportPath, host);
      var cf, c := Collect(front, exportPath, host), Collect(all, exportPath, host);
      assert c.origin == cf.origin || c.origin == cf.origin + [n];
      forall i | 0 <= i < n
        ensures i in c.origin <==> FirstOfItsName(all, i, exportPath, host)
      {
        FirstOfItsNameInPrefix(all, n, i, exportPath, host);
      }
      if all[n].Some? {
        SeenBeforeIffNotFirst(all, exportPath, host);
      }
    }
  }

  /** The collected file names contain no duplicates. */
  lemma CollectNamesAreDistinct(all: seq<Option<Asset>>, exportPath: string, host: Host)
    ensures NoDuplicates(Collect(all, exportPath, host).names)
  {
    var c := Collect(all, exportPath, host);
    CollectNamesDifferIgnoringCase(all, exportPath, host);
    forall k, l | 0 <= k < l < |c.names|
      ensures c.names[k] != c.names[l]
    {
      EqualsIgnoreCaseIsEquivalence(c.names[k], c.names[l], c.names[l]);
    }
  }

  /** Lines 179-193: the two parallel arrays handed to `ExportObjects`. */
  method CollectLightmapsToExport(allLightmaps: seq<Option<Asset>>, exportPath: string, host: Host)
    returns (lightmapObjs: seq<Asset>, lightmapNames: seq<string>)
    ensures lightmapObjs == Collect(allLightmaps, exportPath, host).objs
    ensures lightmapNames == Collect(allLightmaps, exportPath, host).names
  {
    lightmapObjs, lightmapNames := [], [];
    for i := 0 to |allLightmaps|
      invariant lightmapObjs == Collect(allLightmaps[..i], exportPath, host).objs
      invariant lightmapNames == Collect(allLightmaps[..i], exportPath, host).names
    {
      assert allLightmaps[..i + 1][..i] == allLightmaps[..i];
      var lightmap := allLightmaps[i];
      if lightmap.Some? {
        var obj := lightmap.value;
        var objExportName := host.combine(exportPath, obj.name + ".png");
        if !ContainsIgnoreCase(lightmapNames, objExportName) {
          lightmapNames := lightmapNames + [objExportName];
          lightmapObjs := lightmapObjs + [obj];
        }
      }
    }
    assert allLightmaps[..|allLightmaps|] == allLightmaps;
  }

  /** The collected objects as the object-pointer array `ExportObjects` takes; none of them is null. */
  function AsPointers(objs: seq<Asset>): (r: seq<Option<Asset>>)
    ensures |r| == |objs|
    ensures forall i :: 0 <= i < |objs| ==> r[i] == Some(objs[i])
  {
    seq(|objs|, i requires 0 <= i < |objs| => Some(objs[i]))
  }

  /** `SelectedDirectory / World->GetName()`. */
  function ExportPathFor<N>(selectedDirectory: string, world: World<N>, host: Host): string
  {
    host.combine(selectedDirectory, world.name)
  }

  /**
   * Lines 159-197. `selectedDirectory` is the result of the directory prompt (`None` when
   * the user cancels it) and `allLightmaps` what `GetLightMapsAndShadowMaps` returns.
   * `directoryExistsAfter` is `FPaths::DirectoryExists` once the textures are written:
   * exporting them may have created the export directory.
   * A cancelled prompt does nothing. Otherwise the first texture of each name goes to
   * `ExportObjects`, and then the metadata is written under the same export path.
   */
  method ExportLightmap<N>(
    world: World<N>, selectedDirectory: Option<string>, allLightmaps: seq<Option<Asset>>,
    exporters: seq<Exporter>, host: Host, runTask: (nat, ExportTask, Flags) -> Flags,
    directoryExistsAfter: string -> bool)
    returns (events: seq<Event>, writes: seq<FileWrite<N>>)
    requires selectedDirectory.Some? ==>
      RegistryDereferenceSafe(Some(world), ExportPathFor(selectedDirectory.value, world, host), host.(directoryExists := directoryExistsAfter))
    modifies exporters
    ensures selectedDirectory.None? ==> events == [] && writes == []
    ensures selectedDirectory.None? ==> forall e :: e in exporters ==> e.CurrentFlags() == old(e.CurrentFlags())
    ensures selectedDirectory.Some? ==>
      var exportPath := ExportPathFor(selectedDirectory.value, world, host);
      var c := Collect(allLightmaps, exportPath, host);
      var final := Run(Batch(AsPointers(c.objs), c.names, exporters, host, runTask), |c.objs|);
      && events == final.events
      && (forall e :: e in final.used ==> e.CurrentFlags() == ClearedFlags)
      && (forall e :: e in exporters && e !in final.used ==> e.CurrentFlags() == old(e.CurrentFlags()))
      && writes == WorldWrites(Some(world), exportPath, host.(directoryExists := directoryExistsAfter))
  {
    events, writes := [], [];
    if selectedDirectory.None? {
      return;
    }
    var exportPath := host.combine(selectedDirectory.value, world.name);
    var lightmapObjs, lightmapNames := CollectLightmapsToExport(allLightmaps, exportPath, host);
    events := ExportObjects(AsPointers(lightmapObjs), lightmapNames, exporters, host, runTask);
    writes := ExportPrimitiveLightmapInfoInWorld(Some(world), exportPath, host.(directoryExists := directoryExistsAfter));
  }

}
