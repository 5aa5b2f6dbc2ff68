/**
 * Per-actor lightmap metadata: which components of a level contribute an entry, what each
 * entry holds, and which JSON documents are written
 * (`ULightmapExportFunctionLibrary::ExportPrimitiveLightmapInfoInWorld`).
 */
module LightmapInfo {

  import opened Wrappers
  import opened Sequences
  import opened Platform
  import opened Json
  import opened LightmapJson

  datatype LodInfo = LodInfo(mapBuildDataId: Guid)

  datatype StaticMeshData = StaticMeshData(lodData: seq<LodInfo>, staticLightMapResolution: int)

  /**
   * An actor component. `isPrimitive` is `IsA(UPrimitiveComponent)`; `staticMesh` is the
   * result of `Cast<UStaticMeshComponent>`.
   */
  datatype Component = Component(name: string, isPrimitive: bool, staticMesh: Option<StaticMeshData>)

  datatype Actor = Actor(name: string, guid: Guid, components: seq<Option<Component>>)

  datatype Level<N> = Level(actors: seq<Option<Actor>>, mapBuildData: Option<Registry<N>>)

  datatype World<N> = World(name: string, persistentLevel: Level<N>)

  /** A file the exporter writes: its name and the document serialised into it. */
  datatype FileWrite<N> = FileWrite(fileName: string, document: Value<N>)

  // ---------------------------------------------------------------------------
  // Which components contribute an entry

  /** The component passes the checks at lines 230-244 and its registry lookup runs. */
  predicate ReachesLookup(c: Option<Component>)
  {
    c.Some? && c.value.isPrimitive && c.value.staticMesh.Some? && |c.value.staticMesh.value.lodData| > 0
  }

  /** `LODData[0].MapBuildDataId`. */
  function LodZeroId(c: Option<Component>): Guid
    requires ReachesLookup(c)
  {
    c.value.staticMesh.value.lodData[0].mapBuildDataId
  }

  /** The component yields an entry: it reaches the lookup and the lookup succeeds. */
  predicate Contributes<N>(c: Option<Component>, registry: Registry<N>)
  {
    ReachesLookup(c) && LodZeroId(c) in registry
  }

  /** What the entry of a contributing component records. */
  function RecordFor<N>(c: Option<Component>, registry: Registry<N>): ComponentRecord<N>
    requires Contributes(c, registry)
  {
    ComponentRecord(c.value.name, LodZeroId(c), c.value.staticMesh.value.staticLightMapResolution, registry[LodZeroId(c)])
  }

  function EntryFor<N>(c: Option<Component>, registry: Registry<N>): Value<N>
    requires Contributes(c, registry)
  {
    var r := RecordFor(c, registry);
    ComponentEntry(r.name, r.buildDataId, r.lightmapSize, r.lightmap)
  }

  /** The entry a component slot yields, if any. */
  function EntryOf<N>(registry: Registry<N>): Option<Component> -> Option<Value<N>>
  {
    c => if Contributes(c, registry) then Some(EntryFor(c, registry)) else None
  }

  /** The entries the inner loop of lines 228-288 collects, in component order. */
  function ComponentEntries<N>(comps: seq<Option<Component>>, registry: Registry<N>): seq<Value<N>>
  {
    FilterMap(comps, EntryOf(registry))
  }

  /** The positions, in increasing order, of the components that contribute. */
  function ContributingIndices<N>(comps: seq<Option<Component>>, registry: Registry<N>): seq<nat>
  {
    KeptIndices(KeptMask(comps, EntryOf(registry)))
  }

  /**
   * The entries are those of exactly the contributing components, each once and in
   * component order: entry `k` belongs to the `k`-th contributing component.
   */
  lemma ComponentEntriesAreContributions<N>(comps: seq<Option<Component>>, registry: Registry<N>)
    ensures var entries, kept := ComponentEntries(comps, registry), ContributingIndices(comps, registry);
      && |entries| == |kept|
      && StrictlyIncreasing(kept)
      && (forall i :: 0 <= i < |comps| ==> (i in kept <==> Contributes(comps[i], registry)))
      && (forall k :: 0 <= k < |entries| ==>
            kept[k] < |comps| && Contributes(comps[kept[k]], registry) && entries[k] == EntryFor(comps[kept[k]], registry))
  {
    FilterMapAt(comps, EntryOf(registry));
  }

  /** An actor has no entries exactly when none of its components contributes. */
  lemma ComponentEntriesEmpty<N>(comps: seq<Option<Component>>, registry: Registry<N>)
    ensures ComponentEntries(comps, registry) == [] <==> forall i :: 0 <= i < |comps| ==> !Contributes(comps[i], registry)
  {
    FilterMapEmpty(comps, EntryOf(registry));
  }

  // ---------------------------------------------------------------------------
  // Documents and the files they are written to

  /**
   * An actor's document reads back to the actor's name and GUID and, in component order,
   * the record of every contributing component.
   */
  lemma ActorDocumentRoundTrip<N>(actor: Actor, registry: Registry<N>)
    ensures var kept := ContributingIndices(actor.components, registry);
      var decoded := DecodeActorDocument(ActorDocument(actor.name, actor.guid, ComponentEntries(actor.components, registry)));
      && decoded.Some? && decoded.value.name == actor.name && decoded.value.guid == actor.guid
      && |decoded.value.components| == |kept|
      && forall k :: 0 <= k < |kept| ==>
           kept[k] < |actor.components| && Contributes(actor.components[kept[k]], registry)
           && decoded.value.components[k] == RecordFor(actor.components[kept[k]], registry)
  {
    var comps := actor.components;
    var entries := ComponentEntries(comps, registry);
    var kept := ContributingIndices(comps, registry);
    ComponentEntriesAreContributions(comps, registry);
    forall k | 0 <= k < |entries|
      ensures DecodeComponentEntry(entries[k]) == Some(RecordFor(comps[kept[k]], registry))
    {
      var r := RecordFor(comps[kept[k]], registry);
      ComponentEntryRoundTrip(r.name, r.buildDataId, r.lightmapSize, r.lightmap);
    }
    ActorDocumentFields(actor.name, actor.guid, entries);
  }

  /** The document written for an actor slot, if any: only a present actor with entries has one. */
  function DocumentFor<N>(a: Option<Actor>, registry: Registry<N>): Option<Value<N>>
  {
    if a.Some? && ComponentEntries(a.value.components, registry) != []
    then Some(ActorDocument(a.value.name, a.value.guid, ComponentEntries(a.value.components, registry)))
    else None
  }

  /** An actor slot has a document exactly when it holds an actor with at least one contributing component. */
  lemma DocumentForIff<N>(a: Option<Actor>, registry: Registry<N>)
    ensures DocumentFor(a, registry).Some? <==>
      a.Some? && exists i :: 0 <= i < |a.value.components| && Contributes(a.value.components[i], registry)
  {
    if a.Some? {
      ComponentEntriesEmpty(a.value.components, registry);
    }
  }

  /** `FPaths::Combine(ExportPath, ActorName + ".json")`. */
  function DocumentFileName(exportPath: string, actor: Actor, host: Host): string
  {
    host.combine(exportPath, actor.name + ".json")
  }

  /** The file written for an actor slot, if any. */
  function WriteOf<N>(registry: Registry<N>, exportPath: string, host: Host): Option<Actor> -> Option<FileWrite<N>>
  {
    a => match DocumentFor(a, registry)
         case None => None
         case Some(doc) => Some(FileWrite(DocumentFileName(exportPath, a.value, host), doc))
  }

  /** The files the outer loop of lines 213-302 writes, in actor order. */
  function ActorWrites<N>(actors: seq<Option<Actor>>, registry: Registry<N>, exportPath: string, host: Host): seq<FileWrite<N>>
  {
    FilterMap(actors, WriteOf(registry, exportPath, host))
  }

  /**
   * One file is written per actor slot that has a document and none for any other, in
   * actor order: write `k` holds the document of the `k`-th such actor and goes to
   * `ExportPath/ActorName.json`.
   */
  lemma ActorWritesAreDocuments<N>(actors: seq<Option<Actor>>, registry: Registry<N>, exportPath: string, host: Host)
    ensures var writes, kept := ActorWrites(actors, registry, exportPath, host), KeptIndices(KeptMask(actors, WriteOf(registry, exportPath, host)));
      && |writes| == |kept|
      && StrictlyIncreasing(kept)
      && (forall i :: 0 <= i < |actors| ==> (i in kept <==> DocumentFor(actors[i], registry).Some?))
      && (forall k :: 0 <= k < |writes| ==>
            kept[k] < |actors| && DocumentFor(actors[kept[k]], registry).Some?
            && writes[k] == FileWrite(DocumentFileName(exportPath, actors[kept[k]].value, host), DocumentFor(actors[kept[k]], registry).value))
  {
    FilterMapAt(actors, WriteOf(registry, exportPath, host));
  }

  /** The registry of a level; a missing one is treated as empty, see `RegistryDereferenceSafe`. */
  function RegistryOf<N>(level: Level<N>): Registry<N>
  {
    if level.mapBuildData.Some? then level.mapBuildData.value else map[]
  }

  /** Everything `ExportPrimitiveLightmapInfoInWorld` writes. */
  function WorldWrites<N>(world: Option<World<N>>, exportPath: string, host: Host): seq<FileWrite<N>>
  {
    if world.None? || !host.directoryExists(exportPath) then []
    else ActorWrites(world.value.persistentLevel.actors, RegistryOf(world.value.persistentLevel), exportPath, host)
  }

  /**
   * The source dereferences the registry without a null check (line 255): a call is
   * defined when the registry is present or no component ever reaches the lookup.
   */
  predicate RegistryDereferenceSafe<N>(world: Option<World<N>>, exportPath: string, host: Host)
  {
    || world.None?
    || !host.directoryExists(exportPath)
    || world.value.persistentLevel.mapBuildData.Some?
    || forall a, c :: a in world.value.persistentLevel.actors && a.Some? && c in a.value.components ==> !ReachesLookup(c)
  }

  /**
   * Walks the actors of the persistent level, collects the entries of each actor's
   * contributing components and writes one document per actor that has any.
   * Writing a file is recorded in `writes`, in the order of the writes.
   */
  method ExportPrimitiveLightmapInfoInWorld<N>(world: Option<World<N>>, exportPath: string, host: Host)
    returns (writes: seq<FileWrite<N>>)
    requires RegistryDereferenceSafe(world, exportPath, host)
    ensures writes == WorldWrites(world, exportPath, host)
    ensures world.None? || !host.directoryExists(exportPath) ==> writes == []
  {
    writes := [];
    if world.None? {
      return;
    }
    if !host.directoryExists(exportPath) {
      return;
    }
    var level := world.value.persistentLevel;
    var mapBuildDataRegistry := level.mapBuildData;
    ghost var registry := RegistryOf(level);
    var actors := level.actors;
    for i := 0 to |actors|
      invariant writes == ActorWrites(actors[..i], registry, exportPath, host)
    {
      assert actors[..i + 1][..i] == actors[..i];
      var actor := actors[i];
      if actor.Some? {
        var jsonObject: map<Field, Value<N>> := map[];
        var actorName := actor.value.name;
        jsonObject := jsonObject[ActorName := JString(actorName)];
        jsonObject := jsonObject[ActorGuid := JString(actor.value.guid.text)];

        var jsonComponents: seq<Value<N>> := [];
        var comps := actor.value.components;
        for j := 0 to |comps|
          invariant jsonComponents == ComponentEntries(comps[..j], registry)
        {
          assert comps[..j + 1][..j] == comps[..j];
          var comp := comps[j];
          if comp.Some? && comp.value.isPrimitive && comp.value.staticMesh.Some?
             && |comp.value.staticMesh.value.lodData| > 0
          {
            var smComp := comp.value.staticMesh.value;
            var buildDataId := smComp.lodData[0].mapBuildDataId;
            assert ReachesLookup(comp) && actor in actors && comp in comps;
            var meshBuildData := mapBuildDataRegistry.value;
            if buildDataId in meshBuildData {
              var lightmap := meshBuildData[buildDataId];
              jsonComponents := jsonComponents + [ComponentEntry(comp.value.name, buildDataId, smComp.staticLightMapResolution, lightmap)];
            }
          }
        }
        assert comps[..|comps|] == comps;

        if |jsonComponents| > 0 {
          jsonObject := jsonObject[Components := JArray(jsonComponents)];
          assert JObject(jsonObject) == ActorDocument(actor.value.name, actor.value.guid, jsonComponents);
          writes := writes + [FileWrite(host.combine(exportPath, actorName + ".json"), JObject(jsonObject))];
        }
      }
    }
    assert actors[..|actors|] == actors;
  }

}
