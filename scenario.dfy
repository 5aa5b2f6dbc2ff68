/**
 * A worked example of the metadata export: one wall with one mesh component whose
 * build data resolves.
 */
module Scenario {

  import opened Wrappers
  import opened Platform
  import opened Json
  import opened LightmapJson
  import opened LightmapInfo

  const Identity: Vector4<real> := Vector4(0.0, 0.0, 0.0, 1.0)

  const WallLightmap: LightMap2D<real> := LightMap2D(
    "Lightmap_HQ", "Lightmap_LQ", Vector2(1.0, 1.0), Vector2(0.0, 0.0),
    Coefficients(Identity, Identity, Identity, Identity), Coefficients(Identity, Identity, Identity, Identity))

  const Body: Component := Component("Body", true, Some(StaticMeshData([LodInfo(Guid("LOD0"))], 256)))

  const Wall: Actor := Actor("Wall_01", Guid("ABCD"), [Some(Body)])

  const WallRegistry: Registry<real> := map[Guid("LOD0") := WallLightmap]

  const WallWorld: World<real> := World("Level", Level([Some(Wall)], Some(WallRegistry)))

  const WallEntry: Value<real> := ComponentEntry("Body", Guid("LOD0"), 256, WallLightmap)

  const WallDocument: Value<real> := ActorDocument("Wall_01", Guid("ABCD"), [WallEntry])

  /** `Body` contributes the only entry of the wall. */
  lemma WallEntries()
    ensures ComponentEntries(Wall.components, WallRegistry) == [WallEntry]
  {
    assert Contributes(Some(Body), WallRegistry);
    assert [Some(Body)][..0] == [];
  }

  /** The wall's is the only document, and it goes to `Wall_01.json`. */
  lemma WallWrites(exportPath: string, host: Host)
    requires host.directoryExists(exportPath)
    ensures WorldWrites(Some(WallWorld), exportPath, host) == [FileWrite(host.combine(exportPath, "Wall_01.json"), WallDocument)]
  {
    WallEntries();
    assert DocumentFor(Some(Wall), WallRegistry) == Some(WallDocument);
    assert [Some(Wall)][..0] == [];
    assert Wall.name + ".json" == "Wall_01.json";
    assert WriteOf(WallRegistry, exportPath, host)(Some(Wall)) == Some(FileWrite(host.combine(exportPath, "Wall_01.json"), WallDocument));
  }

  /** The wall's document reads back to the wall and the record of `Body`. */
  lemma WallDocumentDecodes()
    ensures DecodeActorDocument(WallDocument)
      == Some(ActorRecord("Wall_01", Guid("ABCD"), [ComponentRecord("Body", Guid("LOD0"), 256, WallLightmap)]))
  {
    ComponentEntryRoundTrip("Body", Guid("LOD0"), 256, WallLightmap);
    ActorDocumentDecodes("Wall_01", Guid("ABCD"), [WallEntry], [ComponentRecord("Body", Guid("LOD0"), 256, WallLightmap)]);
  }

  /**
   * Exactly one file, `Wall_01.json`, is written. It names the actor and its GUID and holds
   * one entry, for `Body`, with lightmap size 256, `CoordScaleBias` `[1, 1, 0, 0]` and every
   * coefficient field `[0, 0, 0, 1]`.
   */
  lemma WallExport(exportPath: string, host: Host)
    requires host.directoryExists(exportPath)
    ensures var writes := WorldWrites(Some(WallWorld), exportPath, host);
      && |writes| == 1
      && writes[0].fileName == host.combine(exportPath, "Wall_01.json")
      && DecodeActorDocument(writes[0].document)
         == Some(ActorRecord("Wall_01", Guid("ABCD"), [ComponentRecord("Body", Guid("LOD0"), 256, WallLightmap)]))
    ensures var entry := WallEntry.fields;
      && IntegerField(entry, LightmapSize) == Some(256)
      && VectorField(entry, CoordScaleBias) == Some(Vector4(1.0, 1.0, 0.0, 0.0))
      && VectorField(entry, HQLightmapScale0) == Some(Identity) && VectorField(entry, HQLightmapScale1) == Some(Identity)
      && VectorField(entry, HQLightmapAdd0) == Some(Identity) && VectorField(entry, HQLightmapAdd1) == Some(Identity)
      && VectorField(entry, LQLightmapScale0) == Some(Identity) && VectorField(entry, LQLightmapScale1) == Some(Identity)
      && VectorField(entry, LQLightmapAdd0) == Some(Identity) && VectorField(entry, LQLightmapAdd1) == Some(Identity)
  {
    WallWrites(exportPath, host);
    WallDocumentDecodes();
    ComponentEntryHeaderFields("Body", Guid("LOD0"), 256, WallLightmap);
    ComponentEntryScaleBiasField("Body", Guid("LOD0"), 256, WallLightmap);
    ComponentEntryHighQualityFields("Body", Guid("LOD0"), 256, WallLightmap);
    ComponentEntryLowQualityFields("Body", Guid("LOD0"), 256, WallLightmap);
  }

}
