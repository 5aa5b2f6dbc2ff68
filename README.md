# Lightmap export: a Dafny model

This project models the editor library behind the "export lightmaps" action of the
LightmapExport plugin (`ULightmapExportFunctionLibrary`), and proves properties of the
model. The action asks for a directory and builds an export path from it and the
world's name. It then does two things:

- It collects the world's lightmap and shadow-map textures, keeping the first texture
  of each `<name>.png` file name. It hands those textures to a batch exporter, which
  picks an exporter per texture and runs an export task.
- It walks the actors of the persistent level and writes one JSON document per actor.
  The document lists every static-mesh component whose build data resolves, together
  with the coefficients of its 2D lightmap.

The model has these modules:

- `Strings`: the engine's ASCII case-insensitive comparison (`FCString::Stricmp`,
  `FName` and `FString` equality).
- `Sequences`: order-preserving selection (`FilterMap`) and its index lemmas.
- `Platform`: the file-system and path queries of one call, as a `Host` of functions.
- `Json`: JSON values as trees.
- `LightmapJson`: the component entries and actor documents, with decoders that read
  them back.
- `LightmapInfo`: `ExportPrimitiveLightmapInfoInWorld`.
- `AssetExport`: `ExportObjects`. `Exporter` is a class whose three batch flags
  change in place.
- `LightmapExport`: `ExportLightmap` and its de-duplication loop.
- `Scenario`: a one-wall world worked through end to end.

The code is followed where its description differs from it. Two comparisons are
case-insensitive in the engine, although the behaviour is usually described as plain
equality:

- The preferred exporter is found by comparing `FName`s. `FName` equality ignores case.
- The de-duplication loop uses `TArray<FString>::Contains`. `FString` equality ignores
  case, so two textures whose file names differ only in letter case count as the same
  name, and only the first is exported.

Both are modelled with `Strings.EqualsIgnoreCase`.

All source paths below are in `Source/LightmapExport/Private/LightmapExportFunctionLibrary.cpp`.

## Model

| member | source | states |
|---|---|---|
| Strings.WildcardMatchesOnlyItself | Source/LightmapExport/Private/LightmapExportFunctionLibrary.cpp:74 | a case-insensitive comparison with `*` succeeds exactly for the string `*` |
| AssetExport.ExtensionMatchesIff | Source/LightmapExport/Private/LightmapExportFunctionLibrary.cpp:72-74 | a format extension accepts a file extension exactly when the two are equal ignoring case, or the format extension is `*` |
| AssetExport.ValidExportersExact | Source/LightmapExport/Private/LightmapExportFunctionLibrary.cpp:62-81 | the valid exporters keep the order of the exporter list; position `i` is kept exactly when its exporter supports the object and has a matching extension; no exporter is added twice for different extensions; membership is "in the list and valid"; no duplicates are created |
| AssetExport.FindValidExporters | Source/LightmapExport/Private/LightmapExportFunctionLibrary.cpp:62-81 | the nested loop with its `break` returns exactly the valid-exporter selection for the save file's extension |
| AssetExport.PreferredIndex | Source/LightmapExport/Private/LightmapExportFunctionLibrary.cpp:95-102 | the position of the first candidate whose class name is the object's exporter name, or the length when none is |
| AssetExport.Chosen | Source/LightmapExport/Private/LightmapExportFunctionLibrary.cpp:84-103 | no exporter exactly when there are no candidates; the chosen one is a candidate; it is the first preferred candidate, and the first candidate when none is preferred |
| AssetExport.ChooseExporter | Source/LightmapExport/Private/LightmapExportFunctionLibrary.cpp:84-103 | the branches on one or several candidates and the search loop return `Chosen` |
| AssetExport.OutcomeAt | Source/LightmapExport/Private/LightmapExportFunctionLibrary.cpp:36-131 | a task only ever runs with one of the batch's exporters; a reported error is never an export |
| AssetExport.Step | Source/LightmapExport/Private/LightmapExportFunctionLibrary.cpp:106-138 | one loop pass keeps `UsedExporters` free of duplicates and within the exporter list, with flags recorded for exactly the used exporters |
| AssetExport.Run | Source/LightmapExport/Private/LightmapExportFunctionLibrary.cpp:32-139 | the same invariant holds after any number of objects |
| AssetExport.StopIsFinal | Source/LightmapExport/Private/LightmapExportFunctionLibrary.cpp:132-136 | once the batch is cancelled, processing more objects changes nothing |
| AssetExport.ExportedExactly | Source/LightmapExport/Private/LightmapExportFunctionLibrary.cpp:36-130 | object `i` is exported with task `t` if and only if the loop reached it uncancelled, the object is non-null, export is allowed, its directory could be made, its file is not read-only, `t.exporter` is the chosen exporter, and `t` carries the object, the file name and the fixed options (not selected, replace identical, no prompt, file archive for packages, no empty files) |
| AssetExport.NoExportAfterCancel | Source/LightmapExport/Private/LightmapExportFunctionLibrary.cpp:132-136 | no task runs for an object at or after the cancellation |
| AssetExport.UsedAreTheChosen | Source/LightmapExport/Private/LightmapExportFunctionLibrary.cpp:110-117 | an exporter is in `UsedExporters` exactly when some export task ran with it |
| AssetExport.Exporter.SetFlags | Source/LightmapExport/Private/LightmapExportFunctionLibrary.cpp:112-114 | the exporter's batch mode, cancel-batch and show-options flags become the given ones |
| AssetExport.ResetExporters | Source/LightmapExport/Private/LightmapExportFunctionLibrary.cpp:141-148 | every used exporter ends with all three flags cleared; every other exporter keeps its flags |
| AssetExport.ExportObjectAt | Source/LightmapExport/Private/LightmapExportFunctionLibrary.cpp:36-137 | one loop pass moves the used list, the events and the exporters' flags from the state after `index` objects to the state after `index + 1`, and reports the cancellation |
| AssetExport.ExportObjects | Source/LightmapExport/Private/LightmapExportFunctionLibrary.cpp:18-157 | the events are those of `Run` over all objects; the used exporters end with cleared flags; the others keep their flags |
| LightmapExport.Collect | Source/LightmapExport/Private/LightmapExportFunctionLibrary.cpp:179-193 | the two arrays have equal length; each kept object is a non-null texture of the input; each name is `ExportPath/<object name>.png` |
| LightmapExport.CollectExtends | Source/LightmapExport/Private/LightmapExportFunctionLibrary.cpp:182-193 | each iteration leaves the arrays as they were or appends the current texture |
| LightmapExport.CollectCoversAllNames | Source/LightmapExport/Private/LightmapExportFunctionLibrary.cpp:184-191 | the file name of every non-null texture is among the collected names, up to case |
| LightmapExport.CollectNamesDifferIgnoringCase | Source/LightmapExport/Private/LightmapExportFunctionLibrary.cpp:187-191 | no two collected names are equal, even ignoring case |
| LightmapExport.CollectKeepsFirstOccurrences | Source/LightmapExport/Private/LightmapExportFunctionLibrary.cpp:182-193 | exactly the first non-null texture of each file name (up to case) is kept, in input order |
| LightmapExport.CollectNamesAreDistinct | Source/LightmapExport/Private/LightmapExportFunctionLibrary.cpp:187-191 | the collected names contain no duplicates |
| LightmapExport.CollectLightmapsToExport | Source/LightmapExport/Private/LightmapExportFunctionLibrary.cpp:179-193 | the loop returns the objects and the names of `Collect` |
| LightmapExport.ExportLightmap | Source/LightmapExport/Private/LightmapExportFunctionLibrary.cpp:159-197 | a cancelled prompt exports nothing and writes nothing; otherwise the events are those of the batch over the collected textures, the used exporters are reset, the others keep their flags, and the writes are those of the metadata export under `SelectedDirectory/WorldName` |
| LightmapJson.ConvertVectorToJsonArray | Source/LightmapExport/Private/LightmapExportFunctionLibrary.cpp:305-314 | four numbers that decode back to the vector |
| LightmapJson.JsonArrayToVectorIsInverse | Source/LightmapExport/Private/LightmapExportFunctionLibrary.cpp:305-314 | every array that decodes to a vector is the one the conversion builds from it |
| LightmapJson.ComponentEntryHeaderFields | Source/LightmapExport/Private/LightmapExportFunctionLibrary.cpp:247-253 | the entry holds the component's name, its LOD 0 build-data GUID and its lightmap resolution |
| LightmapJson.ComponentEntryScaleBiasField | Source/LightmapExport/Private/LightmapExportFunctionLibrary.cpp:264-266 | `CoordScaleBias` holds scale X, scale Y, bias X and bias Y |
| LightmapJson.ComponentEntryHighQualityFields | Source/LightmapExport/Private/LightmapExportFunctionLibrary.cpp:259-275 | the HQ fields name texture 0 and carry scale and add coefficients 0 and 1 |
| LightmapJson.ComponentEntryLowQualityFields | Source/LightmapExport/Private/LightmapExportFunctionLibrary.cpp:259-284 | the LQ fields name texture 1 and carry scale and add coefficients 2 and 3 |
| LightmapJson.ComponentEntryRoundTrip | Source/LightmapExport/Private/LightmapExportFunctionLibrary.cpp:246-286 | the entry decodes back to the component name, the GUID, the size and the whole lightmap |
| LightmapJson.ActorDocumentFields | Source/LightmapExport/Private/LightmapExportFunctionLibrary.cpp:222-292 | the document holds the actor name, the actor GUID and the entries as `Components` |
| LightmapJson.ActorDocumentDecodes | Source/LightmapExport/Private/LightmapExportFunctionLibrary.cpp:220-292 | a document decodes to its name, its GUID and the records its entries decode to |
| LightmapInfo.ComponentEntriesAreContributions | Source/LightmapExport/Private/LightmapExportFunctionLibrary.cpp:228-288 | the entries come from exactly the components that are non-null, primitive, static meshes with LOD data and whose build data is found, one each, in component order |
| LightmapInfo.ComponentEntriesEmpty | Source/LightmapExport/Private/LightmapExportFunctionLibrary.cpp:228-290 | an actor has no entries exactly when none of its components contributes |
| LightmapInfo.ActorDocumentRoundTrip | Source/LightmapExport/Private/LightmapExportFunctionLibrary.cpp:220-292 | an actor's document reads back to its name, its GUID and, in order, the record of each contributing component |
| LightmapInfo.DocumentForIff | Source/LightmapExport/Private/LightmapExportFunctionLibrary.cpp:213-292 | an actor slot has a document exactly when it is non-null and has a contributing component |
| LightmapInfo.ActorWritesAreDocuments | Source/LightmapExport/Private/LightmapExportFunctionLibrary.cpp:213-302 | one file is written per actor with a document and none otherwise, in actor order, each to `ExportPath/<actor name>.json` with that actor's document |
| LightmapInfo.ExportPrimitiveLightmapInfoInWorld | Source/LightmapExport/Private/LightmapExportFunctionLibrary.cpp:199-303 | the nested loops write exactly `WorldWrites`; a null world or a missing directory writes nothing |
| Scenario.WallExport | Source/LightmapExport/Private/LightmapExportFunctionLibrary.cpp:213-301 | a world with one wall and one resolved mesh component writes exactly `Wall_01.json`, which decodes to the wall and its component, with size 256, `CoordScaleBias` `[1, 1, 0, 0]` and every coefficient field `[0, 0, 0, 1]` |

## Left out

- Progress and UI: `GWarn` slow-task and status updates, the busy cursor and the log
  messages are left out. The two error dialogs of the batch appear only as events.
- `PromptUserForDirectory` and the editor's last-used directory are left out. The
  prompt's result is a parameter: `None` when the user cancels.
- Garbage-collection rooting (`AddToRoot`, `RemoveFromRoot`, `FGCObjectScopeGuard`) is
  left out: it has no visible effect in the model.
- `ObjectTools::AssembleListOfExporters` and `GetLightMapsAndShadowMaps` are not part of
  this model. Their results are parameters.
- The `check` that an exporter has as many format descriptions as extensions is left
  out. Format descriptions are not modelled.
- The final "no source data" dialog is left out. Its flag is never set, so the branch
  can never run.
- AssetExport.ExportObjects: `RunAssetExportTask` is modelled only by its effect on the
  chosen exporter's three flags (the `runTask` parameter). The file it writes, and any
  effect on other exporters, is left out.
- AssetExport.ExportObjects: `MakeDirectory`, `IsReadOnly`, `GetPath` and
  `GetExtension` are fixed functions of the file name for the whole batch. A directory
  made for one object does not change the answers for later objects.
- LightmapExport.ExportLightmap: `DirectoryExists` after the textures are written is a
  separate parameter, `directoryExistsAfter`, because the model does not compute how
  the file system changes.
- LightmapExport.ExportLightmap: the world is non-null, because the source dereferences
  it at line 161.
- `UsedExporters.Empty()` at line 149 is left out: it clears a local at the end of the
  call.
- LightmapInfo.ExportPrimitiveLightmapInfoInWorld: the JSON text, success of
  `FJsonSerializer::Serialize` and the result of `SaveStringToFile` are left out. A
  document is recorded as a `FileWrite` of its tree, as if serialising never fails.
- LightmapInfo.ExportPrimitiveLightmapInfoInWorld: the source reads a null registry
  without a check. The model requires the registry to be present whenever some
  component reaches the lookup (`RegistryDereferenceSafe`).
- A null `LightMap`, a non-2D lightmap and null textures are left out. Each crashes the
  source, and the model assumes the build data holds a 2D lightmap with two textures.
- Component and actor iteration order is taken as a given sequence. The engine's set
  order is not modelled.
- Numbers are an opaque type parameter `N`. Single- to double-precision conversion and
  JSON number formatting are floating-point details and are left out.
- `LightmapSize` is an unbounded integer. Its 32-bit range and its conversion to a
  JSON double are left out; every 32-bit value is exact as a double.
- Case folding covers ASCII letters only, as `FCString::Stricmp` does for them. Other
  characters compare exactly.
- `LightmapExport.cpp` (module start-up and shut-down) is not part of this model.
