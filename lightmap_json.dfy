/**
 * The JSON documents of the lightmap metadata export, as trees: what a component entry and
 * an actor document hold (`ULightmapExportFunctionLibrary::ConvertVectorToJsonArray` and
 * the fields set in `ExportPrimitiveLightmapInfoInWorld`), and decoders that read them back.
 */
module LightmapJson {

  import opened Wrappers
  import opened Json

  datatype Vector2<N> = Vector2(x: N, y: N)
  datatype Vector4<N> = Vector4(x: N, y: N, z: N, w: N)

  /** `FVector4d(XY, ZW)`: the first pair gives X and Y, the second Z and W. */
  function Vector4FromPairs<N>(xy: Vector2<N>, zw: Vector2<N>): Vector4<N>
  {
    Vector4(xy.x, xy.y, zw.x, zw.y)
  }

  /** A GUID, identified by its textual form (`FGuid::ToString`). */
  datatype Guid = Guid(text: string)

  /**
   * The fixed-size coefficient arrays `ScaleVectors` and `AddVectors` of a 2D lightmap
   * (`NUM_STORED_LIGHTMAP_COEF` = 4 entries): entries 0 and 1 belong to the high-quality
   * lightmap, entries 2 and 3 to the low-quality one.
   */
  datatype Coefficients<N> = Coefficients(c0: Vector4<N>, c1: Vector4<N>, c2: Vector4<N>, c3: Vector4<N>)
  {
    function At(i: nat): Vector4<N>
      requires i < 4
    {
      if i == 0 then c0 else if i == 1 then c1 else if i == 2 then c2 else c3
    }
  }

  /** What the exporter reads from the `FLightMap2D` of a mesh's build data. */
  datatype LightMap2D<N> = LightMap2D(
    hqTextureName: string,           // GetTexture(0)->GetName()
    lqTextureName: string,           // GetTexture(1)->GetName()
    coordinateScale: Vector2<N>,
    coordinateBias: Vector2<N>,
    scaleVectors: Coefficients<N>,
    addVectors: Coefficients<N>)

  /** The build-data registry of a level, `UMapBuildDataRegistry::GetMeshBuildData`. */
  type Registry<N> = map<Guid, LightMap2D<N>>

  /** The field names the exporter writes. */
  datatype Field =
    | ActorName | ActorGuid | Components
    | ComponentName | ComponentGuid | LightmapSize | HQLightmapName | LQLightmapName | CoordScaleBias
    | HQLightmapScale0 | HQLightmapScale1 | HQLightmapAdd0 | HQLightmapAdd1
    | LQLightmapScale0 | LQLightmapScale1 | LQLightmapAdd0 | LQLightmapAdd1
  {
    /** The field's name as it appears in the document text. */
    function Name(): string
    {
      match this
      case ActorName => "ActorName"
      case ActorGuid => "ActorGuid"
      case Components => "Components"
      case ComponentName => "ComponentName"
      case ComponentGuid => "ComponentGuid"
      case LightmapSize => "LightmapSize"
      case HQLightmapName => "HQLightmapName"
      case LQLightmapName => "LQLightmapName"
      case CoordScaleBias => "CoordScaleBias"
      case HQLightmapScale0 => "HQLightmapScale0"
      case HQLightmapScale1 => "HQLightmapScale1"
      case HQLightmapAdd0 => "HQLightmapAdd0"
      case HQLightmapAdd1 => "HQLightmapAdd1"
      case LQLightmapScale0 => "LQLightmapScale0"
      case LQLightmapScale1 => "LQLightmapScale1"
      case LQLightmapAdd0 => "LQLightmapAdd0"
      case LQLightmapAdd1 => "LQLightmapAdd1"
    }
  }

  /** A JSON value of the exporter's documents. */
  type Value<N> = Json<Field, N>

  function ConvertVectorToJsonArray<N>(v: Vector4<N>): (r: seq<Value<N>>)
    ensures |r| == 4
    ensures JsonArrayToVector(r) == Some(v)
  {
    [JNumber(v.x), JNumber(v.y), JNumber(v.z), JNumber(v.w)]
  }

  /** Reads back a vector written by `ConvertVectorToJsonArray`. */
  function JsonArrayToVector<N>(a: seq<Value<N>>): (r: Option<Vector4<N>>)
  {
    if |a| == 4 && a[0].JNumber? && a[1].JNumber? && a[2].JNumber? && a[3].JNumber?
    then Some(Vector4(a[0].num, a[1].num, a[2].num, a[3].num))
    else None
  }

  /** Only arrays of exactly four numbers decode, and each decodes back to itself. */
  lemma JsonArrayToVectorIsInverse<N>(a: seq<Value<N>>, v: Vector4<N>)
    requires JsonArrayToVector(a) == Some(v)
    ensures a == ConvertVectorToJsonArray(v)
  {
    assert |a| == 4;
    assert a == [a[0], a[1], a[2], a[3]];
  }

  /** What a component entry records. */
  datatype ComponentRecord<N> = ComponentRecord(name: string, buildDataId: Guid, lightmapSize: int, lightmap: LightMap2D<N>)

  function VectorField<N>(fields: map<Field, Value<N>>, key: Field): Option<Vector4<N>>
  {
    match ArrayField(fields, key)
    case None => None
    case Some(a) => JsonArrayToVector(a)
  }

  /** The fields of a component entry. */
  const ComponentFields: set<Field> := {
    ComponentName, ComponentGuid, LightmapSize, HQLightmapName, LQLightmapName, CoordScaleBias,
    HQLightmapScale0, HQLightmapScale1, HQLightmapAdd0, HQLightmapAdd1,
    LQLightmapScale0, LQLightmapScale1, LQLightmapAdd0, LQLightmapAdd1 }

  /** The value each field of a component entry is set to (lines 249-284). */
  function ComponentFieldValue<N>(field: Field, name: string, id: Guid, size: int, lightmap: LightMap2D<N>): Value<N>
    requires field in ComponentFields
  {
    match field
    case ComponentName => JString(name)
    case ComponentGuid => JString(id.text)
    case LightmapSize => JInteger(size)
    case HQLightmapName => JString(lightmap.hqTextureName)
    case LQLightmapName => JString(lightmap.lqTextureName)
    case CoordScaleBias => JArray(ConvertVectorToJsonArray(Vector4FromPairs(lightmap.coordinateScale, lightmap.coordinateBias)))
    case HQLightmapScale0 => JArray(ConvertVectorToJsonArray(lightmap.scaleVectors.At(0)))
    case HQLightmapScale1 => JArray(ConvertVectorToJsonArray(lightmap.scaleVectors.At(1)))
    case HQLightmapAdd0 => JArray(ConvertVectorToJsonArray(lightmap.addVectors.At(0)))
    case HQLightmapAdd1 => JArray(ConvertVectorToJsonArray(lightmap.addVectors.At(1)))
    case LQLightmapScale0 => JArray(ConvertVectorToJsonArray(lightmap.scaleVectors.At(2)))
    case LQLightmapScale1 => JArray(ConvertVectorToJsonArray(lightmap.scaleVectors.At(3)))
    case LQLightmapAdd0 => JArray(ConvertVectorToJsonArray(lightmap.addVectors.At(2)))
    case LQLightmapAdd1 => JArray(ConvertVectorToJsonArray(lightmap.addVectors.At(3)))
  }

  /** The entry of one component: a JSON object holding exactly the component fields. */
  function ComponentEntry<N>(name: string, id: Guid, size: int, lightmap: LightMap2D<N>): Value<N>
  {
    JObject(map field | field in ComponentFields :: ComponentFieldValue(field, name, id, size, lightmap))
  }

  /** Reads four coefficient vectors back from the fields that hold entries 0, 1, 2 and 3. */
  function DecodeCoefficients<N>(f: map<Field, Value<N>>, k0: Field, k1: Field, k2: Field, k3: Field): Option<Coefficients<N>>
  {
    var v0, v1, v2, v3 := VectorField(f, k0), VectorField(f, k1), VectorField(f, k2), VectorField(f, k3);
    if v0.Some? && v1.Some? && v2.Some? && v3.Some? then Some(Coefficients(v0.value, v1.value, v2.value, v3.value))
    else None
  }

  /**
   * Reads the lightmap part of a component entry back, independently of how it was built:
   * coefficient entries 0 and 1 come from the `HQ...0/1` fields, entries 2 and 3 from `LQ...0/1`.
   */
  function DecodeLightMap<N>(f: map<Field, Value<N>>): Option<LightMap2D<N>>
  {
    var hq, lq := StringField(f, HQLightmapName), StringField(f, LQLightmapName);
    var scaleBias := VectorField(f, CoordScaleBias);
    var scales := DecodeCoefficients(f, HQLightmapScale0, HQLightmapScale1, LQLightmapScale0, LQLightmapScale1);
    var adds := DecodeCoefficients(f, HQLightmapAdd0, HQLightmapAdd1, LQLightmapAdd0, LQLightmapAdd1);
    if hq.Some? && lq.Some? && scaleBias.Some? && scales.Some? && adds.Some? then
      var sb := scaleBias.value;
      Some(LightMap2D(hq.value, lq.value, Vector2(sb.x, sb.y), Vector2(sb.z, sb.w), scales.value, adds.value))
    else None
  }

  /** Reads a component entry back. */
  function DecodeComponentEntry<N>(j: Value<N>): Option<ComponentRecord<N>>
  {
    if !j.JObject? then None
    else
      var name, guid := StringField(j.fields, ComponentName), StringField(j.fields, ComponentGuid);
      var size := IntegerField(j.fields, LightmapSize);
      var lightmap := DecodeLightMap(j.fields);
      if name.Some? && guid.Some? && size.Some? && lightmap.Some? then
        Some(ComponentRecord(name.value, Guid(guid.value), size.value, lightmap.value))
      else None
  }

  /** Where the component's name, its build-data id and its lightmap size land in its entry. */
  lemma ComponentEntryHeaderFields<N>(name: string, id: Guid, size: int, lightmap: LightMap2D<N>)
    ensures var f := ComponentEntry(name, id, size, lightmap).fields;
      && StringField(f, ComponentName) == Some(name)
      && StringField(f, ComponentGuid) == Some(id.text)
      && IntegerField(f, LightmapSize) == Some(size)
  {
  }

  /** `CoordScaleBias` is `[scale.X, scale.Y, bias.X, bias.Y]`. */
  lemma ComponentEntryScaleBiasField<N>(name: string, id: Guid, size: int, lightmap: LightMap2D<N>)
    ensures VectorField(ComponentEntry(name, id, size, lightmap).fields, CoordScaleBias)
      == Some(Vector4(lightmap.coordinateScale.x, lightmap.coordinateScale.y, lightmap.coordinateBias.x, lightmap.coordinateBias.y))
  {
  }

  /** The high-quality fields name texture 0 and carry coefficient entries 0 and 1. */
  lemma ComponentEntryHighQualityFields<N>(name: string, id: Guid, size: int, lightmap: LightMap2D<N>)
    ensures var f := ComponentEntry(name, id, size, lightmap).fields;
      && StringField(f, HQLightmapName) == Some(lightmap.hqTextureName)
      && VectorField(f, HQLightmapScale0) == Some(lightmap.scaleVectors.At(0))
      && VectorField(f, HQLightmapScale1) == Some(lightmap.scaleVectors.At(1))
      && VectorField(f, HQLightmapAdd0) == Some(lightmap.addVectors.At(0))
      && VectorField(f, HQLightmapAdd1) == Some(lightmap.addVectors.At(1))
  {
  }

  /** The low-quality fields name texture 1 and carry coefficient entries 2 and 3. */
  lemma ComponentEntryLowQualityFields<N>(name: string, id: Guid, size: int, lightmap: LightMap2D<N>)
    ensures var f := ComponentEntry(name, id, size, lightmap).fields;
      && StringField(f, LQLightmapName) == Some(lightmap.lqTextureName)
      && VectorField(f, LQLightmapScale0) == Some(lightmap.scaleVectors.At(2))
      && VectorField(f, LQLightmapScale1) == Some(lightmap.scaleVectors.At(3))
      && VectorField(f, LQLightmapAdd0) == Some(lightmap.addVectors.At(2))
      && VectorField(f, LQLightmapAdd1) == Some(lightmap.addVectors.At(3))
  {
  }

  /**
   * Every field of a component entry reads back to the value it was built from: the entry
   * loses nothing and puts each coefficient vector where the decoder expects it.
   */
  lemma ComponentEntryRoundTrip<N>(name: string, id: Guid, size: int, lightmap: LightMap2D<N>)
    ensures DecodeComponentEntry(ComponentEntry(name, id, size, lightmap)) == Some(ComponentRecord(name, id, size, lightmap))
  {
    var f := ComponentEntry(name, id, size, lightmap).fields;
    ComponentEntryHeaderFields(name, id, size, lightmap);
    ComponentEntryScaleBiasField(name, id, size, lightmap);
    ComponentEntryHighQualityFields(name, id, size, lightmap);
    ComponentEntryLowQualityFields(name, id, size, lightmap);
    assert DecodeCoefficients(f, HQLightmapScale0, HQLightmapScale1, LQLightmapScale0, LQLightmapScale1) == Some(lightmap.scaleVectors);
    assert DecodeCoefficients(f, HQLightmapAdd0, HQLightmapAdd1, LQLightmapAdd0, LQLightmapAdd1) == Some(lightmap.addVectors);
    assert DecodeLightMap(f) == Some(lightmap);
  }


  /** The document of an actor with the given entries (lines 224-225, 292). */
  function ActorDocument<N>(name: string, guid: Guid, entries: seq<Value<N>>): Value<N>
  {
    JObject(map[ActorName := JString(name), ActorGuid := JString(guid.text), Components := JArray(entries)])
  }

  /** What an actor document records. */
  datatype ActorRecord<N> = ActorRecord(name: string, guid: Guid, components: seq<ComponentRecord<N>>)

  function DecodeEntries<N>(entries: seq<Value<N>>): (r: Option<seq<ComponentRecord<N>>>)
    ensures r.Some? ==> |r.value| == |entries|
  {
    if forall k :: 0 <= k < |entries| ==> DecodeComponentEntry(entries[k]).Some?
    then Some(seq(|entries|, k requires 0 <= k < |entries| => DecodeComponentEntry(entries[k]).value))
    else None
  }

  /** Reads an actor document back. */
  function DecodeActorDocument<N>(j: Value<N>): Option<ActorRecord<N>>
  {
    if !j.JObject? then None
    else
      var name, guid := StringField(j.fields, ActorName), StringField(j.fields, ActorGuid);
      var comps := ArrayField(j.fields, Components);
      if name.Some? && guid.Some? && comps.Some? then
        match DecodeEntries(comps.value)
        case None => None
        case Some(records) => Some(ActorRecord(name.value, Guid(guid.value), records))
      else None
  }


  /** Where an actor's name, its GUID and its entries land in its document. */
  lemma ActorDocumentFields<N>(name: string, guid: Guid, entries: seq<Value<N>>)
    ensures var f := ActorDocument(name, guid, entries).fields;
      && StringField(f, ActorName) == Some(name)
      && StringField(f, ActorGuid) == Some(guid.text)
      && ArrayField(f, Components) == Some(entries)
  {
  }

  /** An actor document reads back to its name, its GUID and the records its entries decode to. */
  lemma ActorDocumentDecodes<N>(name: string, guid: Guid, entries: seq<Value<N>>, records: seq<ComponentRecord<N>>)
    requires |entries| == |records|
    requires forall k :: 0 <= k < |entries| ==> DecodeComponentEntry(entries[k]) == Some(records[k])
    ensures DecodeActorDocument(ActorDocument(name, guid, entries)) == Some(ActorRecord(name, guid, records))
  {
    ActorDocumentFields(name, guid, entries);
    var decoded := seq(|entries|, k requires 0 <= k < |entries| => DecodeComponentEntry(entries[k]).value);
    assert decoded == records;
  }

}
