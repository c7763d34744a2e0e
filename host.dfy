/**
 * The Revit objects the exporter reads, as plain values. Each is the part of the host API
 * that the core consults; a C# null is an `Option` that is `None`.
 */
module Host {
  import opened Wrappers

  /** A C# `byte`, as used by Revit's `Color` channels. */
  type byte = x: int | 0 <= x < 256

  /** Revit's `XYZ` point or vector. */
  datatype XYZ = XYZ(x: real, y: real, z: real)

  /** Revit's flat `Color`. */
  datatype Color = Color(red: byte, green: byte, blue: byte)

  /** The value of an `AssetProperty`, by its concrete host class. */
  datatype AssetValue =
    | BooleanValue(b: bool)
    | IntegerValue(i: int)
    | FloatValue(f: real)
    | DoubleValue(d: real)
    | DistanceValue(distance: real)
    | StringValue(s: string)
    | DoubleArray4d(values: seq<real>)   // `GetValueAsDoubles()`; a null list is the empty one
    | OtherValue                         // enum, reference, time, 2d/3d arrays, 4x4 matrix, ...

  /** Whether `as AssetPropertyDouble` succeeds: an `AssetPropertyDistance` is an
      `AssetPropertyDouble` too. */
  predicate IsDouble(v: AssetValue) { v.DoubleValue? || v.DistanceValue? }

  /** The `Value` read through `AssetPropertyDouble`. */
  function DoubleOf(v: AssetValue): real
    requires IsDouble(v)
  {
    if v.DoubleValue? then v.d else v.distance
  }

  /** An `AssetProperty` with its connected properties. A connected property that is not an
      `Asset` is `None`. */
  datatype AssetProperty = AssetProperty(name: string, value: AssetValue, connected: seq<Option<Asset>>)

  /** An `Asset`: a named, indexed list of properties; an index may hold null. */
  datatype Asset = Asset(name: string, properties: seq<Option<AssetProperty>>)

  /** `Asset.FindByName` (and the asset's string indexer): the first non-null property of that
      name, or null. */
  function FindByName(properties: seq<Option<AssetProperty>>, name: string): (r: Option<AssetProperty>)
    ensures r.Some? ==> r.value.name == name && Some(r.value) in properties
    ensures r.None? ==> forall i :: 0 <= i < |properties| && properties[i].Some? ==> properties[i].value.name != name
  {
    if |properties| == 0 then None
    else if properties[0].Some? && properties[0].value.name == name then properties[0]
    else
      var r := FindByName(properties[1..], name);
      assert forall i :: 1 <= i < |properties| ==> properties[i] == properties[1..][i - 1];
      r
  }

  /** `AppearanceAssetElement` and its `GetRenderingAsset()`. */
  datatype AppearanceAssetElement = AppearanceAssetElement(renderingAsset: Option<Asset>)

  /** A BIM `Material`. `appearance` is what `doc.GetElement(m.AppearanceAssetId) as
      AppearanceAssetElement` yields. */
  datatype RevitMaterial = RevitMaterial(
    name: string,
    transparency: int,
    color: Color,
    appearance: Option<AppearanceAssetElement>)

  /** The document: its path and its materials in collector order. */
  datatype Document = Document(pathName: string, materials: seq<RevitMaterial>)

  datatype Room = Room(uniqueId: string)

  /** A `Parameter`: its definition's name, `HasValue` and `AsValueString()` (null as ""). */
  datatype Parameter = Parameter(name: string, hasValue: bool, valueString: string)

  datatype Category = Category(name: string)

  /** A `Solid`: its face count, `SolidUtils.IsValidForTessellation`, `ComputeCentroid()`
      (`None` when it throws) and `Volume`. */
  datatype Solid = Solid(faceCount: nat, validForTessellation: bool, centroid: Option<XYZ>, volume: real)

  /** A `GeometryObject` of a `GeometryElement`. */
  datatype GeometryObject =
    | SolidObject(solid: Solid)
    | InstanceObject(symbolGeometry: seq<GeometryObject>)
    | OtherObject

  /** A `FamilyInstance` with its `Room`, `FromRoom` and `ToRoom`, or any other element. */
  datatype ElementKind =
    | FamilyInstance(room: Option<Room>, fromRoom: Option<Room>, toRoom: Option<Room>)
    | OtherElement

  /** An `Element`: `geometry` is `get_Geometry` with the export options (detail level Medium,
      non-visible objects included), already in world coordinates. */
  datatype Element = Element(
    uniqueId: string,
    name: string,
    category: Option<Category>,
    parameters: seq<Parameter>,
    kind: ElementKind,
    geometry: Option<seq<GeometryObject>>)
}
