# Revit2Gltf core, modelled in Dafny

Revit2Gltf exports an Autodesk Revit model to glTF. An FBX export from Revit is loaded into an
Assimp scene. The core then does five things:

- It renames the scene's nodes and meshes from `Name [localId]` to the element's unique id.
- It turns each Revit material, together with the textures found for it in the Revit material
  library, into an Assimp material. It appends that material to the scene only when some mesh uses it.
- It collects each element's parameter values into an `ElementParameters` record. The record also
  holds the element's centroid and the rooms the element is in.
- It computes that centroid from the element's solids, weighted by volume.
- It makes texture file names safe by keeping only word characters.

The project models those parts as Dafny functions, methods and classes and proves what they do.

Modules follow the source files:

- `SafenedFilename` (SafenedFilename.cs): the safe-name regular expressions, written as functions
  over characters.
- `MaterialUtilities` (MaterialUtilities.cs):
  - the keyword table and `TryGetTextureTypeFromAssetName`;
  - `GetTextureBundles`, as the class `MaterialLibrary`. The class holds the library map and the
    two per-document caches, which are static fields in the source.
- `AssimpUtilities` (AssimpUtilities.cs):
  - the colour and opacity conversions;
  - `ConvertToAssimpMaterial`, as a loop over the rendering asset's property names;
  - node renaming and the pre-order walk `GetNodes`;
  - a `Scene` class whose meshes are an array updated in place.
- `ElementParams` (ElementParameters.cs):
  - the class `ElementParameters`;
  - a `Session` object that holds the two static sets `Session_Params` and `Rooms`;
  - `Create`, which models the constructor. The constructor can throw, and `Create` returns `None`
    when it does.
- `GeometryExtensions` (GeometryExtensions.cs): solid acceptance, partials gathering, the
  symbol-geometry retry, and the weighted or unweighted combination.
- `Extensions` (Extensions.cs): `ToFilenamePathDictionarySafe`, `Combine`,
  `SiphonElementParamValues` (elements, then rooms, then levels) and `Description`.

Supporting modules:

- `Wrappers`: `Option` and `Result`.
- `Strings`: ASCII lower-casing and substring search.
- `SystemPath`: .NET `Path.GetFileName`, `GetFileNameWithoutExtension` and `GetExtension`, with
  separators `\`, `/` and `:`.
- `Host`: the Revit host objects as data, that is assets, materials, parameters, solids, geometry
  objects and elements.

Two behaviours of the code are worth stating plainly:

- A node name with no bracket keeps its whole text. That includes the empty name, so the
  `UnknownObjectName` placeholder is never produced, because `Split` always yields at least one
  fragment.
- The comment at GeometryExtensions.cs:89-92 says the volume is factored out of the weighted
  centroid, but line 128 divides the weighted sum by the number of partials times the total
  volume. The result is the volume-weighted mean divided once more by the number of partials
  (`WeightedMeanOverCount`). Two solids with centroids (0,0,0) and (10,0,0) and volumes 2 and 3
  therefore give (3,0,0) (`TwoSolidsExample`), and coincident solids give their common centroid
  divided by their number (`CoincidentPartials`). The model keeps this divisor.

## Model

| member | source | states |
|---|---|---|
| SafenedFilename.RemoveSpecial | Revit2Gltf/SafenedFilename.cs:20 | the result holds only letters, digits, `_` and `.` |
| SafenedFilename.WhitespacePassIsNoOp | Revit2Gltf/SafenedFilename.cs:34-35 | removing whitespace after the special-character pass changes nothing |
| SafenedFilename.ReplaceDots | Revit2Gltf/SafenedFilename.cs:37 | same length; every `.` becomes `_` and every other character is kept |
| SafenedFilename.SanitisedStemIsWordChars | Revit2Gltf/SafenedFilename.cs:34-37 | the sanitised stem consists of word characters only |
| SafenedFilename.SanitisedStemDropsLastDot | Revit2Gltf/SafenedFilename.cs:36-37 | the sanitised stem is the kept text up to its last dot, with the remaining dots turned into `_` |
| SafenedFilename.RemoveSpecialCharacters | Revit2Gltf/SafenedFilename.cs:31-39 | the output ends with the given extension, and everything before it is word characters |
| SafenedFilename.Create | Revit2Gltf/SafenedFilename.cs:25-29 | the file location is the path unchanged; the safe name is word characters followed by the path's extension |
| SafenedFilename.AllSpecialStemLeavesExtension | Revit2Gltf/SafenedFilename.cs:28-38 | a stem made only of special characters leaves just the extension |
| SafenedFilename.TwoDotStem | Revit2Gltf/SafenedFilename.cs:36-37 | the sanitised stem of `a.b.c` is `a_b`: the second extension is dropped |
| SafenedFilename.DottedFileName | Revit2Gltf/SafenedFilename.cs:25-29 | the safe name of `dir/stem.e` is the sanitised stem, then `.e` |
| SafenedFilename.NestedDotsFileName | Revit2Gltf/SafenedFilename.cs:25-39 | the safe name of `dir/a.b.c.e` is `a_b.e` |
| SystemPath.FileNameIsLastSegment | Revit2Gltf/SafenedFilename.cs:28 | the file name is the separator-free tail of the path, preceded by a separator or equal to the whole path |
| SystemPath.StemAndExtension | Revit2Gltf/SafenedFilename.cs:28 | the name is the stem followed by the extension (or the stem followed by a trailing dot); the extension is empty or a dot and a dot-free rest |
| Strings.ToLowerIsLower | Revit2Gltf/MaterialUtilities.cs:63 | lowering leaves no upper-case letter and is idempotent |
| MaterialUtilities.FirstRole | Revit2Gltf/MaterialUtilities.cs:64-75 | a role is found only when one of its keywords occurs; no role means no keyword of any role occurs |
| MaterialUtilities.FirstRoleAt | Revit2Gltf/MaterialUtilities.cs:64-72 | the first role whose keyword occurs is the one chosen |
| MaterialUtilities.TryGetTextureTypeFromAssetName | Revit2Gltf/MaterialUtilities.cs:60-76 | true with the classified role, or false with `Unknown` |
| MaterialUtilities.ClassifyByKeywords | Revit2Gltf/MaterialUtilities.cs:26-45 | Color when the lowered name holds color, diffuse or unifiedbitmapschema; otherwise Bump when it holds bm_map, bump or pattern_map; otherwise none |
| MaterialUtilities.ClassifiedIsKnown | Revit2Gltf/MaterialUtilities.cs:60-76 | a found role is never `Unknown` |
| MaterialUtilities.TextureOfIsFromLibrary | Revit2Gltf/MaterialUtilities.cs:137-149 | a recorded texture has a known role and is the safened name of some library path |
| MaterialUtilities.DropStays | Revit2Gltf/MaterialUtilities.cs:95-165 | once a property has thrown, the whole material yields no bundle |
| MaterialUtilities.ScanGrows | Revit2Gltf/MaterialUtilities.cs:111-157 | texture entries are never removed or replaced by later properties |
| MaterialUtilities.ScanGrowsBetween | Revit2Gltf/MaterialUtilities.cs:111-157 | every role recorded after k1 properties is still recorded after k2 |
| MaterialUtilities.ScanPropertyStep | Revit2Gltf/MaterialUtilities.cs:113-156 | one property adds at most one role, and keeps the earlier entries |
| MaterialUtilities.ScannedTexturesAreContributed | Revit2Gltf/MaterialUtilities.cs:111-157 | each recorded role and path comes from some property of the asset |
| MaterialUtilities.ContributionRecorded | Revit2Gltf/MaterialUtilities.cs:146-149 | a property that resolves to a library texture has its role recorded |
| MaterialUtilities.KnownRoleDrops | Revit2Gltf/MaterialUtilities.cs:148-165 | adding a role already present throws and drops the bundle |
| MaterialUtilities.DuplicateRoleDropsBundle | Revit2Gltf/MaterialUtilities.cs:148-165 | two properties that resolve to the same role drop the bundle |
| MaterialUtilities.BundleTexturesFromLibrary | Revit2Gltf/MaterialUtilities.cs:97-160 | every texture of a bundle has a known role and a library path |
| MaterialUtilities.NoBundleWithout | Revit2Gltf/MaterialUtilities.cs:99-165 | there is no bundle without an appearance element, without a rendering asset, or when a connected property is not an asset |
| MaterialUtilities.Contributions | Revit2Gltf/MaterialUtilities.cs:111-157 | the per-property view that `ScanIsScanOver` and `BundleKeptIff` are stated over: for a property the loop passes, its entry is the role and library texture that property resolves to, or none |
| MaterialUtilities.ScanIsScanOver | Revit2Gltf/MaterialUtilities.cs:111-157 | when no property throws, the property loop records what adding each contribution in turn records |
| MaterialUtilities.ScanOverKept | Revit2Gltf/MaterialUtilities.cs:146-149 | contributions with distinct roles are all added: the recorded roles are exactly the contributed ones, each with its own texture |
| MaterialUtilities.ScanOverDrops | Revit2Gltf/MaterialUtilities.cs:148 | two contributions with the same role make `Add` throw, so no paths survive |
| MaterialUtilities.BundleKeptIff | Revit2Gltf/MaterialUtilities.cs:97-160 | a material has a bundle if and only if it has an appearance element with a rendering asset, no property throws and no two properties contribute the same role; the bundle then holds the material and exactly the contributed roles with their library textures |
| MaterialUtilities.MaterialLibrary.constructor | Revit2Gltf/MaterialUtilities.cs:51-58 | the given library and empty caches |
| MaterialUtilities.MaterialLibrary.TryBuildBundle | Revit2Gltf/MaterialUtilities.cs:95-165 | the outcome for one material, as the bundle specification defines it |
| MaterialUtilities.MaterialLibrary.ScanMaterials | Revit2Gltf/MaterialUtilities.cs:92-166 | the bundles of the surviving materials, in order |
| MaterialUtilities.MaterialLibrary.GetTextureBundles | Revit2Gltf/MaterialUtilities.cs:78-173 | a cached document returns its cached bundles and nothing changes; otherwise the bundles are computed and cached with an empty path list |
| Extensions.ToFilenamePathDictionarySafe | Revit2Gltf/Extensions.cs:14-24 | every name without extension is a key; each key maps to a path of that name, namely the first one |
| Extensions.Combine | Revit2Gltf/Extensions.cs:31-48 | the keys are the union of the dictionaries' keys; each value comes from the first dictionary holding the key |
| Extensions.SiphonOne | Revit2Gltf/Extensions.cs:119-154 | one element's try block: the output mirrors the built entries and keeps the earlier records |
| Extensions.SiphonPass | Revit2Gltf/Extensions.cs:119-171 | one collector pass, as the pass specification defines it, keeping earlier records and the session sets |
| Extensions.SiphonElementParamValues | Revit2Gltf/Extensions.cs:100-174 | the records are those built by the three passes over elements, rooms and levels, and the session sets are updated to match |
| Extensions.PassKeeps | Revit2Gltf/Extensions.cs:119-171 | a pass never drops or replaces a record; new records carry the pass's centroid flag; the session sets only grow |
| Extensions.SiphonedEntries | Revit2Gltf/Extensions.cs:115-171 | every record is of an element (with the caller's flag), a room (centroid on) or a level (centroid off), stored under its unique id |
| Extensions.FirstPassFirstWins | Revit2Gltf/Extensions.cs:119-132 | an element whose construction completes is recorded, unless an earlier element with the same id won |
| Extensions.NotYetBuilt | Revit2Gltf/Extensions.cs:119-132 | an id none of whose elements completes construction stays unrecorded |
| Extensions.Description | Revit2Gltf/Extensions.cs:176-184 | the enum name lowered letter by letter, with no upper-case letter left |
| Extensions.DescriptionOfWalls | Revit2Gltf/Extensions.cs:183 | (illustration) `OST_Walls` is described as `ost_walls` |
| GeometryExtensions.TryGetCentroidVolume | Revit2Gltf/GeometryExtensions.cs:12-34 | accepted exactly for a solid with faces that is valid for tessellation and has a centroid; the result carries that centroid and volume |
| GeometryExtensions.PartialsOfSolids | Revit2Gltf/GeometryExtensions.cs:71-76 | every partial comes from an accepted solid; no contributing object gives no partials |
| GeometryExtensions.CollectPartials | Revit2Gltf/GeometryExtensions.cs:69-76 | the partials of the accepted objects, and the instance cast of the last accepted object |
| GeometryExtensions.LastInstanceIsNull | Revit2Gltf/GeometryExtensions.cs:73-80 | the recorded instance is always null, because an accepted object is a solid; so the symbol-geometry retry never runs |
| GeometryExtensions.AnyZeroVolume | Revit2Gltf/GeometryExtensions.cs:99-112 | the flag is set exactly when some partial has volume zero |
| GeometryExtensions.Divisor | Revit2Gltf/GeometryExtensions.cs:128 | the divisor of the weighted branch is never zero |
| GeometryExtensions.CombinePartials | Revit2Gltf/GeometryExtensions.cs:94-134 | the result of the two accumulating loops equals the combination specification |
| GeometryExtensions.TryGetCentroid | Revit2Gltf/GeometryExtensions.cs:47-137 | false exactly when there is no geometry; otherwise the combination of the gathered partials, which is the default when nothing was gathered |
| GeometryExtensions.NoContributionGivesDefault | Revit2Gltf/GeometryExtensions.cs:52-96 | without an accepted solid the result is the default centroid and volume |
| GeometryExtensions.SinglePartial | Revit2Gltf/GeometryExtensions.cs:105-129 | one partial combines to itself |
| GeometryExtensions.WeightedMeanOverCount | Revit2Gltf/GeometryExtensions.cs:121-129 | with no zero volume and a non-zero total, the combined volume is the total volume and the centroid is the volume-weighted mean `Σ vᵢ·cᵢ / ΣV` divided by the number of partials |
| GeometryExtensions.CoincidentPartials | Revit2Gltf/GeometryExtensions.cs:105-129 | partials sharing a centroid c give c when unweighted, and c divided by the count when weighted |
| GeometryExtensions.TwoSolidsExample | Revit2Gltf/GeometryExtensions.cs:121-129 | volumes 2 and 3 at x = 0 and x = 10 give centroid (3,0,0) and volume 5 |
| ElementParams.Session.constructor | Revit2Gltf/ElementParameters.cs:14-16 | both session sets start empty |
| ElementParams.TryGetRoom | Revit2Gltf/ElementParameters.cs:73-89 | a family instance reports its room, with to-room and from-room swapped, and succeeds iff one is set; any other element looks up the room at the centroid and fails without a centroid |
| ElementParams.OverwriteKeepsKeys | Revit2Gltf/ElementParameters.cs:38-55 | the keys become the old keys plus the names of the displayable parameters |
| ElementParams.OverwriteKeepsOthers | Revit2Gltf/ElementParameters.cs:47-54 | a key no parameter names keeps its value |
| ElementParams.OverwriteLastWins | Revit2Gltf/ElementParameters.cs:47-54 | the last displayable parameter of a name determines its value |
| ElementParams.NameCanBeOverwritten | Revit2Gltf/ElementParameters.cs:30-53 | (illustration) a parameter called `Name` replaces the element name |
| ElementParams.CentroidForIff | Revit2Gltf/ElementParameters.cs:58-59 | a centroid is computed iff it was asked for and the element has geometry |
| ElementParams.CentroidEntry | Revit2Gltf/ElementParameters.cs:57-62 | with a centroid and no `Centroid` parameter, the entry holds its formatted string; a `Centroid` parameter makes the add throw |
| ElementParams.AddRoomGrows | Revit2Gltf/ElementParameters.cs:67-69 | adding a room entry keeps every existing entry, and a failed add stays failed |
| ElementParams.SiphonKeepsKeys | Revit2Gltf/ElementParameters.cs:35-71 | no key is lost by siphoning |
| ElementParams.RoomsDoNotMatter | Revit2Gltf/ElementParameters.cs:64-70 | the parameters do not depend on the session's rooms, which only gain the added room ids |
| ElementParams.FamilyInstanceRooms | Revit2Gltf/ElementParameters.cs:65-82 | the family instance's room ids are stored with to and from swapped, and the room id joins the session set |
| ElementParams.OtherElementRooms | Revit2Gltf/ElementParameters.cs:65-88 | an element that is not a family instance gains at most a `Room` key, and without a centroid nothing changes |
| ElementParams.SiphonCompletes | Revit2Gltf/ElementParameters.cs:59-69 | siphoning completes iff none of the Centroid, Room, ToRoom and FromRoom keys that it adds was already present |
| ElementParams.ElementParameters.constructor | Revit2Gltf/ElementParameters.cs:25-30 | id, category name and a single `Name` entry |
| ElementParams.ElementParameters.SiphonParameters | Revit2Gltf/ElementParameters.cs:38-55 | the parameters are overwritten by the displayable ones and their names join the session set |
| ElementParams.ElementParameters.AddRoomEntry | Revit2Gltf/ElementParameters.cs:67-69 | one room entry and session id are added as the room step defines, or the step throws |
| ElementParams.ElementParameters.Siphon | Revit2Gltf/ElementParameters.cs:35-71 | parameters, session rooms and the completed flag are those of the siphon outcome; the parameter names join the session set |
| ElementParams.ElementParameters.Add | Revit2Gltf/ElementParameters.cs:91-102 | the entry is set to the value, whether or not it existed |
| ElementParams.ElementParameters.Parameters | Revit2Gltf/ElementParameters.cs:22 | a copy of the current entries |
| ElementParams.Create | Revit2Gltf/ElementParameters.cs:25-71 | a null category throws with nothing changed; otherwise the session changes as siphoning does, and a record exists iff siphoning completes |
| AssimpUtilities.Split | Revit2Gltf/AssimpUtilities.cs:244 | at least one fragment, none holding a bracket; a name with no bracket is its only fragment |
| AssimpUtilities.PlainNameUnchanged | Revit2Gltf/AssimpUtilities.cs:246-251 | a name without brackets is returned unchanged |
| AssimpUtilities.BracketedName | Revit2Gltf/AssimpUtilities.cs:244-251 | `a[b]c` is renamed to the unique id mapped from `b`, or to `b` when unmapped |
| AssimpUtilities.UnmappedIsBracketFree | Revit2Gltf/AssimpUtilities.cs:246-249 | an unmapped local id is returned as it is, free of brackets |
| AssimpUtilities.RenameIsIdempotent | Revit2Gltf/AssimpUtilities.cs:240-254 | with bracket-free unique ids, renaming a renamed name changes nothing |
| AssimpUtilities.RootNotListed | Revit2Gltf/AssimpUtilities.cs:258-273 | the walk does not yield the root |
| AssimpUtilities.Listed | Revit2Gltf/AssimpUtilities.cs:258-273 | a node is yielded iff it is a child of the root or is yielded by a child's walk |
| AssimpUtilities.PreOrder | Revit2Gltf/AssimpUtilities.cs:261-270 | each child is yielded before its own descendants and before later children |
| AssimpUtilities.DescendantsAreFewer | Revit2Gltf/AssimpUtilities.cs:258-273 | a yielded node has fewer descendants than the root |
| AssimpUtilities.RenamedNodes | Revit2Gltf/AssimpUtilities.cs:231-234 | the walk of the renamed tree is the walk of the tree with each node renamed |
| AssimpUtilities.RenamedWalk | Revit2Gltf/AssimpUtilities.cs:231-234 | the root keeps its name; the walk keeps its length, and the k-th yielded node gets the unique id of the k-th old name |
| AssimpUtilities.Scene.constructor | Revit2Gltf/AssimpUtilities.cs:195-197 | the given root, meshes and materials |
| AssimpUtilities.Scene.ReplaceNamesWithUniqueIds | Revit2Gltf/AssimpUtilities.cs:229-239 | the descendants are renamed, each mesh name is renamed in place, and the materials are untouched |
| AssimpUtilities.Scene.AddAndAssignMaterial | Revit2Gltf/AssimpUtilities.cs:195-227 | with no ids nothing changes; utilized iff some mesh name is an id; exactly those meshes get the new index; the material is appended iff utilized; indices stay in range |
| AssimpUtilities.GetOpacity | Revit2Gltf/AssimpUtilities.cs:29-32 | non-negative; for a transparency in 0..100 it is 1 minus transparency/100 |
| AssimpUtilities.ToColor4D | Revit2Gltf/AssimpUtilities.cs:34-38 | each channel is its byte over 255, within 0..1, and alpha is the opacity |
| AssimpUtilities.ColorFromDoubles | Revit2Gltf/AssimpUtilities.cs:40-56 | four or more values give the first four channels; fewer give the 200 fallback |
| AssimpUtilities.DescriptorNames | Revit2Gltf/RenderAppearanceDescriptor.cs:182-190 | a name is listed iff some non-null property has it |
| AssimpUtilities.FoldFailureStays | Revit2Gltf/AssimpUtilities.cs:98-154 | once a property throws, the conversion fails with that error |
| AssimpUtilities.FoldFailsIff | Revit2Gltf/AssimpUtilities.cs:98-154 | the loop fails iff some name's step throws |
| AssimpUtilities.FoldReflectance | Revit2Gltf/AssimpUtilities.cs:129-142 | with glazing_reflectance present, reflectivity and opacity come from it; without it they stay at the base values |
| AssimpUtilities.FoldColour | Revit2Gltf/AssimpUtilities.cs:125-150 | the diffuse colour comes from generic_diffuse, else from common_Tint_color, else stays the base colour |
| AssimpUtilities.GenericDiffuseWins | Revit2Gltf/AssimpUtilities.cs:125-150 | a four-value generic_diffuse sets the diffuse colour whatever the tint |
| AssimpUtilities.TintWithoutDiffuse | Revit2Gltf/AssimpUtilities.cs:143-150 | without generic_diffuse, a four-value tint sets the diffuse colour |
| AssimpUtilities.ConversionFailsIff | Revit2Gltf/AssimpUtilities.cs:88-154 | conversion fails iff the appearance element or rendering asset is missing, a generic_diffuse property is not a 4d colour, or a tint property is not a 4d colour while no 4d generic_diffuse overrides it |
| AssimpUtilities.ConvertedMaterial | Revit2Gltf/AssimpUtilities.cs:79-191 | the Revit name is kept; a glazing reflectance sets reflectivity and opacity to its absolute value, otherwise reflectivity is 0 with the Revit opacity; a diffuse slot exists iff the bundle has a Color texture and a height slot iff it has a Bump texture, each at `Textures/` plus the safe name |
| AssimpUtilities.GlazingReflectanceByClass | Revit2Gltf/AssimpUtilities.cs:129-142 | a double-valued or distance-valued glazing_reflectance (a distance is also an `AssetPropertyDouble`) sets the reflectivity to its value, a float one to its value, any other class to 0 with opacity 0 |
| AssimpUtilities.BaseValuesWithoutProperties | Revit2Gltf/AssimpUtilities.cs:79-85 | with none of the three recognised properties, the conversion succeeds with the Revit colour, the Revit opacity as both opacity and alpha, and reflectivity 0 |
| AssimpUtilities.ConvertToAssimpMaterial | Revit2Gltf/AssimpUtilities.cs:75-193 | the loop computes the conversion specification |
| AssimpUtilities.SetTextures | Revit2Gltf/AssimpUtilities.cs:157-191 | the texture slots are those the bundle's paths define |

## Left out

- LoadFbx, SaveToGltf, TryRemoveFile and WriteToFile are file and library input/output.
- ExportableElements and GetOrCreateDefault3DView are host filters and transactions. The
  elements, rooms and levels that `SiphonElementParamValues` visits are given as inputs.
- The `RevitTextures` directory scan reads the file system (MaterialUtilities.cs:47-53).
  `MaterialLibrary` receives the resulting map as a constructor argument. The map's construction
  is `ToFilenamePathDictionarySafe`.
- The keyword table and the texture dictionary are iterated in declaration order. Assimp material
  property order beyond the fields listed is not modelled.
- SetTextures: the Assimp `Material.TextureDiffuse` and `Material.TextureHeight` setters
  (AssimpUtilities.cs:157-188) are modelled as plain field stores. AssimpNet is not part of this
  model, and any check its setters make on the slot's `TextureType` is not modelled. Both slots are
  built with `TextureType.Diffuse`, so if the height setter accepts only `TextureType.Height`
  slots, the material the program produces has no bump map, while `WithTextures` and
  `ConvertedMaterial` describe the slot as assigned.
- Floating point is modelled as exact reals. The `(float)` casts and the rounding of `/ 255` and
  `/ 100` are not modelled.
- ReplaceNamesWithUniqueIds: nodes are renamed by rebuilding the tree value rather than by updating
  each node object in place. Aliasing between nodes is not captured. Meshes are an array renamed
  in place.
- GetNodes: modelled as the sequence it enumerates; the lazy `yield` enumeration is not modelled.
- GetFileNameWithoutExtension and GetExtension: the exception for invalid path characters is not
  modelled.
- Only the REVIT2019/REVIT2020 branches of the `#if` blocks are modelled.
- The `Centroid_Str` formatting and `Document.GetRoomAtPoint` are host code, so they are function
  parameters `format` and `roomAt`.
- The catch of the combination step (GeometryExtensions.cs:131-134) is not modelled. With exact
  reals it cannot be reached, because both divisors are non-zero (`Divisor`). Revit's `XYZ`
  division also throws for a divisor within its tolerance of zero, in which case the source
  returns `false` with no centroid. That tolerance case is left out.
- Strings.ToLower: lower-casing is modelled for the ASCII letters only. The source's culture-sensitive
  `ToLower` (MaterialUtilities.cs:63, Extensions.cs:183) also lowers non-ASCII capitals and
  depends on the current culture, for example the Turkish dotted and dotless i. So `MaterialUtilities.Classify`
  and `Extensions.Description` agree with the source on ASCII names only.
- The unused `bic` locals (Extensions.cs:123) and the commented-out logging are left out.
- AssetPropertyDescriptor.cs and the plugin files are not part of this model. The only parts used
  are property names and double-array values, which are fields of `Host.AssetProperty`.
