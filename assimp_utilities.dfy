/**
 * `AssimpUtilities`: post-processing of the imported Assimp scene. Node and mesh names are
 * rewritten from `Name [localId]` to the element's unique id, Revit materials are converted
 * to Assimp materials, and each material is bound to the meshes of the elements using it.
 * The Revit 2019/2020 variants of the version-dependent code are modelled.
 */
module AssimpUtilities {
  import opened Wrappers
  import opened Host
  import SF = SafenedFilename
  import MU = MaterialUtilities

  const UnknownObjectName: string := "Unknown Revit Object"

  // ---------------------------------------------------------------------------------------
  // Names

  predicate IsBracket(c: char) { c == '[' || c == ']' }

  predicate NoBracket(s: string)
  {
    forall i :: 0 <= i < |s| ==> !IsBracket(s[i])
  }

  /** `s.Split(new char[] { '[', ']' })`: the fragments between bracket characters, empty
      fragments included, so there is always at least one. */
  function Split(s: string): (r: seq<string>)
    ensures |r| >= 1
    ensures forall k :: 0 <= k < |r| ==> NoBracket(r[k])
    ensures NoBracket(s) ==> r == [s]
    ensures !NoBracket(s) ==> |r| > 1
  {
    if |s| == 0 then [""]
    else
      var rest := Split(s[1..]);
      assert forall i :: 1 <= i < |s| ==> s[i] == s[1..][i - 1];
      if IsBracket(s[0]) then [""] + rest
      else
        assert [s[0]] + s[1..] == s;
        [[s[0]] + rest[0]] + rest[1..]
  }

  /** `Enumerable.FirstOrDefault` over the fragments. */
  function FirstOrDefault(fragments: seq<string>): Option<string>
  {
    if |fragments| == 0 then None else Some(fragments[0])
  }

  /** The local function `GetUniqueIdFromNodeName` of `ReplaceNamesWithUniqueIds`. */
  function GetUniqueIdFromNodeName(nodeName: string, localToUniqueIdMap: map<string, string>): string
  {
    var fragments := Split(nodeName);
    if |fragments| > 1 then
      if fragments[1] in localToUniqueIdMap then localToUniqueIdMap[fragments[1]] else fragments[1]
    else
      match FirstOrDefault(fragments)
      case Some(f) => f
      case None => UnknownObjectName
  }

  /** A name without brackets, the empty name included, is returned unchanged; so the
      placeholder `UnknownObjectName` is never produced for it. */
  lemma PlainNameUnchanged(nodeName: string, localToUniqueIdMap: map<string, string>)
    requires NoBracket(nodeName)
    ensures GetUniqueIdFromNodeName(nodeName, localToUniqueIdMap) == nodeName
  {
  }

  /** A bracket-free prefix becomes part of the first fragment. */
  lemma {:induction false} SplitAfterPlain(a: string, rest: string)
    requires NoBracket(a)
    ensures Split(a + rest) == [a + Split(rest)[0]] + Split(rest)[1..]
  {
    if |a| > 0 {
      assert (a + rest)[1..] == a[1..] + rest;
      assert NoBracket(a[1..]) by {
        assert forall i :: 0 <= i < |a[1..]| ==> a[1..][i] == a[i + 1];
      }
      SplitAfterPlain(a[1..], rest);
      assert [a[0]] + (a[1..] + Split(rest)[0]) == a + Split(rest)[0];
    } else {
      var r := Split(rest);
      assert a + rest == rest && a + r[0] == r[0];
      assert r == [r[0]] + r[1..];
    }
  }

  /** A leading bracket closes an empty first fragment. */
  lemma SplitAtBracket(bracket: char, s: string)
    requires IsBracket(bracket)
    ensures Split([bracket] + s) == [""] + Split(s)
  {
    assert ([bracket] + s)[1..] == s;
  }

  /** A bracket-free `b` before a bracket is a whole first fragment. */
  lemma FragmentBeforeBracket(b: string, close: char, c: string)
    requires NoBracket(b) && IsBracket(close)
    ensures Split(b + ([close] + c))[0] == b
  {
    SplitAtBracket(close, c);
    SplitAfterPlain(b, [close] + c);
    assert b + "" == b;
  }

  /** The second fragment of `a[mid`, for a bracket-free `a`, is the first fragment of `mid`. */
  lemma SecondFragment(a: string, open: char, mid: string)
    requires NoBracket(a) && IsBracket(open)
    ensures |Split(a + ([open] + mid))| > 1
    ensures Split(a + ([open] + mid))[1] == Split(mid)[0]
  {
    SplitAtBracket(open, mid);
    SplitAfterPlain(a, [open] + mid);
  }

  /** A name of the form `a[b]c` (either bracket character at either place, `a` and `b`
      bracket-free) becomes the unique id mapped from `b`, or `b` itself when unmapped. */
  lemma BracketedName(a: string, open: char, b: string, close: char, c: string,
                      localToUniqueIdMap: map<string, string>)
    requires NoBracket(a) && NoBracket(b) && IsBracket(open) && IsBracket(close)
    ensures var name := a + [open] + b + [close] + c;
      GetUniqueIdFromNodeName(name, localToUniqueIdMap)
        == if b in localToUniqueIdMap then localToUniqueIdMap[b] else b
  {
    var mid := b + ([close] + c);
    FragmentBeforeBracket(b, close, c);
    SecondFragment(a, open, mid);
    assert a + [open] + b + [close] + c == a + ([open] + mid);
  }

  /** A rewritten name is bracket-free whenever the map's unique ids are, and rewriting it
      again changes nothing. */
  lemma RenameIsIdempotent(nodeName: string, localToUniqueIdMap: map<string, string>)
    requires forall k :: k in localToUniqueIdMap ==> NoBracket(localToUniqueIdMap[k])
    ensures NoBracket(GetUniqueIdFromNodeName(nodeName, localToUniqueIdMap))
    ensures var once := GetUniqueIdFromNodeName(nodeName, localToUniqueIdMap);
      GetUniqueIdFromNodeName(once, localToUniqueIdMap) == once
  {
  }

  /** A name with a bracket whose first bracketed fragment is unmapped becomes that
      fragment, which has no bracket. */
  lemma UnmappedIsBracketFree(nodeName: string, localToUniqueIdMap: map<string, string>)
    requires !NoBracket(nodeName) && Split(nodeName)[1] !in localToUniqueIdMap
    ensures GetUniqueIdFromNodeName(nodeName, localToUniqueIdMap) == Split(nodeName)[1]
    ensures NoBracket(GetUniqueIdFromNodeName(nodeName, localToUniqueIdMap))
  {
  }

  // ---------------------------------------------------------------------------------------
  // The node tree

  /** An Assimp `Node`: its name and its children in order. */
  datatype Node = Node(name: string, children: seq<Node>)

  /** `GetNodes`: every descendant of `root`, in pre-order, without `root` itself. */
  function GetNodes(root: Node): seq<Node>
    decreases root, |root.children| + 1
  {
    ChildrenFrom(root, 0)
  }

  /** The children of `root` from index `i` on, each followed by its own descendants. */
  function ChildrenFrom(root: Node, i: nat): seq<Node>
    decreases root, |root.children| - i
  {
    if i >= |root.children| then []
    else [root.children[i]] + GetNodes(root.children[i]) + ChildrenFrom(root, i + 1)
  }

  lemma {:induction false} DescendantsAreFewer(root: Node)
    ensures forall d :: d in GetNodes(root) ==> |GetNodes(d)| < |GetNodes(root)|
    decreases root, |root.children| + 1
  {
    ForestIsFewer(root, 0);
  }

  lemma {:induction false} ForestIsFewer(root: Node, i: nat)
    ensures forall d :: d in ChildrenFrom(root, i) ==> |GetNodes(d)| < |ChildrenFrom(root, i)|
    decreases root, |root.children| - i
  {
    if i < |root.children| {
      DescendantsAreFewer(root.children[i]);
      ForestIsFewer(root, i + 1);
    }
  }

  /** The walk never yields the root. */
  lemma RootNotListed(root: Node)
    ensures root !in GetNodes(root)
  {
    DescendantsAreFewer(root);
  }

  /** A node is yielded exactly when it is a child of the root or a descendant of one. */
  lemma Listed(root: Node, d: Node)
    ensures d in GetNodes(root) <==>
      exists k :: 0 <= k < |root.children| && (d == root.children[k] || d in GetNodes(root.children[k]))
  {
    ForestListed(root, 0, d);
  }

  lemma {:induction false} ForestListed(root: Node, i: nat, d: Node)
    ensures d in ChildrenFrom(root, i) <==>
      exists k :: i <= k < |root.children| && (d == root.children[k] || d in GetNodes(root.children[k]))
    decreases |root.children| - i
  {
    if i < |root.children| {
      ForestListed(root, i + 1, d);
    }
  }

  /** The walk depends only on the children, from any offset. */
  lemma {:induction false} ForestSuffix(x: Node, y: Node, offset: nat, i: nat)
    requires offset <= |x.children| && x.children[offset..] == y.children
    ensures ChildrenFrom(x, i + offset) == ChildrenFrom(y, i)
    decreases |y.children| - i
  {
    if i < |y.children| {
      assert x.children[i + offset] == y.children[i];
      ForestSuffix(x, y, offset, i + 1);
    }
  }

  /** Pre-order: the first child comes first, then its descendants, then the walk of the
      remaining children. */
  lemma PreOrder(name: string, c: Node, rest: seq<Node>)
    ensures GetNodes(Node(name, [c] + rest)) == [c] + GetNodes(c) + GetNodes(Node(name, rest))
  {
    var x := Node(name, [c] + rest);
    ForestSuffix(x, Node(name, rest), 1, 0);
  }

  /** `node.Name = GetUniqueIdFromNodeName(node.Name)` applied to a node and all its
      descendants. */
  function RenameTree(n: Node, localToUniqueIdMap: map<string, string>): Node
    decreases n
  {
    Node(GetUniqueIdFromNodeName(n.name, localToUniqueIdMap),
         seq(|n.children|, i requires 0 <= i < |n.children| => RenameTree(n.children[i], localToUniqueIdMap)))
  }

  /** The node loop of `ReplaceNamesWithUniqueIds`: every node `GetNodes` yields is renamed;
      the root is not. */
  function RenameDescendants(root: Node, localToUniqueIdMap: map<string, string>): Node
  {
    RenameTree(root, localToUniqueIdMap).(name := root.name)
  }

  function RenameAll(ns: seq<Node>, localToUniqueIdMap: map<string, string>): seq<Node>
  {
    seq(|ns|, k requires 0 <= k < |ns| => RenameTree(ns[k], localToUniqueIdMap))
  }

  lemma RenameAllConcat(a: seq<Node>, b: seq<Node>, localToUniqueIdMap: map<string, string>)
    ensures RenameAll(a + b, localToUniqueIdMap) == RenameAll(a, localToUniqueIdMap) + RenameAll(b, localToUniqueIdMap)
  {
  }

  lemma {:induction false} RenamedNodes(n: Node, localToUniqueIdMap: map<string, string>)
    ensures GetNodes(RenameTree(n, localToUniqueIdMap)) == RenameAll(GetNodes(n), localToUniqueIdMap)
    decreases n, |n.children| + 1
  {
    RenamedForest(n, localToUniqueIdMap, 0);
  }

  lemma {:induction false} RenamedForest(n: Node, localToUniqueIdMap: map<string, string>, i: nat)
    ensures ChildrenFrom(RenameTree(n, localToUniqueIdMap), i) == RenameAll(ChildrenFrom(n, i), localToUniqueIdMap)
    decreases n, |n.children| - i
  {
    var renamed := RenameTree(n, localToUniqueIdMap);
    assert |renamed.children| == |n.children|;
    if i < |n.children| {
      var c := n.children[i];
      var rc := RenameTree(c, localToUniqueIdMap);
      assert renamed.children[i] == rc;
      RenamedNodes(c, localToUniqueIdMap);
      RenamedForest(n, localToUniqueIdMap, i + 1);
      assert ChildrenFrom(renamed, i) == [rc] + GetNodes(rc) + ChildrenFrom(renamed, i + 1);
      RenameAllConcat([c] + GetNodes(c), ChildrenFrom(n, i + 1), localToUniqueIdMap);
      RenameAllConcat([c], GetNodes(c), localToUniqueIdMap);
      assert RenameAll([c], localToUniqueIdMap) == [rc];
    }
  }

  /** After renaming, the root keeps its name, the walk yields as many nodes as before, and
      the node at each position of the walk has the rewritten name of the node that was
      there. */
  lemma RenamedWalk(root: Node, localToUniqueIdMap: map<string, string>)
    ensures RenameDescendants(root, localToUniqueIdMap).name == root.name
    ensures var before, after := GetNodes(root), GetNodes(RenameDescendants(root, localToUniqueIdMap));
      |after| == |before|
      && forall k :: 0 <= k < |before| ==> after[k].name == GetUniqueIdFromNodeName(before[k].name, localToUniqueIdMap)
  {
    var renamed := RenameTree(root, localToUniqueIdMap);
    ForestSuffix(RenameDescendants(root, localToUniqueIdMap), renamed, 0, 0);
    RenamedNodes(root, localToUniqueIdMap);
  }

  // ---------------------------------------------------------------------------------------
  // Assimp materials

  /** Assimp's `Color4D`. */
  datatype Color4D = Color4D(r: real, g: real, b: real, a: real)

  datatype TextureType = Diffuse | Specular | Ambient | Emissive | Height | Normals
  datatype TextureMapping = FromUV | Sphere | Cylinder | Box | Plane
  datatype TextureOperation = Multiply | Add | Subtract | Divide | SmoothAdd | SignedAdd
  datatype TextureWrapMode = Wrap | Clamp | Decal | Mirror

  /** Assimp's `TextureSlot`. */
  datatype TextureSlot = TextureSlot(
    filePath: string,
    textureType: TextureType,
    textureIndex: int,
    mapping: TextureMapping,
    uvIndex: int,
    blendFactor: real,
    operation: TextureOperation,
    wrapModeU: TextureWrapMode,
    wrapModeV: TextureWrapMode,
    flags: int)

  /** The part of Assimp's `Material` the exporter sets. */
  datatype Material = Material(
    name: string,
    opacity: real,
    reflectivity: real,
    colorDiffuse: Color4D,
    textureDiffuse: Option<TextureSlot>,
    textureHeight: Option<TextureSlot>)

  function Abs(x: real): real { if x < 0.0 then -x else x }

  /** `GetOpacity`: the complement of the Revit transparency percentage. */
  function GetOpacity(mat: RevitMaterial): (r: real)
    ensures r >= 0.0
    ensures 0 <= mat.transparency <= 100 ==> 0.0 <= r <= 1.0 && r == 1.0 - mat.transparency as real / 100.0
  {
    var d := mat.transparency - 100;
    (if d < 0 then -d else d) as real / 100.0
  }

  /** `ToColor4D`: the colour's bytes scaled to [0, 1], with the material's opacity as alpha. */
  function ToColor4D(mat: RevitMaterial): (r: Color4D)
    ensures 0.0 <= r.r <= 1.0 && 0.0 <= r.g <= 1.0 && 0.0 <= r.b <= 1.0
    ensures r.r * 255.0 == mat.color.red as real && r.g * 255.0 == mat.color.green as real
      && r.b * 255.0 == mat.color.blue as real
    ensures r.a == GetOpacity(mat)
  {
    Color4D(mat.color.red as real / 255.0, mat.color.green as real / 255.0,
            mat.color.blue as real / 255.0, GetOpacity(mat))
  }

  /** `ColorFromAssetDoubleArray4d`: the first four values, or `Color4D(200)` when there are
      fewer. */
  function ColorFromDoubles(values: seq<real>): (r: Color4D)
    ensures |values| > 3 ==> r.r == values[0] && r.g == values[1] && r.b == values[2] && r.a == values[3]
    ensures |values| <= 3 ==> r == Color4D(200.0, 200.0, 200.0, 200.0)
  {
    if |values| > 3 then Color4D(values[0], values[1], values[2], values[3])
    else Color4D(200.0, 200.0, 200.0, 200.0)
  }

  /** Why `ConvertToAssimpMaterial` throws. */
  datatype ConversionError =
    | NoAppearanceElement          // `appearanceAsset.GetRenderingAsset()` on null
    | NoRenderingAsset             // the descriptor reads `Size` of a null asset
    | NotAColor(propertyName: string)  // `ColorFromAssetDoubleArray4d` on a null property

  /** The new material before the property loop. */
  function BaseMaterial(m: RevitMaterial): Material
  {
    Material(m.name, GetOpacity(m), 0.0, ToColor4D(m), None, None)
  }

  /** The property list of `RenderAppearanceDescriptor`: the names of the non-null
      properties, in index order. */
  function DescriptorNames(properties: seq<Option<AssetProperty>>): (r: seq<string>)
    ensures forall n :: n in r <==> exists i :: 0 <= i < |properties| && properties[i].Some? && properties[i].value.name == n
  {
    if |properties| == 0 then []
    else
      var rest := DescriptorNames(properties[1..]);
      assert forall i :: 1 <= i < |properties| ==> properties[i] == properties[1..][i - 1];
      if properties[0].Some? then [properties[0].value.name] + rest else rest
  }

  /** `GetAssetProperty<AssetPropertyDoubleArray4d>(key)` is not null. */
  predicate Is4d(properties: seq<Option<AssetProperty>>, key: string)
  {
    var p := FindByName(properties, key);
    p.Some? && p.value.value.DoubleArray4d?
  }

  /** The values of a 4d property found by name. */
  function Values4d(properties: seq<Option<AssetProperty>>, key: string): seq<real>
    requires Is4d(properties, key)
  {
    FindByName(properties, key).value.value.values
  }

  /** The glazing reflectance: the double (a distance included), else the float, else 0. */
  function Reflectance(properties: seq<Option<AssetProperty>>): real
  {
    var refl := FindByName(properties, "glazing_reflectance");
    if refl.Some? && IsDouble(refl.value.value) then DoubleOf(refl.value.value)
    else if refl.Some? && refl.value.value.FloatValue? then refl.value.value.f
    else 0.0
  }

  /** One case of the `switch` on a descriptor's name. */
  function Step(mat: Material, name: string, properties: seq<Option<AssetProperty>>): Result<Material, ConversionError>
  {
    if name == "generic_diffuse" then
      if Is4d(properties, "generic_diffuse") then
        Success(mat.(colorDiffuse := ColorFromDoubles(Values4d(properties, "generic_diffuse"))))
      else Failure(NotAColor("generic_diffuse"))
    else if name == "glazing_reflectance" then
      var reflectivity := Reflectance(properties);
      Success(mat.(reflectivity := reflectivity, opacity := Abs(0.0 - reflectivity)))
    else if name == "common_Tint_color" then
      if Is4d(properties, "generic_diffuse") then Success(mat)
      else if Is4d(properties, "common_Tint_color") then
        Success(mat.(colorDiffuse := ColorFromDoubles(Values4d(properties, "common_Tint_color"))))
      else Failure(NotAColor("common_Tint_color"))
    else Success(mat)
  }

  /** The case that throws for a descriptor name. */
  predicate StepFails(name: string, properties: seq<Option<AssetProperty>>)
  {
    (name == "generic_diffuse" && !Is4d(properties, "generic_diffuse"))
    || (name == "common_Tint_color" && !Is4d(properties, "generic_diffuse") && !Is4d(properties, "common_Tint_color"))
  }

  /** The property loop over the descriptor names, stopped by the first exception. */
  function Fold(base: Material, names: seq<string>, properties: seq<Option<AssetProperty>>): Result<Material, ConversionError>
  {
    if |names| == 0 then Success(base)
    else
      match Fold(base, names[..|names| - 1], properties)
      case Failure(e) => Failure(e)
      case Success(m) => Step(m, names[|names| - 1], properties)
  }

  /** A texture slot as the exporter builds it. */
  function SlotFor(name: SF.SafenedFilename): TextureSlot
  {
    TextureSlot("Textures/" + name.safeFileName, Diffuse, 0, Box, 0, 0.5, Add, Clamp, Clamp, 0)
  }

  /** The texture loop: a `Color` texture fills the diffuse slot, a `Bump` texture the height
      slot, an `Unknown` one nothing. */
  function WithTextures(mat: Material, paths: map<MU.RevitTextureType, SF.SafenedFilename>): Material
  {
    mat.(textureDiffuse := if MU.RevitTextureType.Color in paths then Some(SlotFor(paths[MU.RevitTextureType.Color])) else mat.textureDiffuse,
         textureHeight := if MU.RevitTextureType.Bump in paths then Some(SlotFor(paths[MU.RevitTextureType.Bump])) else mat.textureHeight)
  }

  /** `ConvertToAssimpMaterial`. */
  function Converted(bundle: MU.TextureBundle): Result<Material, ConversionError>
  {
    var m := bundle.material;
    if m.appearance.None? then Failure(NoAppearanceElement)
    else if m.appearance.value.renderingAsset.None? then Failure(NoRenderingAsset)
    else
      var properties := m.appearance.value.renderingAsset.value.properties;
      match Fold(BaseMaterial(m), DescriptorNames(properties), properties)
      case Failure(e) => Failure(e)
      case Success(mat) => Success(WithTextures(mat, bundle.texturePaths))
  }

  /** `ConvertToAssimpMaterial`, with its property and texture loops. */
  method ConvertToAssimpMaterial(bundle: MU.TextureBundle) returns (r: Result<Material, ConversionError>)
    ensures r == Converted(bundle)
  {
    var m := bundle.material;
    var newmat := BaseMaterial(m);
    if m.appearance.None? { return Failure(NoAppearanceElement); }
    var renderingAsset := m.appearance.value.renderingAsset;
    if renderingAsset.None? { return Failure(NoRenderingAsset); }
    var properties := renderingAsset.value.properties;
    var collection := DescriptorNames(properties);
    for i := 0 to |collection|
      invariant Fold(BaseMaterial(m), collection[..i], properties) == Success(newmat)
    {
      assert collection[..i + 1][..i] == collection[..i];
      var name := collection[i];
      if name == "generic_diffuse" {
        var prop := FindByName(properties, "generic_diffuse");
        if !(prop.Some? && prop.value.value.DoubleArray4d?) {
          FoldFailureStays(BaseMaterial(m), collection, i + 1, properties);
          assert collection[..|collection|] == collection;
          return Failure(NotAColor("generic_diffuse"));
        }
        newmat := newmat.(colorDiffuse := ColorFromDoubles(prop.value.value.values));
      } else if name == "glazing_reflectance" {
        var refl := FindByName(properties, "glazing_reflectance");
        var reflectivity: real;
        if refl.Some? && IsDouble(refl.value.value) {
          reflectivity := DoubleOf(refl.value.value);
        } else {
          var reflFloat := refl;
          reflectivity := if reflFloat.Some? && reflFloat.value.value.FloatValue? then reflFloat.value.value.f else 0.0;
        }
        newmat := newmat.(reflectivity := reflectivity, opacity := Abs(0.0 - reflectivity));
      } else if name == "common_Tint_color" {
        var diffuse := FindByName(properties, "generic_diffuse");
        if diffuse.Some? && diffuse.value.value.DoubleArray4d? { continue; }
        var tintProp := FindByName(properties, "common_Tint_color");
        if !(tintProp.Some? && tintProp.value.value.DoubleArray4d?) {
          FoldFailureStays(BaseMaterial(m), collection, i + 1, properties);
          assert collection[..|collection|] == collection;
          return Failure(NotAColor("common_Tint_color"));
        }
        newmat := newmat.(colorDiffuse := ColorFromDoubles(tintProp.value.value.values));
      }
    }
    assert collection[..|collection|] == collection;
    newmat := SetTextures(newmat, bundle.texturePaths);
    return Success(newmat);
  }

  /** The `foreach` over `bundle.TexturePaths`, in whatever order the map yields. */
  method SetTextures(mat: Material, texturePaths: map<MU.RevitTextureType, SF.SafenedFilename>) returns (newmat: Material)
    ensures newmat == WithTextures(mat, texturePaths)
  {
    newmat := mat;
    var pending := texturePaths.Keys;
    while pending != {}
      invariant pending <= texturePaths.Keys
      invariant newmat == WithTextures(mat, texturePaths - pending)
      decreases |pending|
    {
      var tx :| tx in pending;
      var done := texturePaths - (pending - {tx});
      assert done == (texturePaths - pending)[tx := texturePaths[tx]];
      if tx == MU.RevitTextureType.Color {
        newmat := newmat.(textureDiffuse := Some(SlotFor(texturePaths[tx])));
      } else if tx == MU.RevitTextureType.Bump {
        newmat := newmat.(textureHeight := Some(SlotFor(texturePaths[tx])));
      }
      pending := pending - {tx};
    }
    assert texturePaths - pending == texturePaths;
  }

  /** Once a case throws, the rest of the loop does not run. */
  lemma {:induction false} FoldFailureStays(base: Material, names: seq<string>, k: nat, properties: seq<Option<AssetProperty>>)
    requires k <= |names| && Fold(base, names[..k], properties).Failure?
    ensures Fold(base, names, properties) == Fold(base, names[..k], properties)
  {
    if k < |names| {
      assert names[..|names| - 1][..k] == names[..k];
      FoldFailureStays(base, names[..|names| - 1], k, properties);
    } else {
      assert names[..k] == names;
    }
  }

  /** The loop throws exactly when some descriptor name hits a throwing case. */
  lemma {:induction false} FoldFailsIff(base: Material, names: seq<string>, properties: seq<Option<AssetProperty>>)
    ensures Fold(base, names, properties).Failure? <==> exists k :: 0 <= k < |names| && StepFails(names[k], properties)
  {
    if |names| > 0 {
      var front := names[..|names| - 1];
      FoldFailsIff(base, front, properties);
      assert forall k :: 0 <= k < |front| ==> front[k] == names[k];
      if Fold(base, front, properties).Success? {
        assert forall k :: 0 <= k < |front| ==> !StepFails(names[k], properties);
      }
    }
  }

  /** The loop never changes the name or the texture slots; the glazing reflectance, once
      seen, sets the reflectivity and makes the opacity its absolute value; without it both
      keep their base values. */
  lemma {:induction false} FoldReflectance(base: Material, names: seq<string>, properties: seq<Option<AssetProperty>>)
    requires Fold(base, names, properties).Success?
    ensures var r := Fold(base, names, properties).value;
      r.name == base.name && r.textureDiffuse == base.textureDiffuse && r.textureHeight == base.textureHeight
      && ("glazing_reflectance" in names ==>
            r.reflectivity == Reflectance(properties) && r.opacity == Abs(Reflectance(properties)))
      && ("glazing_reflectance" !in names ==> r.reflectivity == base.reflectivity && r.opacity == base.opacity)
  {
    if |names| > 0 {
      var front := names[..|names| - 1];
      assert names == front + [names[|names| - 1]];
      FoldReflectance(base, front, properties);
    }
  }

  /** The diffuse colour after the loop: from `generic_diffuse` once it has been seen; else
      from `common_Tint_color` once that has been seen and the asset has no 4d
      `generic_diffuse`; else the base colour. */
  lemma {:induction false} FoldColour(base: Material, names: seq<string>, properties: seq<Option<AssetProperty>>)
    requires Fold(base, names, properties).Success?
    ensures var r := Fold(base, names, properties).value;
      r.colorDiffuse ==
        if "generic_diffuse" in names && Is4d(properties, "generic_diffuse") then
          ColorFromDoubles(Values4d(properties, "generic_diffuse"))
        else if "common_Tint_color" in names && !Is4d(properties, "generic_diffuse") && Is4d(properties, "common_Tint_color") then
          ColorFromDoubles(Values4d(properties, "common_Tint_color"))
        else base.colorDiffuse
  {
    if |names| > 0 {
      var front := names[..|names| - 1];
      assert names == front + [names[|names| - 1]];
      FoldColour(base, front, properties);
      if "generic_diffuse" in names {
        FoldFailsIff(base, names, properties);
        var k :| 0 <= k < |names| && names[k] == "generic_diffuse";
        assert !StepFails(names[k], properties);
      }
    }
  }

  /** With a 4d `generic_diffuse` in the asset, the colour properties cannot throw and the
      diffuse colour is `generic_diffuse`, whatever the order of the properties and whether
      `common_Tint_color` is present. */
  lemma GenericDiffuseWins(bundle: MU.TextureBundle)
    requires bundle.material.appearance.Some? && bundle.material.appearance.value.renderingAsset.Some?
    requires Is4d(bundle.material.appearance.value.renderingAsset.value.properties, "generic_diffuse")
    ensures var properties := bundle.material.appearance.value.renderingAsset.value.properties;
      Converted(bundle).Success?
      && Converted(bundle).value.colorDiffuse == ColorFromDoubles(Values4d(properties, "generic_diffuse"))
  {
    var properties := bundle.material.appearance.value.renderingAsset.value.properties;
    var names := DescriptorNames(properties);
    var base := BaseMaterial(bundle.material);
    FoldFailsIff(base, names, properties);
    FoldColour(base, names, properties);
    assert "generic_diffuse" in names;
  }

  /** Without a `generic_diffuse` property, a 4d `common_Tint_color` gives the diffuse
      colour. */
  lemma TintWithoutDiffuse(bundle: MU.TextureBundle)
    requires bundle.material.appearance.Some? && bundle.material.appearance.value.renderingAsset.Some?
    requires var properties := bundle.material.appearance.value.renderingAsset.value.properties;
      FindByName(properties, "generic_diffuse").None? && Is4d(properties, "common_Tint_color")
    ensures var properties := bundle.material.appearance.value.renderingAsset.value.properties;
      Converted(bundle).Success?
      && Converted(bundle).value.colorDiffuse == ColorFromDoubles(Values4d(properties, "common_Tint_color"))
  {
    var properties := bundle.material.appearance.value.renderingAsset.value.properties;
    var names := DescriptorNames(properties);
    var base := BaseMaterial(bundle.material);
    FoldFailsIff(base, names, properties);
    assert "generic_diffuse" !in names;
    FoldColour(base, names, properties);
    assert "common_Tint_color" in names;
  }

  /** The conversion throws exactly when the material has no appearance element or
      rendering asset, when a `generic_diffuse` property is not a 4d colour, or when a
      `common_Tint_color` property is present, is not a 4d colour and no 4d
      `generic_diffuse` overrides it. */
  lemma ConversionFailsIff(bundle: MU.TextureBundle)
    ensures var m := bundle.material;
      Converted(bundle).Failure? <==>
        m.appearance.None? || m.appearance.value.renderingAsset.None?
        || var properties := m.appearance.value.renderingAsset.value.properties;
          (FindByName(properties, "generic_diffuse").Some? && !Is4d(properties, "generic_diffuse"))
          || (FindByName(properties, "common_Tint_color").Some? && !Is4d(properties, "generic_diffuse")
              && !Is4d(properties, "common_Tint_color"))
  {
    var m := bundle.material;
    if m.appearance.Some? && m.appearance.value.renderingAsset.Some? {
      var properties := m.appearance.value.renderingAsset.value.properties;
      var names := DescriptorNames(properties);
      FoldFailsIff(BaseMaterial(m), names, properties);
      assert "generic_diffuse" in names <==> FindByName(properties, "generic_diffuse").Some?;
      assert "common_Tint_color" in names <==> FindByName(properties, "common_Tint_color").Some?;
    }
  }

  /** A converted material keeps the Revit material's name; its reflectivity is 0 and its
      opacity the Revit opacity unless a glazing reflectance sets both; its slots hold
      exactly the bundle's `Color` and `Bump` textures, under `Textures/`, both typed
      `Diffuse`. */
  lemma ConvertedMaterial(bundle: MU.TextureBundle)
    requires Converted(bundle).Success?
    ensures var r, m := Converted(bundle).value, bundle.material;
      var properties := m.appearance.value.renderingAsset.value.properties;
      var paths := bundle.texturePaths;
      r.name == m.name
      && (FindByName(properties, "glazing_reflectance").Some? ==>
            r.reflectivity == Reflectance(properties) && r.opacity == Abs(r.reflectivity))
      && (FindByName(properties, "glazing_reflectance").None? ==> r.reflectivity == 0.0 && r.opacity == GetOpacity(m))
      && (r.textureDiffuse.Some? <==> MU.RevitTextureType.Color in paths)
      && (r.textureHeight.Some? <==> MU.RevitTextureType.Bump in paths)
      && (MU.RevitTextureType.Color in paths ==>
            r.textureDiffuse.value.filePath == "Textures/" + paths[MU.RevitTextureType.Color].safeFileName
            && r.textureDiffuse.value.textureType == Diffuse)
      && (MU.RevitTextureType.Bump in paths ==>
            r.textureHeight.value.filePath == "Textures/" + paths[MU.RevitTextureType.Bump].safeFileName
            && r.textureHeight.value.textureType == Diffuse)
  {
    var m := bundle.material;
    var properties := m.appearance.value.renderingAsset.value.properties;
    var names := DescriptorNames(properties);
    FoldReflectance(BaseMaterial(m), names, properties);
    assert "glazing_reflectance" in names <==> FindByName(properties, "glazing_reflectance").Some?;
  }

  /** The glazing reflectance by the class of its value: a double or a distance (which
      `as AssetPropertyDouble` also accepts) gives its value, a float its value, anything
      else reflectivity and opacity 0. */
  lemma GlazingReflectanceByClass(bundle: MU.TextureBundle)
    requires Converted(bundle).Success?
    ensures var r := Converted(bundle).value;
      var refl := FindByName(bundle.material.appearance.value.renderingAsset.value.properties, "glazing_reflectance");
      refl.Some? ==>
        (refl.value.value.DoubleValue? ==> r.reflectivity == refl.value.value.d)
        && (refl.value.value.DistanceValue? ==> r.reflectivity == refl.value.value.distance)
        && (refl.value.value.FloatValue? ==> r.reflectivity == refl.value.value.f)
        && (!refl.value.value.DoubleValue? && !refl.value.value.DistanceValue? && !refl.value.value.FloatValue? ==>
              r.reflectivity == 0.0 && r.opacity == 0.0)
  {
    ConvertedMaterial(bundle);
  }

  /** A material whose asset has none of the three recognised properties converts to its
      base values: its colour, with the opacity as alpha, and reflectivity 0. */
  lemma BaseValuesWithoutProperties(bundle: MU.TextureBundle)
    requires bundle.material.appearance.Some? && bundle.material.appearance.value.renderingAsset.Some?
    requires var properties := bundle.material.appearance.value.renderingAsset.value.properties;
      FindByName(properties, "generic_diffuse").None? && FindByName(properties, "glazing_reflectance").None?
      && FindByName(properties, "common_Tint_color").None?
    ensures Converted(bundle).Success?
    ensures var r := Converted(bundle).value;
      r.colorDiffuse == ToColor4D(bundle.material) && r.colorDiffuse.a == r.opacity
      && r.opacity == GetOpacity(bundle.material) && r.reflectivity == 0.0
  {
    var m := bundle.material;
    var properties := m.appearance.value.renderingAsset.value.properties;
    var names := DescriptorNames(properties);
    var base := BaseMaterial(m);
    FoldFailsIff(base, names, properties);
    assert "generic_diffuse" !in names && "common_Tint_color" !in names && "glazing_reflectance" !in names;
    FoldColour(base, names, properties);
    FoldReflectance(base, names, properties);
  }

  // ---------------------------------------------------------------------------------------
  // The scene

  /** An Assimp `Mesh`: its name and its material index. */
  datatype Mesh = Mesh(name: string, materialIndex: int)

  /** The Assimp `Scene`: the node tree, the meshes and the materials. */
  class Scene {
    var root: Node
    const meshes: array<Mesh>
    var materials: seq<Material>

    constructor(root: Node, meshes: array<Mesh>, materials: seq<Material>)
      ensures this.root == root && this.meshes == meshes && this.materials == materials
    {
      this.root := root;
      this.meshes := meshes;
      this.materials := materials;
    }

    /** Every mesh refers to one of the scene's materials. */
    predicate IndicesInRange()
      reads this, meshes
    {
      forall i :: 0 <= i < meshes.Length ==> 0 <= meshes[i].materialIndex < |materials|
    }

    /** `ReplaceNamesWithUniqueIds`: every node below the root and every mesh gets its
        rewritten name; nothing else changes. */
    method ReplaceNamesWithUniqueIds(localToUniqueIdMap: map<string, string>)
      modifies this, meshes
      ensures root == RenameDescendants(old(root), localToUniqueIdMap)
      ensures materials == old(materials)
      ensures forall i :: 0 <= i < meshes.Length ==>
        meshes[i] == old(meshes[i]).(name := GetUniqueIdFromNodeName(old(meshes[i].name), localToUniqueIdMap))
    {
      root := RenameDescendants(root, localToUniqueIdMap);
      for i := 0 to meshes.Length
        invariant root == RenameDescendants(old(root), localToUniqueIdMap) && materials == old(materials)
        invariant forall k :: 0 <= k < i ==>
          meshes[k] == old(meshes[k]).(name := GetUniqueIdFromNodeName(old(meshes[k].name), localToUniqueIdMap))
        invariant forall k :: i <= k < meshes.Length ==> meshes[k] == old(meshes[k])
      {
        meshes[i] := meshes[i].(name := GetUniqueIdFromNodeName(meshes[i].name, localToUniqueIdMap));
      }
    }

    /** `AddAndAssignMaterial`: the meshes named in `uniqueIdsOfElementsWithMat` get the
        index the material will have, and the material is appended exactly when one did. */
    method AddAndAssignMaterial(mat: Material, uniqueIdsOfElementsWithMat: set<string>) returns (utilized: bool)
      modifies this, meshes
      ensures root == old(root)
      ensures |uniqueIdsOfElementsWithMat| == 0 ==>
        !utilized && materials == old(materials) && meshes[..] == old(meshes[..])
      ensures utilized <==> exists i :: 0 <= i < meshes.Length && old(meshes[i].name) in uniqueIdsOfElementsWithMat
      ensures forall i :: 0 <= i < meshes.Length ==>
        meshes[i].name == old(meshes[i].name)
        && meshes[i].materialIndex ==
             if old(meshes[i].name) in uniqueIdsOfElementsWithMat then |old(materials)| else old(meshes[i].materialIndex)
      ensures materials == if utilized then old(materials) + [mat] else old(materials)
      ensures old(IndicesInRange()) ==> IndicesInRange()
    {
      utilized := false;
      if |uniqueIdsOfElementsWithMat| == 0 { return; }
      var matIndex := |materials|;
      for i := 0 to meshes.Length
        invariant root == old(root) && materials == old(materials)
        invariant utilized <==> exists k :: 0 <= k < i && old(meshes[k].name) in uniqueIdsOfElementsWithMat
        invariant forall k :: 0 <= k < i ==>
          meshes[k].name == old(meshes[k].name)
          && meshes[k].materialIndex ==
               if old(meshes[k].name) in uniqueIdsOfElementsWithMat then matIndex else old(meshes[k].materialIndex)
        invariant forall k :: i <= k < meshes.Length ==> meshes[k] == old(meshes[k])
      {
        if meshes[i].name in uniqueIdsOfElementsWithMat {
          meshes[i] := meshes[i].(materialIndex := matIndex);
          utilized := true;
        }
      }
      if utilized {
        materials := materials + [mat];
      }
    }
  }
}
