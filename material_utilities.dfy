/**
 * `MaterialUtilities`: which textures a Revit material carries, by role, and the per-document
 * cache of the bundles found. The texture library (`RevitTextures`, the extensionless file
 * names of the shared texture folder) is a given map.
 */
module MaterialUtilities {
  import opened Wrappers
  import opened Host
  import opened Strings
  import opened SystemPath
  import SF = SafenedFilename

  /** `RevitTextureType`. */
  datatype RevitTextureType = Unknown | Color | Bump

  /** `TextureTypeKeywords`, in the dictionary's order: the colour keywords, then the bump
      keywords. */
  const TextureTypeKeywords: seq<(RevitTextureType, seq<string>)> :=
    [(RevitTextureType.Color, ["color", "diffuse", "unifiedbitmapschema"]),
     (Bump, ["bm_map", "bump", "pattern_map"])]

  const ColorKeywords: seq<string> := TextureTypeKeywords[0].1
  const BumpKeywords: seq<string> := TextureTypeKeywords[1].1

  predicate AnyOccurs(s: string, words: seq<string>)
  {
    exists w :: w in words && Contains(s, w)
  }

  /** The role of the first table entry one of whose keywords occurs in `s`. */
  function FirstRole(s: string, table: seq<(RevitTextureType, seq<string>)>): (r: Option<RevitTextureType>)
    ensures r.Some? ==> exists i :: 0 <= i < |table| && table[i].0 == r.value && AnyOccurs(s, table[i].1)
    ensures r.None? ==> forall i :: 0 <= i < |table| ==> !AnyOccurs(s, table[i].1)
  {
    if |table| == 0 then None
    else if AnyOccurs(s, table[0].1) then Some(table[0].0)
    else
      var r := FirstRole(s, table[1..]);
      assert forall i :: 1 <= i < |table| ==> table[i] == table[1..][i - 1];
      r
  }

  /** The role a connected asset's name indicates, if any. */
  function Classify(assetName: string): Option<RevitTextureType>
  {
    FirstRole(ToLower(assetName), TextureTypeKeywords)
  }

  /** `TryGetTextureTypeFromAssetName`: the nested search with early return. */
  method TryGetTextureTypeFromAssetName(assetName: string) returns (found: bool, t: RevitTextureType)
    ensures found == Classify(assetName).Some?
    ensures found ==> t == Classify(assetName).value
    ensures !found ==> t == Unknown
  {
    t := Unknown;
    var lowerCaseName := ToLower(assetName);
    var i := 0;
    while i < |TextureTypeKeywords|
      invariant 0 <= i <= |TextureTypeKeywords|
      invariant forall k :: 0 <= k < i ==> !AnyOccurs(lowerCaseName, TextureTypeKeywords[k].1)
    {
      var (key, words) := TextureTypeKeywords[i];
      var j := 0;
      while j < |words|
        invariant 0 <= j <= |words|
        invariant forall l :: 0 <= l < j ==> !Contains(lowerCaseName, words[l])
      {
        if Contains(lowerCaseName, words[j]) {
          FirstRoleAt(lowerCaseName, TextureTypeKeywords, i);
          return true, key;
        }
        j := j + 1;
      }
      i := i + 1;
    }
    return false, Unknown;
  }

  /** The first entry with a match decides. */
  lemma {:induction false} FirstRoleAt(s: string, table: seq<(RevitTextureType, seq<string>)>, i: nat)
    requires i < |table| && AnyOccurs(s, table[i].1)
    requires forall k :: 0 <= k < i ==> !AnyOccurs(s, table[k].1)
    ensures FirstRole(s, table) == Some(table[i].0)
  {
    if i > 0 {
      assert !AnyOccurs(s, table[0].1);
      FirstRoleAt(s, table[1..], i - 1);
    }
  }

  /** Colour keywords are tested first: a name with both a colour and a bump keyword is a
      colour texture; with only a bump keyword, a bump texture; with neither, unknown. */
  lemma ClassifyByKeywords(assetName: string)
    ensures var s := ToLower(assetName);
      Classify(assetName) ==
        if AnyOccurs(s, ColorKeywords) then Some(RevitTextureType.Color)
        else if AnyOccurs(s, BumpKeywords) then Some(Bump)
        else None
  {
    var s := ToLower(assetName);
    if !AnyOccurs(s, ColorKeywords) && AnyOccurs(s, BumpKeywords) {
      FirstRoleAt(s, TextureTypeKeywords, 1);
    }
  }

  /** A found role is never `Unknown`. */
  lemma ClassifiedIsKnown(assetName: string)
    ensures Classify(assetName) != Some(Unknown)
  {
  }

  // ---------------------------------------------------------------------------------------
  // Bundles

  /** `TextureBundle`: the material and at most one texture per role. */
  datatype TextureBundle = TextureBundle(material: RevitMaterial, texturePaths: map<RevitTextureType, SF.SafenedFilename>)

  /** `connectedAsset[UnifiedBitmap.UnifiedbitmapBitmap] as AssetPropertyString`, when its
      value is neither null nor empty. */
  function BitmapPath(connected: Asset): Option<string>
  {
    match FindByName(connected.properties, "unifiedbitmap_Bitmap")
    case Some(AssetProperty(_, StringValue(s), _)) => if s == "" then None else Some(s)
    case _ => None
  }

  /** A property the loop cannot read throws: a null property, or a first connection that is
      not an `Asset`. */
  predicate Faults(prop: Option<AssetProperty>)
  {
    prop.None? || (|prop.value.connected| >= 1 && prop.value.connected[0].None?)
  }

  /** The texture a readable property contributes: the role of its first connection's name
      and the library path of its bitmap's extensionless name; none when it has no
      connection, no bitmap path, no role or a name outside the library. */
  function TextureOf(prop: Option<AssetProperty>, library: map<string, string>): Option<(RevitTextureType, SF.SafenedFilename)>
    requires !Faults(prop)
  {
    var p := prop.value;
    if |p.connected| < 1 then None
    else
      var connected := p.connected[0].value;
      match BitmapPath(connected)
      case None => None
      case Some(path) =>
        match Classify(connected.name)
        case None => None
        case Some(t) =>
          var assetName := GetFileNameWithoutExtension(path);
          if assetName in library then Some((t, SF.Create(library[assetName]))) else None
  }

  /** One pass of the property loop: `None` once the material's bundle is dropped (a fault, or
      a second texture of a role, where `TexturePaths.Add` throws). */
  function ScanProperty(paths: map<RevitTextureType, SF.SafenedFilename>, prop: Option<AssetProperty>,
                        library: map<string, string>): Option<map<RevitTextureType, SF.SafenedFilename>>
  {
    if Faults(prop) then None else AddContribution(paths, TextureOf(prop, library))
  }

  /** `TexturePaths.Add` of a contributed texture, if any: `None` when its role is already
      there, where `Add` throws. */
  function AddContribution(paths: map<RevitTextureType, SF.SafenedFilename>, c: Option<(RevitTextureType, SF.SafenedFilename)>)
    : Option<map<RevitTextureType, SF.SafenedFilename>>
  {
    match c
    case None => Some(paths)
    case Some((t, name)) => if t in paths then None else Some(paths[t := name])
  }

  function ScanProperties(props: seq<Option<AssetProperty>>, library: map<string, string>)
    : Option<map<RevitTextureType, SF.SafenedFilename>>
  {
    if |props| == 0 then Some(map[])
    else
      match ScanProperties(props[..|props| - 1], library)
      case None => None
      case Some(paths) => ScanProperty(paths, props[|props| - 1], library)
  }

  /** The bundle of one material, if it has one: it needs an appearance element with a
      rendering asset, and a scan that was not dropped. */
  function BundleOf(m: RevitMaterial, library: map<string, string>): Option<TextureBundle>
  {
    if m.appearance.None? || m.appearance.value.renderingAsset.None? then None
    else
      match ScanProperties(m.appearance.value.renderingAsset.value.properties, library)
      case None => None
      case Some(paths) => Some(TextureBundle(m, paths))
  }

  function BundlesOf(ms: seq<RevitMaterial>, library: map<string, string>): seq<TextureBundle>
  {
    if |ms| == 0 then []
    else
      var rest := BundlesOf(ms[..|ms| - 1], library);
      match BundleOf(ms[|ms| - 1], library)
      case None => rest
      case Some(b) => rest + [b]
  }

  /** The static `RevitTextures`, `_bundleCache` and `_texturePathCache`. */
  class MaterialLibrary {
    const revitTextures: map<string, string>
    var bundleCache: map<string, seq<TextureBundle>>
    var texturePathCache: map<string, seq<string>>

    /** Both caches have the same documents, and no texture path is ever recorded. */
    predicate Valid()
      reads this
    {
      bundleCache.Keys == texturePathCache.Keys
      && forall k :: k in texturePathCache ==> texturePathCache[k] == []
    }

    constructor(revitTextures: map<string, string>)
      ensures Valid()
      ensures this.revitTextures == revitTextures && bundleCache == map[] && texturePathCache == map[]
    {
      this.revitTextures := revitTextures;
      bundleCache := map[];
      texturePathCache := map[];
    }

    /** One iteration of the material loop: `None` when the material is skipped or its
        bundle is dropped by the `catch`. */
    method TryBuildBundle(m: RevitMaterial) returns (bundle: Option<TextureBundle>)
      ensures bundle == BundleOf(m, revitTextures)
    {
      if m.appearance.None? { return None; }
      var asset := m.appearance.value.renderingAsset;
      if asset.None? { return None; }
      var props := asset.value.properties;
      var paths: map<RevitTextureType, SF.SafenedFilename> := map[];
      for assetIdx := 0 to |props|
        invariant ScanProperties(props[..assetIdx], revitTextures) == Some(paths)
      {
        assert props[..assetIdx + 1][..assetIdx] == props[..assetIdx];
        var aProperty := props[assetIdx];
        if aProperty.None? {
          DropStays(props, assetIdx + 1, revitTextures);
          return None;
        }
        if |aProperty.value.connected| < 1 { continue; }
        var connectedAsset := aProperty.value.connected[0];
        if connectedAsset.None? {
          DropStays(props, assetIdx + 1, revitTextures);
          return None;
        }
        var path := BitmapPath(connectedAsset.value);
        if path.None? { continue; }
        var found, t := TryGetTextureTypeFromAssetName(connectedAsset.value.name);
        if found {
          var assetName := GetFileNameWithoutExtension(path.value);
          if assetName in revitTextures {
            if t in paths {
              DropStays(props, assetIdx + 1, revitTextures);
              return None;
            }
            paths := paths[t := SF.Create(revitTextures[assetName])];
          }
        }
      }
      assert props[..|props|] == props;
      return Some(TextureBundle(m, paths));
    }

    /** The material loop of `GetTextureBundles`, in document order. */
    method ScanMaterials(ms: seq<RevitMaterial>) returns (bundles: seq<TextureBundle>)
      ensures bundles == BundlesOf(ms, revitTextures)
    {
      bundles := [];
      for i := 0 to |ms|
        invariant bundles == BundlesOf(ms[..i], revitTextures)
      {
        assert ms[..i + 1][..i] == ms[..i];
        var bundle := TryBuildBundle(ms[i]);
        if bundle.Some? {
          bundles := bundles + [bundle.value];
        }
      }
      assert ms[..|ms|] == ms;
    }

    /** `GetTextureBundles`: a document seen before returns the cached list; otherwise its
        materials are scanned in order and the list is cached. `paths` is always empty. */
    method GetTextureBundles(doc: Document) returns (bundles: seq<TextureBundle>, paths: seq<string>)
      requires Valid()
      modifies this
      ensures Valid()
      ensures paths == []
      ensures old(doc.pathName in bundleCache) ==>
        bundles == old(bundleCache[doc.pathName])
        && bundleCache == old(bundleCache) && texturePathCache == old(texturePathCache)
      ensures old(doc.pathName !in bundleCache) ==>
        bundles == BundlesOf(doc.materials, revitTextures)
        && bundleCache == old(bundleCache)[doc.pathName := bundles]
        && texturePathCache == old(texturePathCache)[doc.pathName := []]
    {
      if doc.pathName in bundleCache {
        paths := texturePathCache[doc.pathName];
        return bundleCache[doc.pathName], paths;
      }
      texturePathCache := texturePathCache[doc.pathName := []];
      bundles := ScanMaterials(doc.materials);
      bundleCache := bundleCache[doc.pathName := bundles];
      paths := texturePathCache[doc.pathName];
    }
  }

  // ---------------------------------------------------------------------------------------
  // Properties

  /** Once dropped, a bundle stays dropped whatever properties follow. */
  lemma {:induction false} DropStays(props: seq<Option<AssetProperty>>, k: nat, library: map<string, string>)
    requires k <= |props| && ScanProperties(props[..k], library).None?
    ensures ScanProperties(props, library).None?
  {
    if k < |props| {
      assert props[..|props| - 1][..k] == props[..k];
      DropStays(props[..|props| - 1], k, library);
    } else {
      assert props[..k] == props;
    }
  }

  /** The scan only adds roles, never replaces a texture. */
  lemma {:induction false} ScanGrows(props: seq<Option<AssetProperty>>, k: nat, library: map<string, string>)
    requires k <= |props| && ScanProperties(props, library).Some?
    ensures ScanProperties(props[..k], library).Some?
    ensures var before, after := ScanProperties(props[..k], library).value, ScanProperties(props, library).value;
      forall t :: t in before ==> t in after && after[t] == before[t]
  {
    if k < |props| {
      var front := props[..|props| - 1];
      assert front[..k] == props[..k];
      ScanGrows(front, k, library);
    } else {
      assert props[..k] == props;
    }
  }

  /** What one readable property contributes is a known role and a library path. */
  lemma TextureOfIsFromLibrary(prop: Option<AssetProperty>, library: map<string, string>)
    requires !Faults(prop) && TextureOf(prop, library).Some?
    ensures TextureOf(prop, library).value.0 != Unknown
    ensures exists k :: k in library && TextureOf(prop, library).value.1 == SF.Create(library[k])
  {
    ClassifiedIsKnown(prop.value.connected[0].value.name);
  }

  /** Property `i` of `props` is readable and contributed texture `f` for role `t`. */
  predicate ContributedBy(props: seq<Option<AssetProperty>>, library: map<string, string>, i: int,
                          t: RevitTextureType, f: SF.SafenedFilename)
  {
    0 <= i < |props| && !Faults(props[i]) && TextureOf(props[i], library) == Some((t, f))
  }

  /** One pass keeps the textures found so far and adds at most what the property
      contributes. */
  lemma ScanPropertyStep(paths: map<RevitTextureType, SF.SafenedFilename>, prop: Option<AssetProperty>,
                         library: map<string, string>)
    requires ScanProperty(paths, prop, library).Some?
    ensures var after := ScanProperty(paths, prop, library).value;
      forall t :: t in after ==>
        (t in paths && after[t] == paths[t]) || (!Faults(prop) && TextureOf(prop, library) == Some((t, after[t])))
  {
  }

  /** Every texture of a bundle is what some readable property of the material
      contributed. */
  lemma {:induction false} ScannedTexturesAreContributed(props: seq<Option<AssetProperty>>, library: map<string, string>)
    requires ScanProperties(props, library).Some?
    ensures var paths := ScanProperties(props, library).value;
      forall t :: t in paths ==> exists i :: ContributedBy(props, library, i, t, paths[t])
  {
    if |props| > 0 {
      var front := props[..|props| - 1];
      ScannedTexturesAreContributed(front, library);
      var before := ScanProperties(front, library).value;
      var paths := ScanProperties(props, library).value;
      ScanPropertyStep(before, props[|props| - 1], library);
      forall t | t in paths
        ensures exists i :: ContributedBy(props, library, i, t, paths[t])
      {
        if t in before && paths[t] == before[t] {
          var i :| ContributedBy(front, library, i, t, before[t]);
          assert props[i] == front[i];
          assert ContributedBy(props, library, i, t, paths[t]);
        } else {
          assert ContributedBy(props, library, |props| - 1, t, paths[t]);
        }
      }
    }
  }

  /** Every texture of a bundle has a known role and a path from the texture library. */
  lemma BundleTexturesFromLibrary(m: RevitMaterial, library: map<string, string>)
    requires BundleOf(m, library).Some?
    ensures var paths := BundleOf(m, library).value.texturePaths;
      forall t :: t in paths ==> t != Unknown && exists k :: k in library && paths[t] == SF.Create(library[k])
  {
    var props := m.appearance.value.renderingAsset.value.properties;
    var paths := BundleOf(m, library).value.texturePaths;
    ScannedTexturesAreContributed(props, library);
    forall t | t in paths
      ensures t != Unknown && exists k :: k in library && paths[t] == SF.Create(library[k])
    {
      var i :| ContributedBy(props, library, i, t, paths[t]);
      TextureOfIsFromLibrary(props[i], library);
    }
  }

  /** The scan of one more property is a pass over the scan so far. */
  lemma ScanPrefixStep(props: seq<Option<AssetProperty>>, library: map<string, string>, k: nat)
    requires k < |props|
    ensures ScanProperties(props[..k], library).None? ==> ScanProperties(props[..k + 1], library).None?
    ensures ScanProperties(props[..k], library).Some? ==>
      ScanProperties(props[..k + 1], library) == ScanProperty(ScanProperties(props[..k], library).value, props[k], library)
  {
    assert props[..k + 1][..k] == props[..k];
  }

  /** A contributing property adds its role, or drops the bundle if the role is known. */
  lemma ScanPropertyAdds(paths: map<RevitTextureType, SF.SafenedFilename>, prop: Option<AssetProperty>,
                         library: map<string, string>)
    requires !Faults(prop) && TextureOf(prop, library).Some?
    ensures var t := TextureOf(prop, library).value.0;
      ScanProperty(paths, prop, library) == if t in paths then None else Some(paths[t := TextureOf(prop, library).value.1])
  {
  }

  /** The pass of a readable property contributing an already-found role drops the bundle. */
  lemma KnownRoleDrops(props: seq<Option<AssetProperty>>, library: map<string, string>, k: nat)
    requires k < |props| && ScanProperties(props[..k], library).Some?
    requires !Faults(props[k]) && TextureOf(props[k], library).Some?
    requires TextureOf(props[k], library).value.0 in ScanProperties(props[..k], library).value
    ensures ScanProperties(props[..k + 1], library).None?
  {
    ScanPrefixStep(props, library, k);
    ScanPropertyAdds(ScanProperties(props[..k], library).value, props[k], library);
  }

  /** The pass of a readable property contributing a texture records its role. */
  lemma ContributionRecorded(props: seq<Option<AssetProperty>>, library: map<string, string>, k: nat)
    requires k < |props| && ScanProperties(props[..k + 1], library).Some?
    requires !Faults(props[k]) && TextureOf(props[k], library).Some?
    ensures TextureOf(props[k], library).value.0 in ScanProperties(props[..k + 1], library).value
  {
    ScanPrefixStep(props, library, k);
    ScanPropertyAdds(ScanProperties(props[..k], library).value, props[k], library);
  }

  /** Two readable properties that both contribute a texture of the same role drop the whole
      bundle, as the second `TexturePaths.Add` throws. */
  lemma DuplicateRoleDropsBundle(props: seq<Option<AssetProperty>>, library: map<string, string>, i: nat, j: nat)
    requires i < j < |props|
    requires !Faults(props[i]) && !Faults(props[j])
    requires TextureOf(props[i], library).Some? && TextureOf(props[j], library).Some?
    requires TextureOf(props[i], library).value.0 == TextureOf(props[j], library).value.0
    ensures ScanProperties(props, library).None?
  {
    var front := props[..j];
    if ScanProperties(front, library).None? {
      DropStays(props, j, library);
    } else {
      ScanGrowsBetween(props, library, i + 1, j);
      ContributionRecorded(props, library, i);
      KnownRoleDrops(props, library, j);
      DropStays(props, j + 1, library);
    }
  }

  /** A scan that is not dropped was not dropped earlier either, and keeps every role recorded
      earlier. */
  lemma ScanGrowsBetween(props: seq<Option<AssetProperty>>, library: map<string, string>, k1: nat, k2: nat)
    requires k1 <= k2 <= |props| && ScanProperties(props[..k2], library).Some?
    ensures ScanProperties(props[..k1], library).Some?
    ensures forall t :: t in ScanProperties(props[..k1], library).value ==> t in ScanProperties(props[..k2], library).value
  {
    var front := props[..k2];
    assert front[..k1] == props[..k1];
    ScanGrows(front, k1, library);
  }

  /** A material without an appearance element, or whose appearance has no rendering asset,
      has no bundle; a fault in any property drops it too. */
  lemma NoBundleWithout(m: RevitMaterial, library: map<string, string>)
    ensures m.appearance.None? ==> BundleOf(m, library).None?
    ensures m.appearance.Some? && m.appearance.value.renderingAsset.None? ==> BundleOf(m, library).None?
    ensures m.appearance.Some? && m.appearance.value.renderingAsset.Some?
      && (exists i :: 0 <= i < |m.appearance.value.renderingAsset.value.properties|
            && Faults(m.appearance.value.renderingAsset.value.properties[i]))
      ==> BundleOf(m, library).None?
  {
    if m.appearance.Some? && m.appearance.value.renderingAsset.Some? {
      var props := m.appearance.value.renderingAsset.value.properties;
      if i :| 0 <= i < |props| && Faults(props[i]) {
        if ScanProperties(props[..i], library).Some? {
          assert props[..i + 1][..i] == props[..i];
          DropStays(props, i + 1, library);
        } else {
          DropStays(props, i, library);
        }
      }
    }
  }

  /** The texture each property of a fault-free asset contributes, in property order (none for
      a property the loop cannot read). */
  function Contributions(props: seq<Option<AssetProperty>>, library: map<string, string>)
    : (cs: seq<Option<(RevitTextureType, SF.SafenedFilename)>>)
    ensures |cs| == |props|
    ensures forall i :: 0 <= i < |props| && !Faults(props[i]) ==> cs[i] == TextureOf(props[i], library)
  {
    seq(|props|, i requires 0 <= i < |props| => if Faults(props[i]) then None else TextureOf(props[i], library))
  }

  /** The property loop over the contributed textures alone. */
  function ScanOver(cs: seq<Option<(RevitTextureType, SF.SafenedFilename)>>): Option<map<RevitTextureType, SF.SafenedFilename>>
  {
    if |cs| == 0 then Some(map[])
    else
      match ScanOver(cs[..|cs| - 1])
      case None => None
      case Some(paths) => AddContribution(paths, cs[|cs| - 1])
  }

  /** No two contributions share a role. */
  predicate DistinctRoles(cs: seq<Option<(RevitTextureType, SF.SafenedFilename)>>)
  {
    forall i, j :: 0 <= i < j < |cs| && cs[i].Some? && cs[j].Some? ==> cs[i].value.0 != cs[j].value.0
  }

  /** The scan of an asset survives: no property faults and no two properties contribute the
      same role. */
  predicate Survives(props: seq<Option<AssetProperty>>, library: map<string, string>)
  {
    (forall i :: 0 <= i < |props| ==> !Faults(props[i])) && DistinctRoles(Contributions(props, library))
  }

  /** For a fault-free asset, the property loop is the loop over its contributions. */
  lemma {:induction false} ScanIsScanOver(props: seq<Option<AssetProperty>>, library: map<string, string>)
    requires forall i :: 0 <= i < |props| ==> !Faults(props[i])
    ensures ScanProperties(props, library) == ScanOver(Contributions(props, library))
  {
    if |props| > 0 {
      var front := props[..|props| - 1];
      assert forall i :: 0 <= i < |front| ==> front[i] == props[i];
      ScanIsScanOver(front, library);
      var cs := Contributions(props, library);
      assert cs[..|cs| - 1] == Contributions(front, library);
    }
  }

  /** Contributions with distinct roles are all recorded: the roles are exactly the
      contributed ones, each with its contributed texture. */
  lemma {:induction false} ScanOverKept(cs: seq<Option<(RevitTextureType, SF.SafenedFilename)>>)
    requires DistinctRoles(cs)
    ensures ScanOver(cs).Some?
    ensures var paths := ScanOver(cs).value;
      (forall t :: t in paths <==> exists i :: 0 <= i < |cs| && cs[i].Some? && cs[i].value.0 == t)
      && forall i :: 0 <= i < |cs| && cs[i].Some? ==> cs[i].value.0 in paths && paths[cs[i].value.0] == cs[i].value.1
  {
    if |cs| > 0 {
      var front := cs[..|cs| - 1];
      assert forall i :: 0 <= i < |front| ==> front[i] == cs[i];
      ScanOverKept(front);
      var last := cs[|cs| - 1];
      assert last.Some? ==> last.value.0 !in ScanOver(front).value;
    }
  }

  /** Two contributions of the same role drop the scan. */
  lemma {:induction false} ScanOverDrops(cs: seq<Option<(RevitTextureType, SF.SafenedFilename)>>, i: nat, j: nat)
    requires i < j < |cs| && cs[i].Some? && cs[j].Some? && cs[i].value.0 == cs[j].value.0
    ensures ScanOver(cs).None?
  {
    var front := cs[..|cs| - 1];
    assert forall k :: 0 <= k < |front| ==> front[k] == cs[k];
    if j < |cs| - 1 {
      ScanOverDrops(front, i, j);
    } else if ScanOver(front).Some? {
      assert DistinctRoles(front) by {
        if !DistinctRoles(front) {
          var a, b :| 0 <= a < b < |front| && front[a].Some? && front[b].Some? && front[a].value.0 == front[b].value.0;
          ScanOverDrops(front, a, b);
        }
      }
      ScanOverKept(front);
    }
  }

  /** A material keeps its bundle exactly when it has an appearance element with a rendering
      asset whose scan survives; the bundle then holds the material, and its roles are exactly
      those the properties contribute from the library, each with its contributed texture. A
      property whose bitmap is outside the library contributes nothing and does not drop the
      bundle. */
  lemma BundleKeptIff(m: RevitMaterial, library: map<string, string>)
    ensures BundleOf(m, library).Some? <==>
      m.appearance.Some? && m.appearance.value.renderingAsset.Some?
      && Survives(m.appearance.value.renderingAsset.value.properties, library)
    ensures BundleOf(m, library).Some? ==>
      var cs, b := Contributions(m.appearance.value.renderingAsset.value.properties, library), BundleOf(m, library).value;
      b.material == m
      && (forall t :: t in b.texturePaths <==> exists i :: 0 <= i < |cs| && cs[i].Some? && cs[i].value.0 == t)
      && forall i :: 0 <= i < |cs| && cs[i].Some? ==> b.texturePaths[cs[i].value.0] == cs[i].value.1
  {
    if m.appearance.Some? && m.appearance.value.renderingAsset.Some? {
      var props := m.appearance.value.renderingAsset.value.properties;
      NoBundleWithout(m, library);
      if forall i :: 0 <= i < |props| ==> !Faults(props[i]) {
        ScanIsScanOver(props, library);
        var cs := Contributions(props, library);
        if DistinctRoles(cs) {
          ScanOverKept(cs);
        } else {
          var i, j :| 0 <= i < j < |cs| && cs[i].Some? && cs[j].Some? && cs[i].value.0 == cs[j].value.0;
          ScanOverDrops(cs, i, j);
        }
      }
    }
  }
}
