/**
 * `Extensions`: the first-wins dictionaries (texture names, merged parameter maps), the
 * driver that builds one `ElementParameters` per element, room and level, and the category
 * description.
 */
module Extensions {
  import opened Wrappers
  import opened Host
  import opened SystemPath
  import opened Strings
  import opened ElementParams
  import opened GeometryExtensions

  // ---------------------------------------------------------------------------------------
  // ToFilenamePathDictionarySafe

  /** No path before index `i` has the same extensionless file name. */
  predicate FirstOfItsName(paths: seq<string>, i: int)
    requires 0 <= i < |paths|
  {
    forall j :: 0 <= j < i ==> GetFileNameWithoutExtension(paths[j]) != GetFileNameWithoutExtension(paths[i])
  }

  /** `ToFilenamePathDictionarySafe`: every path's extensionless file name is a key, every key
      names the first path that has it, and nothing else is a key. */
  method ToFilenamePathDictionarySafe(fullPaths: seq<string>) returns (output: map<string, string>)
    ensures forall i :: 0 <= i < |fullPaths| ==> GetFileNameWithoutExtension(fullPaths[i]) in output
    ensures forall k :: k in output ==>
      GetFileNameWithoutExtension(output[k]) == k && output[k] in fullPaths
    ensures forall i :: 0 <= i < |fullPaths| && FirstOfItsName(fullPaths, i) ==>
      output[GetFileNameWithoutExtension(fullPaths[i])] == fullPaths[i]
  {
    output := map[];
    var i := 0;
    while i < |fullPaths|
      invariant 0 <= i <= |fullPaths|
      invariant forall j :: 0 <= j < i ==> GetFileNameWithoutExtension(fullPaths[j]) in output
      invariant forall k :: k in output ==>
        GetFileNameWithoutExtension(output[k]) == k && output[k] in fullPaths[..i]
      invariant forall j :: 0 <= j < i && FirstOfItsName(fullPaths, j) ==>
        output[GetFileNameWithoutExtension(fullPaths[j])] == fullPaths[j]
    {
      var p := fullPaths[i];
      var fn := GetFileNameWithoutExtension(p);
      if fn !in output {
        output := output[fn := p];
      }
      assert fullPaths[..i + 1] == fullPaths[..i] + [p];
      i := i + 1;
    }
    assert fullPaths[..i] == fullPaths;
  }

  // ---------------------------------------------------------------------------------------
  // Combine

  /** No dictionary before index `i` has the key `k`. */
  predicate FirstHolder<V>(ds: seq<map<string, V>>, k: string, i: int)
  {
    forall j :: 0 <= j < i && j < |ds| ==> k !in ds[j]
  }

  /** `Combine`: the keys are those of all the dictionaries, and each key keeps its value from
      the first dictionary that has it. */
  method Combine<V>(ds: seq<map<string, V>>) returns (output: map<string, V>)
    ensures forall k :: k in output <==> exists i :: 0 <= i < |ds| && k in ds[i]
    ensures forall k, i :: 0 <= i < |ds| && k in ds[i] && FirstHolder(ds, k, i) ==> output[k] == ds[i][k]
  {
    output := map[];
    var i := 0;
    while i < |ds|
      invariant 0 <= i <= |ds|
      invariant forall k :: k in output <==> exists j :: 0 <= j < i && k in ds[j]
      invariant forall k, j :: 0 <= j < i && k in ds[j] && FirstHolder(ds, k, j) ==> output[k] == ds[j][k]
    {
      var d := ds[i];
      var keys := d.Keys;
      ghost var before := output;
      while keys != {}
        invariant keys <= d.Keys
        invariant forall k :: k in output <==> k in before || (k in d && k !in keys)
        invariant forall k :: k in before ==> output[k] == before[k]
        invariant forall k :: k in output && k !in before ==> output[k] == d[k]
        decreases keys
      {
        var k :| k in keys;
        if k !in output {
          output := output[k := d[k]];
        }
        keys := keys - {k};
      }
      i := i + 1;
    }
  }

  // ---------------------------------------------------------------------------------------
  // SiphonElementParamValues

  /** Which element, and with which `calculateCentroid`, built the entry under each id; and the
      two session sets. */
  datatype SiphonState = SiphonState(built: map<string, (Element, bool)>, sessionParams: set<string>, rooms: set<string>)

  /** The centroid an element's entry records: `centroidOf` of the element when centroids are
      asked for, nothing otherwise. */
  function CentroidWith(centroidOf: Element -> Option<CentroidVolume>, e: Element, calculateCentroid: bool): Option<CentroidVolume>
  {
    if calculateCentroid then centroidOf(e) else None
  }

  /** One element of a pass. The first pass (`checkFirst` false) constructs before it adds, so
      a repeated id still runs the constructor; rooms and levels are skipped when their id is
      present. A constructor that throws adds nothing, but its effects on the session stay. */
  function Step(st: SiphonState, e: Element, calculateCentroid: bool, checkFirst: bool,
                centroidOf: Element -> Option<CentroidVolume>, format: XYZ -> string, roomAt: XYZ -> Option<Room>): SiphonState
  {
    if checkFirst && e.uniqueId in st.built then st
    else if e.category.None? then st
    else
      var out := SiphonOutcome(map["Name" := e.name], st.rooms, e, CentroidWith(centroidOf, e, calculateCentroid), format, roomAt);
      var sessionParams := st.sessionParams + Names(e.parameters);
      var built := if out.completed && e.uniqueId !in st.built then st.built[e.uniqueId := (e, calculateCentroid)]
                   else st.built;
      SiphonState(built, sessionParams, out.rooms)
  }

  function Pass(st: SiphonState, els: seq<Element>, calculateCentroid: bool, checkFirst: bool,
                centroidOf: Element -> Option<CentroidVolume>, format: XYZ -> string, roomAt: XYZ -> Option<Room>): SiphonState
  {
    if |els| == 0 then st
    else Step(Pass(st, els[..|els| - 1], calculateCentroid, checkFirst, centroidOf, format, roomAt),
              els[|els| - 1], calculateCentroid, checkFirst, centroidOf, format, roomAt)
  }

  /** The whole driver: elements with `calculateCentroids`, then rooms with centroids, then
      levels without. */
  function Siphoned(st: SiphonState, elements: seq<Element>, rooms: seq<Element>, levels: seq<Element>,
                    calculateCentroids: bool, centroidOf: Element -> Option<CentroidVolume>, format: XYZ -> string, roomAt: XYZ -> Option<Room>): SiphonState
  {
    var afterElements := Pass(st, elements, calculateCentroids, false, centroidOf, format, roomAt);
    var afterRooms := Pass(afterElements, rooms, true, true, centroidOf, format, roomAt);
    Pass(afterRooms, levels, false, true, centroidOf, format, roomAt)
  }

  /** The map `Siphon` leaves for `e`, started from `{"Name" -> e.Name}`. */
  function ParamsOf(entry: (Element, bool), centroidOf: Element -> Option<CentroidVolume>, format: XYZ -> string, roomAt: XYZ -> Option<Room>): map<string, string>
  {
    SiphonOutcome(map["Name" := entry.0.name], {}, entry.0, CentroidWith(centroidOf, entry.0, entry.1), format, roomAt).parameters
  }

  /** The output objects are those the state says were built. */
  predicate Mirrors(output: map<string, ElementParameters>, built: map<string, (Element, bool)>,
                    centroidOf: Element -> Option<CentroidVolume>, format: XYZ -> string, roomAt: XYZ -> Option<Room>)
    reads output.Values
  {
    output.Keys == built.Keys
    && forall k :: k in output ==>
      output[k].id == k && output[k].Valid() && output[k].parameters == ParamsOf(built[k], centroidOf, format, roomAt)
  }

  /** A step that runs the constructor, in the terms `Create` states its result in. */
  lemma StepRunsCreate(st: SiphonState, e: Element, calculateCentroid: bool, checkFirst: bool,
                       format: XYZ -> string, roomAt: XYZ -> Option<Room>)
    requires !(checkFirst && e.uniqueId in st.built) && e.category.Some?
    ensures var out := SiphonOutcome(map["Name" := e.name], st.rooms, e, CentroidFor(e, calculateCentroid), format, roomAt);
      var st' := Step(st, e, calculateCentroid, checkFirst, CentroidOf, format, roomAt);
      st'.rooms == out.rooms && st'.sessionParams == st.sessionParams + Names(e.parameters)
      && st'.built == (if out.completed && e.uniqueId !in st.built then st.built[e.uniqueId := (e, calculateCentroid)]
                       else st.built)
      && out.parameters == ParamsOf((e, calculateCentroid), CentroidOf, format, roomAt)
  {
    assert CentroidWith(CentroidOf, e, calculateCentroid) == CentroidFor(e, calculateCentroid);
    RoomsDoNotMatter(map["Name" := e.name], st.rooms, e, CentroidFor(e, calculateCentroid), format, roomAt);
  }

  /** Adding an object for a new id, with that id and the entry's map, keeps the mirror. */
  lemma MirrorsGrow(output: map<string, ElementParameters>, built: map<string, (Element, bool)>,
                    k: string, ep: ElementParameters, entry: (Element, bool),
                    centroidOf: Element -> Option<CentroidVolume>, format: XYZ -> string, roomAt: XYZ -> Option<Room>)
    requires Mirrors(output, built, centroidOf, format, roomAt) && k !in built
    requires ep.id == k && ep.Valid() && ep.parameters == ParamsOf(entry, centroidOf, format, roomAt)
    ensures Mirrors(output[k := ep], built[k := entry], centroidOf, format, roomAt)
  {
  }

  /** One element of a pass: construct (unless a room or level id is already present) and add
      if the construction completed and the id is new. */
  method SiphonOne(e: Element, calculateCentroid: bool, checkFirst: bool, format: XYZ -> string,
                   roomAt: XYZ -> Option<Room>, session: Session, output0: map<string, ElementParameters>,
                   ghost st0: SiphonState)
    returns (output: map<string, ElementParameters>, ghost st: SiphonState)
    requires Mirrors(output0, st0.built, CentroidOf, format, roomAt)
    requires session.sessionParams == st0.sessionParams && session.rooms == st0.rooms
    modifies session
    ensures st == Step(st0, e, calculateCentroid, checkFirst, CentroidOf, format, roomAt)
    ensures Mirrors(output, st.built, CentroidOf, format, roomAt)
    ensures session.sessionParams == st.sessionParams && session.rooms == st.rooms
    ensures forall k :: k in output && k !in output0 ==> fresh(output[k])
    ensures forall k :: k in output0 ==> k in output && output[k] == output0[k]
  {
    output := output0;
    st := Step(st0, e, calculateCentroid, checkFirst, CentroidOf, format, roomAt);
    if !(checkFirst && e.uniqueId in output) {
      var r := Create(e, calculateCentroid, format, roomAt, session);
      if e.category.Some? {
        StepRunsCreate(st0, e, calculateCentroid, checkFirst, format, roomAt);
        if r.Some? && e.uniqueId !in output {
          MirrorsGrow(output, st0.built, e.uniqueId, r.value, (e, calculateCentroid), CentroidOf, format, roomAt);
          output := output[e.uniqueId := r.value];
        }
      }
    }
  }

  /** A pass over one more element is one more step. */
  lemma PassSnoc(st: SiphonState, els: seq<Element>, i: nat, calculateCentroid: bool, checkFirst: bool,
                 centroidOf: Element -> Option<CentroidVolume>, format: XYZ -> string, roomAt: XYZ -> Option<Room>)
    requires i < |els|
    ensures Pass(st, els[..i + 1], calculateCentroid, checkFirst, centroidOf, format, roomAt)
         == Step(Pass(st, els[..i], calculateCentroid, checkFirst, centroidOf, format, roomAt), els[i],
                 calculateCentroid, checkFirst, centroidOf, format, roomAt)
  {
    assert els[..i + 1][..i] == els[..i];
  }

  /** One pass of `SiphonElementParamValues`. */
  method SiphonPass(els: seq<Element>, calculateCentroid: bool, checkFirst: bool, format: XYZ -> string,
                    roomAt: XYZ -> Option<Room>, session: Session, output0: map<string, ElementParameters>,
                    ghost st0: SiphonState)
    returns (output: map<string, ElementParameters>, ghost st: SiphonState)
    requires Mirrors(output0, st0.built, CentroidOf, format, roomAt)
    requires session.sessionParams == st0.sessionParams && session.rooms == st0.rooms
    modifies session
    ensures st == Pass(st0, els, calculateCentroid, checkFirst, CentroidOf, format, roomAt)
    ensures Mirrors(output, st.built, CentroidOf, format, roomAt)
    ensures session.sessionParams == st.sessionParams && session.rooms == st.rooms
    ensures forall k :: k in output && k !in output0 ==> fresh(output[k])
    ensures forall k :: k in output0 ==> k in output && output[k] == output0[k]
  {
    output, st := output0, st0;
    var i := 0;
    while i < |els|
      invariant 0 <= i <= |els|
      invariant st == Pass(st0, els[..i], calculateCentroid, checkFirst, CentroidOf, format, roomAt)
      invariant Mirrors(output, st.built, CentroidOf, format, roomAt)
      invariant session.sessionParams == st.sessionParams && session.rooms == st.rooms
      invariant forall k :: k in output && k !in output0 ==> fresh(output[k])
      invariant forall k :: k in output0 ==> k in output && output[k] == output0[k]
    {
      PassSnoc(st0, els, i, calculateCentroid, checkFirst, CentroidOf, format, roomAt);
      output, st := SiphonOne(els[i], calculateCentroid, checkFirst, format, roomAt, session, output, st);
      i := i + 1;
    }
    assert els[..i] == els;
  }

  /** `SiphonElementParamValues`. `elements` are the exportable ones (the host's category
      filter); rooms and levels are the document's collectors. */
  method SiphonElementParamValues(elements: seq<Element>, rooms: seq<Element>, levels: seq<Element>,
                                  calculateCentroids: bool, format: XYZ -> string,
                                  roomAt: XYZ -> Option<Room>, session: Session)
    returns (output: map<string, ElementParameters>)
    modifies session
    ensures var st := Siphoned(SiphonState(map[], old(session.sessionParams), old(session.rooms)),
                               elements, rooms, levels, calculateCentroids, CentroidOf, format, roomAt);
      Mirrors(output, st.built, CentroidOf, format, roomAt)
      && session.sessionParams == st.sessionParams && session.rooms == st.rooms
    ensures forall k :: k in output ==> fresh(output[k])
  {
    // `.Where(e => e.Category != null)`: an element without a category is skipped, which is
    // also what `Step` does with it.
    ghost var st := SiphonState(map[], session.sessionParams, session.rooms);
    output := map[];
    output, st := SiphonPass(elements, calculateCentroids, false, format, roomAt, session, output, st);
    output, st := SiphonPass(rooms, true, true, format, roomAt, session, output, st);
    output, st := SiphonPass(levels, false, true, format, roomAt, session, output, st);
  }

  /** The driver never replaces an entry; each new entry is keyed by its element's id, comes
      from an element with a category, and records the pass's `calculateCentroid`. The session
      sets only grow. */
  lemma {:induction false} PassKeeps(st: SiphonState, els: seq<Element>, calculateCentroid: bool, checkFirst: bool,
                                     centroidOf: Element -> Option<CentroidVolume>, format: XYZ -> string, roomAt: XYZ -> Option<Room>)
    ensures var st' := Pass(st, els, calculateCentroid, checkFirst, centroidOf, format, roomAt);
      (forall k :: k in st.built ==> k in st'.built && st'.built[k] == st.built[k])
      && (forall k :: k in st'.built && k !in st.built ==>
            st'.built[k].0 in els && st'.built[k].0.uniqueId == k && st'.built[k].0.category.Some?
            && st'.built[k].1 == calculateCentroid)
      && st.sessionParams <= st'.sessionParams && st.rooms <= st'.rooms
  {
    if |els| > 0 {
      var front := els[..|els| - 1];
      PassKeeps(st, front, calculateCentroid, checkFirst, centroidOf, format, roomAt);
      var mid := Pass(st, front, calculateCentroid, checkFirst, centroidOf, format, roomAt);
      var e := els[|els| - 1];
      if !(checkFirst && e.uniqueId in mid.built) && e.category.Some? {
        RoomsDoNotMatter(map["Name" := e.name], mid.rooms, e, CentroidWith(centroidOf, e, calculateCentroid), format, roomAt);
      }
    }
  }

  /** Every output id is the id of the element that built it: elements carry the caller's
      `calculateCentroids`, rooms always compute centroids, levels never do. */
  lemma SiphonedEntries(elements: seq<Element>, rooms: seq<Element>, levels: seq<Element>,
                        calculateCentroids: bool, centroidOf: Element -> Option<CentroidVolume>, format: XYZ -> string, roomAt: XYZ -> Option<Room>,
                        sessionParams: set<string>, roomIds: set<string>)
    ensures var st := Siphoned(SiphonState(map[], sessionParams, roomIds), elements, rooms, levels,
                               calculateCentroids, centroidOf, format, roomAt);
      forall k :: k in st.built ==>
        var e, centroids := st.built[k].0, st.built[k].1;
        e.uniqueId == k && e.category.Some?
        && ((e in elements && centroids == calculateCentroids) || (e in rooms && centroids) || (e in levels && !centroids))
  {
    var st0 := SiphonState(map[], sessionParams, roomIds);
    PassKeeps(st0, elements, calculateCentroids, false, centroidOf, format, roomAt);
    var st1 := Pass(st0, elements, calculateCentroids, false, centroidOf, format, roomAt);
    PassKeeps(st1, rooms, true, true, centroidOf, format, roomAt);
    var st2 := Pass(st1, rooms, true, true, centroidOf, format, roomAt);
    PassKeeps(st2, levels, false, true, centroidOf, format, roomAt);
  }

  /** In the first pass the first element of an id whose constructor completes wins: a later
      element with the same id is constructed (its effects on the session happen) but not
      added. */
  lemma {:induction false} FirstPassFirstWins(st: SiphonState, els: seq<Element>, calculateCentroid: bool,
                                              centroidOf: Element -> Option<CentroidVolume>, format: XYZ -> string, roomAt: XYZ -> Option<Room>, i: nat)
    requires i < |els| && els[i].uniqueId !in st.built
    requires els[i].category.Some?
    requires SiphonOutcome(map["Name" := els[i].name], {}, els[i], CentroidWith(centroidOf, els[i], calculateCentroid), format, roomAt).completed
    requires forall j :: 0 <= j < i && els[j].uniqueId == els[i].uniqueId ==>
      els[j].category.None? || !SiphonOutcome(map["Name" := els[j].name], {}, els[j], CentroidWith(centroidOf, els[j], calculateCentroid), format, roomAt).completed
    ensures var built := Pass(st, els, calculateCentroid, false, centroidOf, format, roomAt).built;
      els[i].uniqueId in built && built[els[i].uniqueId] == (els[i], calculateCentroid)
  {
    var front := els[..|els| - 1];
    var mid := Pass(st, front, calculateCentroid, false, centroidOf, format, roomAt);
    var e := els[|els| - 1];
    if e.category.Some? {
      RoomsDoNotMatter(map["Name" := e.name], mid.rooms, e, CentroidWith(centroidOf, e, calculateCentroid), format, roomAt);
    }
    if i < |els| - 1 {
      forall j | 0 <= j < i && front[j].uniqueId == front[i].uniqueId
        ensures front[j].category.None?
          || !SiphonOutcome(map["Name" := front[j].name], {}, front[j], CentroidWith(centroidOf, front[j], calculateCentroid), format, roomAt).completed
      {
        assert front[j] == els[j];
      }
      assert front[i] == els[i];
      FirstPassFirstWins(st, front, calculateCentroid, centroidOf, format, roomAt, i);
    } else {
      NotYetBuilt(st, front, calculateCentroid, centroidOf, format, roomAt, e);
    }
  }

  /** Before an element of id `x` whose predecessors of that id all failed, `x` is not built. */
  lemma {:induction false} NotYetBuilt(st: SiphonState, els: seq<Element>, calculateCentroid: bool,
                                       centroidOf: Element -> Option<CentroidVolume>, format: XYZ -> string, roomAt: XYZ -> Option<Room>, x: Element)
    requires x.uniqueId !in st.built
    requires forall j :: 0 <= j < |els| && els[j].uniqueId == x.uniqueId ==>
      els[j].category.None? || !SiphonOutcome(map["Name" := els[j].name], {}, els[j], CentroidWith(centroidOf, els[j], calculateCentroid), format, roomAt).completed
    ensures x.uniqueId !in Pass(st, els, calculateCentroid, false, centroidOf, format, roomAt).built
  {
    if |els| > 0 {
      var front := els[..|els| - 1];
      forall j | 0 <= j < |front| && front[j].uniqueId == x.uniqueId
        ensures front[j].category.None?
          || !SiphonOutcome(map["Name" := front[j].name], {}, front[j], CentroidWith(centroidOf, front[j], calculateCentroid), format, roomAt).completed
      {
        assert front[j] == els[j];
      }
      NotYetBuilt(st, front, calculateCentroid, centroidOf, format, roomAt, x);
      var mid := Pass(st, front, calculateCentroid, false, centroidOf, format, roomAt);
      var e := els[|els| - 1];
      if e.category.Some? {
        RoomsDoNotMatter(map["Name" := e.name], mid.rooms, e, CentroidWith(centroidOf, e, calculateCentroid), format, roomAt);
      }
    }
  }

  // ---------------------------------------------------------------------------------------
  // Description

  /** The `BuiltInCategory` values the default configuration exports, and any other. */
  datatype BuiltInCategory =
    | OST_Walls | OST_Floors | OST_Doors | OST_Windows | OST_CurtainWallMullions
    | OST_CurtainWallPanels | OST_EdgeSlab | OST_Rooms | OST_Ceilings | OST_Furniture
    | OST_FurnitureSystems | OST_Assemblies | OST_Columns | OST_Casework | OST_Site
    | OST_Stairs | OST_StructuralColumns | OST_StructuralFraming | OST_Views | OST_Truss
    | OST_Levels
    | OtherCategory(enumName: string)

  /** `bic.ToString()`: the enum member's name. */
  function EnumName(bic: BuiltInCategory): string
  {
    match bic
    case OST_Walls => "OST_Walls"
    case OST_Floors => "OST_Floors"
    case OST_Doors => "OST_Doors"
    case OST_Windows => "OST_Windows"
    case OST_CurtainWallMullions => "OST_CurtainWallMullions"
    case OST_CurtainWallPanels => "OST_CurtainWallPanels"
    case OST_EdgeSlab => "OST_EdgeSlab"
    case OST_Rooms => "OST_Rooms"
    case OST_Ceilings => "OST_Ceilings"
    case OST_Furniture => "OST_Furniture"
    case OST_FurnitureSystems => "OST_FurnitureSystems"
    case OST_Assemblies => "OST_Assemblies"
    case OST_Columns => "OST_Columns"
    case OST_Casework => "OST_Casework"
    case OST_Site => "OST_Site"
    case OST_Stairs => "OST_Stairs"
    case OST_StructuralColumns => "OST_StructuralColumns"
    case OST_StructuralFraming => "OST_StructuralFraming"
    case OST_Views => "OST_Views"
    case OST_Truss => "OST_Truss"
    case OST_Levels => "OST_Levels"
    case OtherCategory(n) => n
  }

  /** `Description`: the lower-cased enum name, letter for letter. */
  function Description(bic: BuiltInCategory): (r: string)
    ensures |r| == |EnumName(bic)|
    ensures forall i :: 0 <= i < |r| ==> r[i] == LowerChar(EnumName(bic)[i])
    ensures forall i :: 0 <= i < |r| ==> !IsUpper(r[i])
  {
    ToLower(EnumName(bic))
  }

  /** The description of walls. */
  lemma DescriptionOfWalls()
    ensures Description(OST_Walls) == "ost_walls"
  {
    var r := Description(OST_Walls);
    assert r[0] == 'o' && r[1] == 's' && r[2] == 't' && r[3] == '_' && r[4] == 'w';
    assert r[5] == 'a' && r[6] == 'l' && r[7] == 'l' && r[8] == 's';
  }
}
