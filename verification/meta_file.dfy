/**
 * The metadata sidecar of an asset (`MetaFile`): a record with a type tag,
 * written to and read back from a string-to-string property map. Only the
 * fields belonging to the record's asset type are written; reading leaves the
 * fields of the other asset types as they were.
 */
module MetaFile {
  import opened Wrappers
  import opened Decimal
  import opened Splat

  const CurrentVersion: Int32 := 1

  /** The property map that `java.util.Properties` holds; the text format is not modelled. */
  type Props = map<string, string>

  const VersionKey: string := "version"
  const UuidKey: string := "uuid"
  const LastModifiedKey: string := "last_modified"
  const TypeKey: string := "type"

  const DiffuseColorKey: string := "mat.diffuse.color"
  const DiffuseTextureKey: string := "mat.diffuse.texture"

  const TerrainSizeKey: string := "terrain.size"
  const DefaultTerrainSize: string := "1200"

  const SplatmapKey: string := "terrain.mat.splatmap"
  const SplatBaseKey: string := "terrain.mat.splat.base"
  const SplatRKey: string := "terrain.mat.splat.r"
  const SplatGKey: string := "terrain.mat.splat.g"
  const SplatBKey: string := "terrain.mat.splat.b"
  const SplatAKey: string := "terrain.mat.splat.a"

  /** The property key under which a terrain stores the UUID of a dependency slot. */
  function SlotKey(s: Slot): string {
    match s
    case Splatmap => SplatmapKey
    case Paint(Base) => SplatBaseKey
    case Paint(R) => SplatRKey
    case Paint(G) => SplatGKey
    case Paint(B) => SplatBKey
    case Paint(A) => SplatAKey
  }

  const CommonKeys: set<string> := {VersionKey, TypeKey, UuidKey, LastModifiedKey}
  const ModelKeys: set<string> := {DiffuseColorKey, DiffuseTextureKey}
  const TerrainKeys: set<string> :=
    {TerrainSizeKey, SplatmapKey, SplatBaseKey, SplatRKey, SplatGKey, SplatBKey, SplatAKey}

  /** The three key groups are disjoint and every slot has a key of its own. */
  lemma KeysDistinct()
    ensures CommonKeys !! ModelKeys && CommonKeys !! TerrainKeys && ModelKeys !! TerrainKeys
    ensures forall s :: SlotKey(s) in TerrainKeys && SlotKey(s) != TerrainSizeKey
    ensures forall s, s' :: SlotKey(s) == SlotKey(s') ==> s == s'
  {
  }

  /** The asset types that own metadata; `name()` of the enum constant is what is stored. */
  datatype AssetType = Texture | PixmapTexture | Terrain | Model

  function TypeName(t: AssetType): string {
    match t
    case Texture => "TEXTURE"
    case PixmapTexture => "PIXMAP_TEXTURE"
    case Terrain => "TERRAIN"
    case Model => "MODEL"
  }

  /** `AssetType.valueOf`: None for a missing name (NullPointerException) or an unknown one. */
  function ParseType(name: Option<string>): (r: Option<AssetType>)
    ensures r.Some? ==> name == Some(TypeName(r.value))
    ensures forall t :: name == Some(TypeName(t)) ==> r == Some(t)
  {
    match name
    case None => None
    case Some(s) =>
      if s == "TEXTURE" then Some(Texture)
      else if s == "PIXMAP_TEXTURE" then Some(PixmapTexture)
      else if s == "TERRAIN" then Some(Terrain)
      else if s == "MODEL" then Some(Model)
      else None
  }

  /**
   * The fields of a `MetaFile`. `null` references are None; the colour is kept
   * as the opaque string form `Color.toString` writes; the timestamp is the
   * `Date` in milliseconds.
   */
  datatype MetaRecord = MetaRecord(
    version: Int32,
    assetType: AssetType,
    uuid: Option<string>,
    lastModified: Int64,
    // model specific
    diffuseColor: Option<string>,
    diffuseTexture: Option<string>,
    // terrain specific
    splatmap: Option<string>,
    splatBase: Option<string>,
    splatR: Option<string>,
    splatG: Option<string>,
    splatB: Option<string>,
    splatA: Option<string>,
    terrainSize: Int32)

  /** The UUID a record holds for a dependency slot (`getTerrainSplatX`). */
  function SplatRef(m: MetaRecord, s: Slot): Option<string> {
    match s
    case Splatmap => m.splatmap
    case Paint(Base) => m.splatBase
    case Paint(R) => m.splatR
    case Paint(G) => m.splatG
    case Paint(B) => m.splatB
    case Paint(A) => m.splatA
  }

  /** `setTerrainSplatX`: replaces the UUID of one slot and nothing else. */
  function WithSplatRef(m: MetaRecord, s: Slot, v: Option<string>): (r: MetaRecord)
    ensures SplatRef(r, s) == v
    ensures forall s' :: s' != s ==> SplatRef(r, s') == SplatRef(m, s')
    ensures SameCommonFields(r, m) && SameModelFields(r, m) && r.terrainSize == m.terrainSize
  {
    match s
    case Splatmap => m.(splatmap := v)
    case Paint(Base) => m.(splatBase := v)
    case Paint(R) => m.(splatR := v)
    case Paint(G) => m.(splatG := v)
    case Paint(B) => m.(splatB := v)
    case Paint(A) => m.(splatA := v)
  }

  predicate SameCommonFields(a: MetaRecord, b: MetaRecord) {
    a.version == b.version && a.assetType == b.assetType && a.uuid == b.uuid && a.lastModified == b.lastModified
  }

  predicate SameModelFields(a: MetaRecord, b: MetaRecord) {
    a.diffuseColor == b.diffuseColor && a.diffuseTexture == b.diffuseTexture
  }

  ghost predicate SameTerrainFields(a: MetaRecord, b: MetaRecord) {
    a.terrainSize == b.terrainSize && forall s :: SplatRef(a, s) == SplatRef(b, s)
  }

  /** `setProperty` of an optional value: a null field writes no key. */
  function Put(p: Props, key: string, v: Option<string>): Props {
    if v.Some? then p[key := v.value] else p
  }

  /**
   * `save`, stopping at the property map handed to `Properties.store`.
   * `Properties` rejects a null value, so a record without a UUID cannot be saved.
   */
  function Save(m: MetaRecord): (p: Props)
    requires m.uuid.Some?
    ensures CommonKeys <= p.Keys
    ensures p[VersionKey] == Format(m.version) && p[TypeKey] == TypeName(m.assetType)
    ensures p[UuidKey] == m.uuid.value && p[LastModifiedKey] == Format(m.lastModified)
    ensures m.assetType == Model ==> p.Keys <= CommonKeys + ModelKeys
    ensures m.assetType == Terrain ==> p.Keys <= CommonKeys + TerrainKeys
    ensures m.assetType != Model && m.assetType != Terrain ==> p.Keys == CommonKeys
    ensures m.assetType == Model ==>
      && Get(p, DiffuseColorKey) == m.diffuseColor
      && Get(p, DiffuseTextureKey) == m.diffuseTexture
    ensures m.assetType == Terrain ==>
      && Get(p, TerrainSizeKey) == Some(Format(m.terrainSize))
      && forall s :: Get(p, SlotKey(s)) == SplatRef(m, s)
  {
    var common := CommonProps(m);
    KeysDistinct();
    match m.assetType
    case Model => PutModelFields(common, m)
    case Terrain => PutTerrainFields(common, m)
    case _ => common
  }

  /** The `terrain.*` properties: the non-null splat references, then the size. */
  function PutTerrainFields(p: Props, m: MetaRecord): (r: Props)
    requires p.Keys !! TerrainKeys
    ensures r.Keys <= p.Keys + TerrainKeys
    ensures forall k :: k in p ==> k in r && r[k] == p[k]
    ensures Get(r, TerrainSizeKey) == Some(Format(m.terrainSize))
    ensures forall s :: Get(r, SlotKey(s)) == SplatRef(m, s)
  {
    KeysDistinct();
    EverySlotIsVisited();
    PutSplats(p, m, SlotOrder)[TerrainSizeKey := Format(m.terrainSize)]
  }

  /** The four properties `save` writes for every asset type. */
  function CommonProps(m: MetaRecord): (p: Props)
    requires m.uuid.Some?
    ensures p.Keys == CommonKeys
    ensures p[VersionKey] == Format(m.version) && p[TypeKey] == TypeName(m.assetType)
    ensures p[UuidKey] == m.uuid.value && p[LastModifiedKey] == Format(m.lastModified)
  {
    map[VersionKey := Format(m.version), TypeKey := TypeName(m.assetType),
        UuidKey := m.uuid.value, LastModifiedKey := Format(m.lastModified)]
  }

  /** The `mat.diffuse.*` properties of a model, each written only when its field is non-null. */
  function PutModelFields(p: Props, m: MetaRecord): (r: Props)
    requires p.Keys !! ModelKeys
    ensures r.Keys <= p.Keys + ModelKeys
    ensures forall k :: k in p ==> k in r && r[k] == p[k]
    ensures Get(r, DiffuseColorKey) == m.diffuseColor
    ensures Get(r, DiffuseTextureKey) == m.diffuseTexture
  {
    Put(Put(p, DiffuseColorKey, m.diffuseColor), DiffuseTextureKey, m.diffuseTexture)
  }

  /**
   * The `terrain.mat.*` properties of `save`, written slot by slot in `order`,
   * each only when the record's field is non-null.
   */
  function PutSplats(p: Props, m: MetaRecord, order: seq<Slot>): (r: Props)
    requires forall i, j :: 0 <= i < j < |order| ==> order[i] != order[j]
    requires forall s :: s in order ==> SlotKey(s) !in p
    ensures r.Keys <= p.Keys + (TerrainKeys - {TerrainSizeKey})
    ensures forall k :: k in p ==> k in r && r[k] == p[k]
    ensures forall s :: s in order ==> Get(r, SlotKey(s)) == SplatRef(m, s)
    ensures forall s :: s !in order ==> Get(r, SlotKey(s)) == Get(p, SlotKey(s))
    decreases |order|
  {
    KeysDistinct();
    if |order| == 0 then p
    else
      var s := order[0];
      var p' := Put(p, SlotKey(s), SplatRef(m, s));
      assert forall s' :: s' in order[1..] ==> s' != s && s' in order;
      PutSplats(p', m, order[1..])
  }

  /** The outcome of `load`: the record, or the MetaFileParseException together with
      the fields as the failing statement left them (assignments before it stay). */
  datatype LoadOutcome = Loaded(meta: MetaRecord) | ParseFailed(partial: MetaRecord)

  predicate IsJavaInt(s: string) {
    IsDecimal(s) && Int32Min <= SignedValue(s) <= Int32Max
  }

  predicate IsJavaLong(s: string) {
    IsDecimal(s) && Int64Min <= SignedValue(s) <= Int64Max
  }

  /** The property maps `load` accepts without throwing. */
  predicate Acceptable(p: Props) {
    && TimestampParses(p)
    && (p[TypeKey] == "TERRAIN" && TerrainSizeKey in p ==> IsJavaInt(p[TerrainSizeKey]))
  }

  /** How far `load` gets: the version, then the type, then the timestamp parse. */
  predicate VersionParses(p: Props) {
    VersionKey in p && IsJavaInt(p[VersionKey])
  }

  predicate TypeParses(p: Props) {
    VersionParses(p) && TypeKey in p && p[TypeKey] in {"TEXTURE", "PIXMAP_TEXTURE", "TERRAIN", "MODEL"}
  }

  predicate TimestampParses(p: Props) {
    TypeParses(p) && LastModifiedKey in p && IsJavaLong(p[LastModifiedKey])
  }

  /** The default `terrain.size` is the Java int 1200. */
  lemma DefaultTerrainSizeParses()
    ensures IsJavaInt(DefaultTerrainSize) && SignedValue(DefaultTerrainSize) == 1200
  {
    var d := DefaultTerrainSize;
    assert Unsigned(d) == d;
    assert d[..3] == "120" && "120"[..2] == "12" && "12"[..1] == "1" && "1"[..0] == "";
    assert ValueOf("1") == 1;
    assert ValueOf("12") == 12;
    assert ValueOf("120") == 120;
  }

  /** `Integer.valueOf` of a property that may be missing. */
  function ParseInt32(v: Option<string>): (r: Option<Int32>)
    ensures r.Some? <==> v.Some? && IsJavaInt(v.value)
    ensures r.Some? ==> r.value == SignedValue(v.value)
  {
    if v.None? then None
    else match Parse(v.value, Int32Min, Int32Max)
      case None => None
      case Some(n) => Some(n)
  }

  /** `Long.valueOf` of a property that may be missing. */
  function ParseInt64(v: Option<string>): (r: Option<Int64>)
    ensures r.Some? <==> v.Some? && IsJavaLong(v.value)
    ensures r.Some? ==> r.value == SignedValue(v.value)
  {
    if v.None? then None
    else match Parse(v.value, Int64Min, Int64Max)
      case None => None
      case Some(n) => Some(n)
  }

  /**
   * `load`, from the property map read by `Properties.load`, into the record
   * `prior` that the MetaFile object held before.
   */
  function Load(p: Props, prior: MetaRecord): (r: LoadOutcome)
    ensures r.Loaded? <==> Acceptable(p)
    ensures r.Loaded? ==> Get(p, TypeKey) == Some(TypeName(r.meta.assetType))
    ensures r.Loaded? ==> r.meta.uuid == Get(p, UuidKey)
    ensures r.Loaded? && r.meta.assetType == Model ==>
      && r.meta.diffuseTexture == Get(p, DiffuseTextureKey)
      && r.meta.diffuseColor == (if DiffuseColorKey in p then Some(p[DiffuseColorKey]) else prior.diffuseColor)
    ensures r.Loaded? && r.meta.assetType == Terrain ==>
      && (forall s :: SplatRef(r.meta, s) == Get(p, SlotKey(s)))
      && (TerrainSizeKey !in p ==> r.meta.terrainSize == 1200)
    ensures r.Loaded? && r.meta.assetType != Model ==> SameModelFields(r.meta, prior)
    ensures r.Loaded? && r.meta.assetType != Terrain ==> SameTerrainFields(r.meta, prior)
    // the numbers are the signed values of their text, whatever its sign or leading zeros
    ensures r.Loaded? ==>
      && r.meta.version == SignedValue(p[VersionKey])
      && r.meta.lastModified == SignedValue(p[LastModifiedKey])
    ensures r.Loaded? && r.meta.assetType == Terrain && TerrainSizeKey in p ==>
      r.meta.terrainSize == SignedValue(p[TerrainSizeKey])
    // on failure, each field holds the value of the statement that assigned it, if that
    // statement ran before the one that threw, and the prior value otherwise
    ensures r.ParseFailed? ==>
      r.partial.version == (if VersionParses(p) then SignedValue(p[VersionKey]) else prior.version)
    ensures r.ParseFailed? ==>
      if TypeParses(p) then Get(p, TypeKey) == Some(TypeName(r.partial.assetType)) && r.partial.uuid == Get(p, UuidKey)
      else r.partial.assetType == prior.assetType && r.partial.uuid == prior.uuid
    ensures r.ParseFailed? ==>
      r.partial.lastModified == (if TimestampParses(p) then SignedValue(p[LastModifiedKey]) else prior.lastModified)
    ensures r.ParseFailed? ==> SameModelFields(r.partial, prior) && r.partial.terrainSize == prior.terrainSize
    ensures r.ParseFailed? ==>
      forall s :: SplatRef(r.partial, s) == (if TimestampParses(p) then Get(p, SlotKey(s)) else SplatRef(prior, s))
  {
    match ParseInt32(Get(p, VersionKey))
    case None => ParseFailed(prior)
    case Some(version) =>
      var m1 := prior.(version := version);
      match ParseType(Get(p, TypeKey))
      case None => ParseFailed(m1)
      case Some(t) =>
        var m2 := m1.(assetType := t, uuid := Get(p, UuidKey));
        match ParseInt64(Get(p, LastModifiedKey))
        case None => ParseFailed(m2)
        case Some(lastModified) =>
          var m3 := m2.(lastModified := lastModified);
          if t == Model then
            var color := Get(p, DiffuseColorKey);
            Loaded(m3.(diffuseColor := if color.Some? then color else m3.diffuseColor,
                       diffuseTexture := Get(p, DiffuseTextureKey)))
          else if t == Terrain then
            var m4 := m3.(splatmap := Get(p, SlotKey(Splatmap)),
                          splatBase := Get(p, SlotKey(Paint(Base))),
                          splatR := Get(p, SlotKey(Paint(R))),
                          splatG := Get(p, SlotKey(Paint(G))),
                          splatB := Get(p, SlotKey(Paint(B))),
                          splatA := Get(p, SlotKey(Paint(A))));
            DefaultTerrainSizeParses();
            match ParseInt32(Some(Get(p, TerrainSizeKey).GetOr(DefaultTerrainSize)))
            case None => ParseFailed(m4)
            case Some(size) => Loaded(m4.(terrainSize := size))
          else
            Loaded(m3)
  }

  /** Parsing a number `save` wrote gives the field back. */
  lemma ParseInt32Format(n: Int32)
    ensures ParseInt32(Some(Format(n))) == Some(n)
  {
    ParseFormat(n, Int32Min, Int32Max);
  }

  lemma ParseInt64Format(n: Int64)
    ensures ParseInt64(Some(Format(n))) == Some(n)
  {
    ParseFormat(n, Int64Min, Int64Max);
  }

  /**
   * Round trip into any record: loading what `save` wrote restores the common
   * fields and the fields of the record's own type, except that a null colour
   * is not written and so leaves the loading record's colour in place. Fields
   * of the other asset types are those of the loading record.
   */
  lemma SaveThenLoad(m: MetaRecord, prior: MetaRecord)
    requires m.uuid.Some?
    ensures Load(Save(m), prior).Loaded?
    ensures SameCommonFields(Load(Save(m), prior).meta, m)
    ensures m.assetType == Model ==>
      && Load(Save(m), prior).meta.diffuseTexture == m.diffuseTexture
      && Load(Save(m), prior).meta.diffuseColor == (if m.diffuseColor.Some? then m.diffuseColor else prior.diffuseColor)
    ensures m.assetType == Terrain ==> SameTerrainFields(Load(Save(m), prior).meta, m)
    ensures m.assetType != Model ==> SameModelFields(Load(Save(m), prior).meta, prior)
    ensures m.assetType != Terrain ==> SameTerrainFields(Load(Save(m), prior).meta, prior)
  {
    var p := Save(m);
    ParseInt32Format(m.version);
    ParseInt64Format(m.lastModified);
    assert ParseType(Get(p, TypeKey)) == Some(m.assetType);
    if m.assetType == Terrain {
      ParseInt32Format(m.terrainSize);
    }
  }

  /** Round trip into the same record, as the editor does it: nothing changes. */
  lemma SaveThenLoadIntoSameRecord(m: MetaRecord)
    requires m.uuid.Some?
    ensures Load(Save(m), m) == Loaded(m)
  {
    SaveThenLoad(m, m);
    var o := Load(Save(m), m);
    SameFieldsEqual(o.meta, m);
  }

  /** Two records that agree on every group of fields are the same record. */
  lemma SameFieldsEqual(a: MetaRecord, b: MetaRecord)
    requires SameCommonFields(a, b) && SameModelFields(a, b) && SameTerrainFields(a, b)
    ensures a == b
  {
    assert SplatRef(a, Splatmap) == SplatRef(b, Splatmap);
    assert SplatRef(a, Paint(Base)) == SplatRef(b, Paint(Base));
    assert SplatRef(a, Paint(R)) == SplatRef(b, Paint(R));
    assert SplatRef(a, Paint(G)) == SplatRef(b, Paint(G));
    assert SplatRef(a, Paint(B)) == SplatRef(b, Paint(B));
    assert SplatRef(a, Paint(A)) == SplatRef(b, Paint(A));
  }

  predicate StartsWith(s: string, prefix: string) {
    |prefix| <= |s| && s[..|prefix|] == prefix
  }

  /** A model's metadata holds no `terrain.*` key, a terrain's no `mat.diffuse.*` key. */
  lemma SaveKeepsTypesApart(m: MetaRecord)
    requires m.uuid.Some?
    ensures m.assetType == Model ==> forall k :: k in Save(m) ==> !StartsWith(k, "terrain.")
    ensures m.assetType == Terrain ==> forall k :: k in Save(m) ==> !StartsWith(k, "mat.diffuse.")
  {
    forall k | k in CommonKeys + ModelKeys ensures !StartsWith(k, "terrain.") {
      if |k| >= 8 {
        assert k[..8][0] == k[0] != 't';
      }
    }
    forall k | k in CommonKeys + TerrainKeys ensures !StartsWith(k, "mat.diffuse.") {
      if |k| >= 12 {
        assert k[..12][0] == k[0] != 'm';
      }
    }
  }

  /**
   * `load` is not atomic: a map whose version parses but whose type is missing
   * throws after the version field has been overwritten.
   */
  lemma LoadFailureKeepsEarlierAssignments(prior: MetaRecord)
    ensures Load(map[VersionKey := "7"], prior) == ParseFailed(prior.(version := 7))
  {
    var d := "7";
    assert Unsigned(d) == d && d[..0] == "";
  }

  /**
   * `load` never compares the version with `CURRENT_VERSION`: a file of
   * version 2 loads like any other.
   */
  lemma LoadDoesNotCheckVersion(prior: MetaRecord)
    ensures var p := map[VersionKey := "2", TypeKey := "TEXTURE", LastModifiedKey := "0"];
      && SignedValue("2") != CurrentVersion
      && Load(p, prior) == Loaded(prior.(version := 2, assetType := Texture, uuid := None, lastModified := 0))
  {
    assert Unsigned("2") == "2" && "2"[..0] == "";
    assert Unsigned("0") == "0" && "0"[..0] == "";
  }

  /**
   * A terrain whose size does not parse throws after its six splat references
   * have already been replaced by the map's (here: all cleared).
   */
  lemma LoadFailureAfterSplatsAssigned(p: Props, prior: MetaRecord)
    requires Acceptable(p - {TerrainSizeKey}) && p[TypeKey] == "TERRAIN"
    requires TerrainSizeKey in p && !IsJavaInt(p[TerrainSizeKey])
    requires forall s :: SlotKey(s) !in p
    ensures Load(p, prior).ParseFailed?
    ensures forall s :: SplatRef(Load(p, prior).partial, s).None?
  {
  }
}
