/**
 * A terrain asset (`TerrainAsset`): the decoded height samples, the terrain
 * built from them, and six optional texture dependencies whose UUIDs are
 * mirrored in the asset's metadata. The terrain's texture state is reduced to
 * a splat map and a channel table; the rest of `Terrain` is abstract.
 */
module TerrainAsset {
  import opened Wrappers
  import opened Splat
  import opened MetaFile
  import opened Heights

  /** A texture asset a terrain depends on: the UUID its own metadata holds and its loaded texture. */
  datatype TextureAsset = TextureAsset(uuid: Option<string>, texture: nat)

  /** `TerrainTexture`: the splat map and the texture bound to each channel. */
  datatype TerrainTexture = TerrainTexture(splatmap: Option<TextureAsset>, channels: map<Channel, TextureAsset>)

  /** The `Terrain` object: its size, its height samples, its textures and how often `update` has run. */
  datatype TerrainObject = TerrainObject(size: int, heights: seq<Word>, texture: TerrainTexture, updates: nat)

  /**
   * The fields of a `TerrainAsset`. A slot missing from `slots` is a null
   * dependency; `terrain` is None until `load` succeeds.
   */
  datatype State = State(
    meta: MetaRecord,
    data: Option<seq<Word>>,
    slots: map<Slot, TextureAsset>,
    terrain: Option<TerrainObject>)

  /** The UUID a slot refers to: that of its texture, or null for an empty slot. */
  function SlotUuid(slots: map<Slot, TextureAsset>, s: Slot): Option<string> {
    if s in slots then slots[s].uuid else None
  }

  /** Metadata and in-memory dependencies agree on every slot. */
  ghost predicate MetaMatchesSlots(a: State) {
    forall s :: SplatRef(a.meta, s) == SlotUuid(a.slots, s)
  }

  /**
   * The six setters `setSplatmap` and `setSplatBase` .. `setSplatA`: store the
   * texture (or null) in the slot and its UUID (or null) in the metadata.
   */
  function SetSlot(a: State, s: Slot, t: Option<TextureAsset>): (r: State)
    ensures Get(r.slots, s) == t
    ensures SplatRef(r.meta, s) == (if t.Some? then t.value.uuid else None)
    ensures forall s' :: s' != s ==> Get(r.slots, s') == Get(a.slots, s')
    ensures forall s' :: s' != s ==> SplatRef(r.meta, s') == SplatRef(a.meta, s')
    ensures SameCommonFields(r.meta, a.meta) && SameModelFields(r.meta, a.meta)
    ensures r.meta.terrainSize == a.meta.terrainSize
    ensures r.data == a.data && r.terrain == a.terrain
  {
    match t
    case None => a.(slots := a.slots - {s}, meta := WithSplatRef(a.meta, s, None))
    case Some(tex) => a.(slots := a.slots[s := tex], meta := WithSplatRef(a.meta, s, tex.uuid))
  }

  /** Every setter keeps metadata and dependencies in step. */
  lemma SetSlotKeepsMetaInStep(a: State, s: Slot, t: Option<TextureAsset>)
    requires MetaMatchesSlots(a)
    ensures MetaMatchesSlots(SetSlot(a, s, t))
  {
    var r := SetSlot(a, s, t);
    forall s' ensures SplatRef(r.meta, s') == SlotUuid(r.slots, s') {
      if s' != s {
        assert Get(r.slots, s') == Get(a.slots, s');
      }
    }
  }

  /** Calling the setters for the slots of `order` in turn, with the textures `ts` resolved for them. */
  function SetSlots(a: State, order: seq<Slot>, ts: map<Slot, TextureAsset>): (r: State)
    ensures forall s :: s in order ==> SplatRef(r.meta, s) == SlotUuid(r.slots, s)
    ensures forall s :: s in order ==> Get(r.slots, s) == Get(ts, s)
    ensures forall s :: s !in order ==> Get(r.slots, s) == Get(a.slots, s) && SplatRef(r.meta, s) == SplatRef(a.meta, s)
    decreases |order|
  {
    if |order| == 0 then a
    else
      var r := SetSlots(SetSlot(a, order[0], Get(ts, order[0])), order[1..], ts);
      assert forall s :: s in order ==> s == order[0] || s in order[1..];
      r
  }

  /**
   * Whatever the state before, once each of the six setters has run, metadata
   * and dependencies agree (a freshly constructed asset has UUIDs in its
   * metadata but empty slots until they are resolved and set).
   */
  lemma SettingEverySlotAligns(a: State, ts: map<Slot, TextureAsset>)
    ensures MetaMatchesSlots(SetSlots(a, SlotOrder, ts))
    ensures SetSlots(a, SlotOrder, ts).slots == ts
  {
    var r := SetSlots(a, SlotOrder, ts);
    EverySlotIsVisited();
    GetExtensional(r.slots, ts);
  }

  /** The outcome of reading the gzip-compressed height file. */
  datatype HeightFile = Decompressed(bytes: seq<Byte>) | ReadFailure

  /**
   * `load`: decode the samples and build the terrain from the metadata's size.
   * A read failure other than end-of-stream returns before `data` and
   * `terrain` are assigned. `initial` is the texture state a new `Terrain` starts
   * with; `init` is not modelled and the one `update` is counted.
   */
  function Load(a: State, file: HeightFile, initial: TerrainTexture): (r: State)
    ensures file.ReadFailure? ==> r == a
    ensures file.Decompressed? ==>
      && r.data.Some? && |r.data.value| == |file.bytes| / 4
      && (forall i :: 0 <= i < |r.data.value| ==> r.data.value[i] == WordAt(file.bytes, i))
      && r.terrain == Some(TerrainObject(a.meta.terrainSize, r.data.value, initial, 1))
    ensures r.meta == a.meta && r.slots == a.slots
  {
    match file
    case ReadFailure => a
    case Decompressed(bytes) =>
      var data := Decode(bytes);
      a.(data := Some(data), terrain := Some(TerrainObject(a.meta.terrainSize, data, initial, 1)))
  }

  /** A terrain loaded from a file of whole samples plus a cut-off one holds exactly the whole samples. */
  lemma LoadDropsPartialSample(a: State, ws: seq<Word>, tail: seq<Byte>, initial: TerrainTexture)
    requires |tail| < 4
    ensures Load(a, Decompressed(Encode(ws) + tail), initial).data == Some(ws)
  {
    DecodeEncode(ws, tail);
  }

  /** The texture state the six slots call for: a channel is bound iff its slot is non-null. */
  function Bindings(slots: map<Slot, TextureAsset>): TerrainTexture {
    TerrainTexture(Get(slots, Splatmap),
                   map c | c in {Base, R, G, B, A} && Paint(c) in slots :: slots[Paint(c)])
  }

  /** One step of `applyDependencies`: bind a slot's texture, or remove the channel of an empty slot. */
  function ApplySlot(t: TerrainTexture, slots: map<Slot, TextureAsset>, s: Slot): TerrainTexture {
    match s
    case Splatmap => t.(splatmap := Get(slots, Splatmap))
    case Paint(c) =>
      if s in slots then t.(channels := t.channels[c := slots[s]])
      else t.(channels := t.channels - {c})
  }

  function ApplySlots(t: TerrainTexture, slots: map<Slot, TextureAsset>, order: seq<Slot>): (r: TerrainTexture)
    ensures forall c :: Paint(c) in order ==> Get(r.channels, c) == Get(slots, Paint(c))
    ensures forall c :: Paint(c) !in order ==> Get(r.channels, c) == Get(t.channels, c)
    ensures r.splatmap == if Splatmap in order then Get(slots, Splatmap) else t.splatmap
    decreases |order|
  {
    if |order| == 0 then t
    else
      var r := ApplySlots(ApplySlot(t, slots, order[0]), slots, order[1..]);
      assert forall s :: s in order ==> s == order[0] || s in order[1..];
      r
  }

  /**
   * `applyDependencies`: walk the six slots, binding or removing each channel,
   * then update the terrain once. It dereferences the terrain, so it needs a
   * loaded one.
   */
  function ApplyDependencies(a: State): (r: State)
    requires a.terrain.Some?
    ensures r.terrain.Some? && r.terrain.value.texture == Bindings(a.slots)
    ensures r.terrain.value.updates == a.terrain.value.updates + 1
    ensures r.terrain.value.size == a.terrain.value.size && r.terrain.value.heights == a.terrain.value.heights
    ensures r.meta == a.meta && r.slots == a.slots && r.data == a.data
  {
    var terrain := a.terrain.value;
    var texture := ApplySlots(terrain.texture, a.slots, SlotOrder);
    EverySlotIsVisited();
    GetExtensional(texture.channels, Bindings(a.slots).channels);
    a.(terrain := Some(terrain.(texture := texture, updates := terrain.updates + 1)))
  }

  /** Each channel is bound to its slot's texture exactly when that slot is non-null. */
  lemma ApplyDependenciesBindsIffPresent(a: State, c: Channel)
    requires a.terrain.Some?
    ensures var t := ApplyDependencies(a).terrain.value.texture;
      && (c in t.channels <==> Paint(c) in a.slots)
      && (c in t.channels ==> t.channels[c] == a.slots[Paint(c)])
      && t.splatmap == Get(a.slots, Splatmap)
  {
  }

  /** A second call with unchanged slots leaves the same bindings; only `update` runs again. */
  lemma ApplyDependenciesIdempotent(a: State)
    requires a.terrain.Some?
    ensures var once := ApplyDependencies(a); var twice := ApplyDependencies(once);
      && twice.terrain.value.texture == once.terrain.value.texture
      && twice.terrain.value.updates == once.terrain.value.updates + 1
      && twice.(terrain := once.terrain) == once
  {
  }

  /** The bindings depend on the slots alone: no earlier binding survives. */
  lemma ApplyDependenciesForgetsStaleBindings(a: State, b: State)
    requires a.terrain.Some? && b.terrain.Some? && a.slots == b.slots
    ensures ApplyDependencies(a).terrain.value.texture == ApplyDependencies(b).terrain.value.texture
  {
  }

  /**
   * Clearing a slot and re-applying removes its channel from the terrain, and
   * the next `save` writes no key for it.
   */
  lemma ClearingSlotRemovesChannel(a: State, c: Channel)
    requires a.terrain.Some? && a.meta.uuid.Some? && a.meta.assetType == Terrain
    ensures var r := ApplyDependencies(SetSlot(a, Paint(c), None));
      && c !in r.terrain.value.texture.channels
      && SlotKey(Paint(c)) !in Save(r.meta)
  {
    var r := ApplyDependencies(SetSlot(a, Paint(c), None));
    assert Get(Save(r.meta), SlotKey(Paint(c))) == SplatRef(r.meta, Paint(c));
  }
}
