# Mundus asset core, modelled in Dafny

A model of four pieces of sequential logic around the assets of the Mundus
level editor:

- **MetaFile** (`meta_file.dfy`, with the decimal codec in `decimal.dfy`): the
  metadata sidecar of an asset. A record with an asset-type tag is saved to a
  string-to-string property map and loaded back from one. Only the fields of
  the record's own type are written, a missing `terrain.size` reads as 1200,
  and every parse error becomes the one `MetaFileParseException`.
- **TerrainAsset** (`terrain_asset.dfy`, with the sample decoder in
  `heights.dfy` and the slot/channel names in `splat.dfy`): the six texture
  dependency setters that keep a slot and a metadata UUID in step, the height
  decode loop (big-endian 4-byte samples, a cut-off last sample dropped), and
  `applyDependencies`, which binds or removes each splat channel and updates
  the terrain once.
- **MModelInstance** (`model_instance.dfy`): copying the model's diffuse
  texture (or its absence) and diffuse colour (only when present) onto the
  instance's materials, index by index; the constructor and `replaceModel`,
  which keeps the old transform.
- **FileFormatUtils** (`file_format.dfy`): the raw, case-sensitive suffix tests
  on file names, their null guards and their `FileHandle` overloads.

Everything is a pure function over immutable datatypes. Java `null` is
`Option.None`; a Java `int`/`long` is an unbounded `int` whose range is checked
where the source parses it; a float sample is the 32-bit word it is read from;
a colour is the opaque string `Color.toString` produces; a texture, a render
matrix and a material attribute are opaque values.

Behaviour of the code that the model follows, although one might expect
otherwise:

- `MetaFile.load` is not atomic. Fields assigned before the failing statement
  keep their new values, so a failure can leave a partly updated record
  (`LoadOutcome.ParseFailed` carries that record).
- A missing `uuid` is not a load error; the UUID becomes null, and such a
  record cannot be saved again (`Properties` rejects a null value).
- A missing `mat.diffuse.color` leaves the previous colour in place, whereas a
  missing `mat.diffuse.texture` clears the texture. So loading what was saved
  restores every field only when it is loaded into the same record, and even
  then the colour comes back as its saved text form (see "Left out").
- `applyDependencies` before a successful `load` dereferences a null terrain,
  and the `MModelInstance` constructor with a model that is not loaded calls
  `applyModelMaterial`, which dereferences the null model. Both calls throw, so
  both are preconditions here.
- The height decode uses the big-endian order of `DataInputStream.readFloat`.

## Model

| member | source | states |
|---|---|---|
| Decimal.Parse | commons/src/main/com/mbrlabs/mundus/commons/assets/MetaFile.java:138-141 | `Integer.valueOf`/`Long.valueOf`: text of an optional sign followed by digits whose signed value lies in the type's range is accepted with that value (a '-' negates the digits' value, a '+' or no sign keeps it), and every other text is rejected |
| Decimal.ParseFormat | commons/src/main/com/mbrlabs/mundus/commons/assets/MetaFile.java:91-94 | parsing the decimal text `String.valueOf` writes gives back every value of the type's range |
| Decimal.ParseAcceptsLeadingZeros | commons/src/main/com/mbrlabs/mundus/commons/assets/MetaFile.java:138 | a version written as "007" loads as 7 |
| MetaFile.ParseType | commons/src/main/com/mbrlabs/mundus/commons/assets/MetaFile.java:139 | `AssetType.valueOf` accepts exactly the constant names and returns the constant of that name; a missing name fails |
| MetaFile.ParseInt32 | commons/src/main/com/mbrlabs/mundus/commons/assets/MetaFile.java:138 | a missing or non-numeric or out-of-int-range property fails, any other gives its signed value |
| MetaFile.ParseInt64 | commons/src/main/com/mbrlabs/mundus/commons/assets/MetaFile.java:141 | the same for the `long` timestamp |
| MetaFile.DefaultTerrainSizeParses | commons/src/main/com/mbrlabs/mundus/commons/assets/MetaFile.java:160 | the default size text "1200" parses as the int 1200 |
| MetaFile.KeysDistinct | commons/src/main/com/mbrlabs/mundus/commons/assets/MetaFile.java:43-59 | the common, model and terrain keys are disjoint and every splat slot has its own key |
| MetaFile.WithSplatRef | commons/src/main/com/mbrlabs/mundus/commons/assets/MetaFile.java:221-267 | each `setTerrainSplatX` changes that slot's UUID and no other field |
| MetaFile.Save | commons/src/main/com/mbrlabs/mundus/commons/assets/MetaFile.java:89-130 | the four common keys are always written with version and timestamp in decimal; a model writes only colour and texture keys, each present iff its field is non-null; a terrain always writes its size and each splat key iff that reference is non-null; other types write only the common keys; a null UUID cannot be saved |
| MetaFile.PutModelFields | commons/src/main/com/mbrlabs/mundus/commons/assets/MetaFile.java:97-104 | the colour and texture keys hold exactly the non-null model fields and no other key changes |
| MetaFile.PutSplats | commons/src/main/com/mbrlabs/mundus/commons/assets/MetaFile.java:108-125 | writing the splat slots in order leaves each visited slot's key holding exactly its non-null reference and leaves every other key alone |
| MetaFile.PutTerrainFields | commons/src/main/com/mbrlabs/mundus/commons/assets/MetaFile.java:107-127 | a terrain's properties hold its size and exactly its non-null splat references |
| MetaFile.Load | commons/src/main/com/mbrlabs/mundus/commons/assets/MetaFile.java:133-167 | load succeeds iff version, type and timestamp are present and well formed and a present terrain size is an int; the version, timestamp and a present terrain size are the signed values of their text; the type is the one named; a missing uuid gives null; a terrain's splat references are the map's and a missing size gives 1200; a model's texture is the map's or null while a missing colour keeps the prior one; fields of the other types are untouched; on failure the record holds the values of the assignments that ran before the throwing statement (version, then type and uuid, then timestamp, then a terrain's splat references) and the prior values of all other fields |
| MetaFile.SaveThenLoad | commons/src/main/com/mbrlabs/mundus/commons/assets/MetaFile.java:89-161 | loading what save wrote into any record succeeds and restores version, type, uuid, timestamp and the fields of the record's own type, except a null colour, which leaves the loading record's colour; the other types' fields stay the loading record's |
| MetaFile.SaveThenLoadIntoSameRecord | commons/src/main/com/mbrlabs/mundus/commons/assets/MetaFile.java:89-161 | saving and loading back into the same record changes nothing |
| MetaFile.SaveKeepsTypesApart | commons/src/main/com/mbrlabs/mundus/commons/assets/MetaFile.java:97-127 | a saved model has no `terrain.*` key and a saved terrain no `mat.diffuse.*` key |
| MetaFile.LoadFailureKeepsEarlierAssignments | commons/src/main/com/mbrlabs/mundus/commons/assets/MetaFile.java:138-139 | a map with a version but no type fails after the version has been overwritten |
| MetaFile.LoadDoesNotCheckVersion | commons/src/main/com/mbrlabs/mundus/commons/assets/MetaFile.java:38-141 | a file whose version differs from `CURRENT_VERSION` loads, keeping its own version |
| MetaFile.LoadFailureAfterSplatsAssigned | commons/src/main/com/mbrlabs/mundus/commons/assets/MetaFile.java:153-160 | a terrain map with a malformed size fails after the splat references have already been replaced |
| Splat.EverySlotIsVisited | commons/src/main/com/mbrlabs/mundus/commons/assets/TerrainAsset.java:168-197 | `applyDependencies` visits all six slots |
| Heights.BigEndianOfWordBytes | commons/src/main/com/mbrlabs/mundus/commons/assets/TerrainAsset.java:148 | reading back the four big-endian bytes of a word gives the word |
| Heights.WordBytesOfBigEndian | commons/src/main/com/mbrlabs/mundus/commons/assets/TerrainAsset.java:148 | the word read from four bytes splits back into those bytes |
| Heights.Decode | commons/src/main/com/mbrlabs/mundus/commons/assets/TerrainAsset.java:147-157 | a stream of n bytes decodes to exactly n/4 samples, sample i being bytes 4i..4i+3 in big-endian order |
| Heights.ReadHeights | commons/src/main/com/mbrlabs/mundus/commons/assets/TerrainAsset.java:145-157 | the read loop, stopped by end-of-stream on a partial sample, yields n/4 samples each built from its 4-byte group, the same as the decode |
| Heights.DecodeEncode | commons/src/main/com/mbrlabs/mundus/commons/assets/TerrainAsset.java:147-151 | decoding encoded samples followed by 0-3 stray bytes gives exactly those samples |
| Heights.EncodeDecode | commons/src/main/com/mbrlabs/mundus/commons/assets/TerrainAsset.java:147-151 | re-encoding the decoded samples gives the stream up to its last whole sample |
| Heights.DecodeDropsPartialSample | commons/src/main/com/mbrlabs/mundus/commons/assets/TerrainAsset.java:151-152 | 1-3 trailing bytes never change the decoded samples |
| TerrainAsset.SetSlot | commons/src/main/com/mbrlabs/mundus/commons/assets/TerrainAsset.java:61-133 | each of the six setters stores its argument in the slot and the argument's UUID, or null, in the metadata, and changes no other slot, metadata field, data or terrain |
| TerrainAsset.SetSlotKeepsMetaInStep | commons/src/main/com/mbrlabs/mundus/commons/assets/TerrainAsset.java:61-133 | every setter preserves "each metadata reference is its slot's UUID, or null for an empty slot" |
| TerrainAsset.SetSlots | commons/src/main/com/mbrlabs/mundus/commons/assets/TerrainAsset.java:61-133 | after a run of setters, each slot set holds its texture and agrees with the metadata; unset slots and their references are unchanged |
| TerrainAsset.SettingEverySlotAligns | commons/src/main/com/mbrlabs/mundus/commons/assets/TerrainAsset.java:61-133 | once all six setters have run, from any state, slots and metadata agree on every slot |
| TerrainAsset.Load | commons/src/main/com/mbrlabs/mundus/commons/assets/TerrainAsset.java:140-162 | a read failure leaves data and terrain as they were; otherwise data holds n/4 big-endian samples and the terrain is built from the metadata size and that data with one update; metadata and slots are untouched |
| TerrainAsset.LoadDropsPartialSample | commons/src/main/com/mbrlabs/mundus/commons/assets/TerrainAsset.java:147-157 | a file of whole samples plus 1-3 extra bytes loads exactly the whole samples |
| TerrainAsset.ApplySlots | commons/src/main/com/mbrlabs/mundus/commons/assets/TerrainAsset.java:168-197 | walking slots binds each visited channel to its slot's texture or removes it, sets the splat map from its slot, and leaves unvisited channels alone |
| TerrainAsset.ApplyDependencies | commons/src/main/com/mbrlabs/mundus/commons/assets/TerrainAsset.java:165-200 | on a loaded terrain the texture state becomes exactly the one the six slots call for and `update` runs once more; size, heights, metadata, slots and data are unchanged |
| TerrainAsset.ApplyDependenciesBindsIffPresent | commons/src/main/com/mbrlabs/mundus/commons/assets/TerrainAsset.java:168-197 | a channel is bound, to its slot's texture, iff its slot is non-null, and the splat map is the splat-map slot or null |
| TerrainAsset.ApplyDependenciesIdempotent | commons/src/main/com/mbrlabs/mundus/commons/assets/TerrainAsset.java:165-200 | a second call leaves the same bindings and differs only by one more update |
| TerrainAsset.ApplyDependenciesForgetsStaleBindings | commons/src/main/com/mbrlabs/mundus/commons/assets/TerrainAsset.java:165-200 | the resulting bindings depend on the slots alone, not on earlier bindings |
| TerrainAsset.ClearingSlotRemovesChannel | commons/src/main/com/mbrlabs/mundus/commons/assets/TerrainAsset.java:61-197 | clearing a channel's slot and re-applying removes that channel, and the next save writes no key for it |
| MModelInstance.ApplyModelMaterial | commons/src/main/com/mbrlabs/mundus/commons/model/MModelInstance.java:52-73 | below the model's material count each instance material gets the model's diffuse texture or loses its own, gets the model's diffuse colour only when it has one, and keeps every other attribute; materials beyond that count and the transform are untouched |
| MModelInstance.ApplyModelMaterialIdempotent | commons/src/main/com/mbrlabs/mundus/commons/model/MModelInstance.java:52-73 | applying the model's materials twice equals applying them once |
| MModelInstance.Create | commons/src/main/com/mbrlabs/mundus/commons/model/MModelInstance.java:36-42 | a new instance of a loaded model has the model's materials and the identity transform |
| MModelInstance.ReplaceModel | commons/src/main/com/mbrlabs/mundus/commons/model/MModelInstance.java:44-50 | the instance now refers to the new asset, has the new model's materials and keeps the previous transform |
| FileFormatUtils.NullIsNoFormat | editor/src/main/com/mbrlabs/mundus/utils/FileFormatUtils.java:39-118 | every test is false on a null name and on a null handle |
| FileFormatUtils.HandleUsesName | editor/src/main/com/mbrlabs/mundus/utils/FileFormatUtils.java:43-118 | each `FileHandle` overload equals the name test on the handle's name |
| FileFormatUtils.Is3DFormatIsUnion | editor/src/main/com/mbrlabs/mundus/utils/FileFormatUtils.java:103-107 | `is3DFormat` holds iff one of the five 3D tests does |
| FileFormatUtils.IsImageIsUnion | editor/src/main/com/mbrlabs/mundus/utils/FileFormatUtils.java:113-115 | `isImage` holds iff `isJPG`, `isPNG` or `isTGA` does |
| FileFormatUtils.SuffixesUnrelated | editor/src/main/com/mbrlabs/mundus/utils/FileFormatUtils.java:27-36 | no image suffix ends a 3D suffix and no 3D suffix ends an image suffix |
| FileFormatUtils.ImagesAreNot3D | editor/src/main/com/mbrlabs/mundus/utils/FileFormatUtils.java:103-115 | no file name is both an image and a 3D format |
| FileFormatUtils.AnyPngEndingIsPng | editor/src/main/com/mbrlabs/mundus/utils/FileFormatUtils.java:83-85 | the test is not anchored at a dot: any name ending in "png", such as "xpng", is a PNG |
| FileFormatUtils.UpperCasePngIsNotPng | editor/src/main/com/mbrlabs/mundus/utils/FileFormatUtils.java:83-85 | the test is case-sensitive: a name ending in "PNG" is not a PNG |

## Left out

- The `java.util.Properties` text format (escaping, the warning comment, line syntax) and the file streams: the model stops at the property map.
- `IOException` from reading or writing the metadata file: only the parse failure of `load` is modelled.
- MetaFile.Load: a colour string that `Color.valueOf` rejects would also end in `MetaFileParseException`; the colour is an opaque string here (the float RGBA codec is not modelled), so this failure is not.
- MetaFile.SaveThenLoadIntoSameRecord: the colour is the text `Color.toString` writes; in the source `save` writes the float colour as 8-bit hex and `load` decodes it with `Color.valueOf`, so a channel such as 0.5 comes back as 127/255. The round trip is exact for the colour's text form only, not for its float value.
- Decimal.Parse: only ASCII digits are accepted; `Integer.parseInt` also accepts the other Unicode decimal digits.
- `AssetType.java` is not part of this model; its constants are taken to be TEXTURE, PIXMAP_TEXTURE, TERRAIN and MODEL. Only the MODEL and TERRAIN branches matter.
- A `MetaFile` whose type or timestamp was never set (null) cannot be represented; `save` would throw on it.
- `Date` is its millisecond value.
- The plain getters and setters of `MetaFile` and `MModelInstance` are Dafny field access and update; `getProps`/`setProps`/`getFile` are not modelled.
- Gzip decompression, `FileHandle.read` and the `available()` semantics of the buffered stream: the input is the decompressed byte sequence, read while bytes remain.
- The IEEE 754 meaning of a sample (`Float.intBitsToFloat`): a sample is its 32-bit word.
- Heights.Encode is a reference writer for the file format; the writing side of height files is not part of this model.
- The `Terrain` constructor, `init`, `update` and the mesh: a terrain is its size, heights, texture state and an update counter; the texture state a new terrain starts with is a parameter.
- `TerrainTexture`, `SplatMap` and `SplatTexture` are not part of this model: `removeTexture` and `setSplatTexture` are removal and binding in a channel table, and a wrapper is identified with the texture asset it wraps.
- `PixmapTextureAsset` and `TextureAsset` are one texture type here.
- The asset registry that resolves UUIDs to texture assets and calls the setters.
- `TerrainAsset.dispose`, which is empty, and `printStackTrace` logging.
- libGDX `Model`, `ModelInstance` and `Material` internals: a new render instance is taken to hold copies of the model's materials in the same order, at the identity transform.
- MModelInstance.ReplaceModel: the source assigns the old matrix object itself to the new instance, so both share it; the model states equality of values only.
- Crashes on null dereferences are preconditions, so the state a crashing call leaves behind (for example `replaceModel` assigning the new asset before throwing) is not modelled.
