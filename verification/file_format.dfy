/**
 * `FileFormatUtils`: file-type tests by a raw, case-sensitive suffix of the
 * file name. A null name or handle is never of any type.
 */
module FileFormatUtils {
  import opened Wrappers

  const G3dbSuffix: string := "g3db"
  const G3djSuffix: string := "g3dj"
  const ColladaSuffix: string := "dae"
  const WavefrontSuffix: string := "obj"
  const FbxSuffix: string := "fbx"

  const PngSuffix: string := "png"
  const JpgSuffix: string := "jpg"
  const JpegSuffix: string := "jpeg"
  const TgaSuffix: string := "tga"

  const ImageSuffixes: seq<string> := [JpgSuffix, JpegSuffix, PngSuffix, TgaSuffix]
  const ModelSuffixes: seq<string> := [WavefrontSuffix, ColladaSuffix, G3dbSuffix, G3djSuffix, FbxSuffix]

  /** `String.endsWith`. */
  predicate EndsWith(s: string, suffix: string) {
    |suffix| <= |s| && s[|s| - |suffix|..] == suffix
  }

  /** libGDX `FileHandle`; only its `name()` matters here. */
  datatype FileHandle = FileHandle(name: string)

  predicate IsG3db(filename: Option<string>) {
    filename.Some? && EndsWith(filename.value, G3dbSuffix)
  }

  predicate IsWavefront(filename: Option<string>) {
    filename.Some? && EndsWith(filename.value, WavefrontSuffix)
  }

  predicate IsCollada(filename: Option<string>) {
    filename.Some? && EndsWith(filename.value, ColladaSuffix)
  }

  predicate IsFbx(filename: Option<string>) {
    filename.Some? && EndsWith(filename.value, FbxSuffix)
  }

  predicate IsG3dj(filename: Option<string>) {
    filename.Some? && EndsWith(filename.value, G3djSuffix)
  }

  predicate IsPng(filename: Option<string>) {
    filename.Some? && EndsWith(filename.value, PngSuffix)
  }

  predicate IsJpg(filename: Option<string>) {
    filename.Some? && (EndsWith(filename.value, JpgSuffix) || EndsWith(filename.value, JpegSuffix))
  }

  predicate IsTga(filename: Option<string>) {
    filename.Some? && EndsWith(filename.value, TgaSuffix)
  }

  predicate Is3DFormat(filename: Option<string>) {
    && filename.Some?
    && (|| EndsWith(filename.value, WavefrontSuffix) || EndsWith(filename.value, ColladaSuffix)
        || EndsWith(filename.value, G3dbSuffix) || EndsWith(filename.value, G3djSuffix)
        || EndsWith(filename.value, FbxSuffix))
  }

  predicate IsImage(filename: Option<string>) {
    filename.Some? && (IsJpg(filename) || IsPng(filename) || IsTga(filename))
  }

  // The FileHandle overloads: a null handle is of no type, otherwise its name decides.

  function NameOf(file: Option<FileHandle>): Option<string> {
    if file.Some? then Some(file.value.name) else None
  }

  predicate IsG3dbFile(file: Option<FileHandle>) { file.Some? && IsG3db(NameOf(file)) }
  predicate IsWavefrontFile(file: Option<FileHandle>) { file.Some? && IsWavefront(NameOf(file)) }
  predicate IsColladaFile(file: Option<FileHandle>) { file.Some? && IsCollada(NameOf(file)) }
  predicate IsFbxFile(file: Option<FileHandle>) { file.Some? && IsFbx(NameOf(file)) }
  predicate IsG3djFile(file: Option<FileHandle>) { file.Some? && IsG3dj(NameOf(file)) }
  predicate IsPngFile(file: Option<FileHandle>) { file.Some? && IsPng(NameOf(file)) }
  predicate IsJpgFile(file: Option<FileHandle>) { file.Some? && IsJpg(NameOf(file)) }
  predicate IsTgaFile(file: Option<FileHandle>) { file.Some? && IsTga(NameOf(file)) }
  predicate Is3DFormatFile(file: Option<FileHandle>) { file.Some? && Is3DFormat(NameOf(file)) }
  predicate IsImageFile(file: Option<FileHandle>) { file.Some? && IsImage(NameOf(file)) }

  /** Neither a null name nor a null handle is of any type. */
  lemma NullIsNoFormat()
    ensures !IsG3db(None) && !IsWavefront(None) && !IsCollada(None) && !IsFbx(None) && !IsG3dj(None)
    ensures !IsPng(None) && !IsJpg(None) && !IsTga(None) && !Is3DFormat(None) && !IsImage(None)
    ensures !IsG3dbFile(None) && !IsWavefrontFile(None) && !IsColladaFile(None) && !IsFbxFile(None)
    ensures !IsG3djFile(None) && !IsPngFile(None) && !IsJpgFile(None) && !IsTgaFile(None)
    ensures !Is3DFormatFile(None) && !IsImageFile(None)
  {
  }

  /** A handle is of a type exactly when its name is. */
  lemma HandleUsesName(f: FileHandle)
    ensures IsG3dbFile(Some(f)) == IsG3db(Some(f.name))
    ensures IsWavefrontFile(Some(f)) == IsWavefront(Some(f.name))
    ensures IsColladaFile(Some(f)) == IsCollada(Some(f.name))
    ensures IsFbxFile(Some(f)) == IsFbx(Some(f.name))
    ensures IsG3djFile(Some(f)) == IsG3dj(Some(f.name))
    ensures IsPngFile(Some(f)) == IsPng(Some(f.name))
    ensures IsJpgFile(Some(f)) == IsJpg(Some(f.name))
    ensures IsTgaFile(Some(f)) == IsTga(Some(f.name))
    ensures Is3DFormatFile(Some(f)) == Is3DFormat(Some(f.name))
    ensures IsImageFile(Some(f)) == IsImage(Some(f.name))
  {
  }

  /** `is3DFormat` agrees with the disjunction of the five 3D tests. */
  lemma Is3DFormatIsUnion(filename: Option<string>)
    ensures Is3DFormat(filename) <==>
      IsWavefront(filename) || IsCollada(filename) || IsG3db(filename) || IsG3dj(filename) || IsFbx(filename)
  {
  }

  /** `isImage` agrees with the disjunction of the three image tests; null is no image. */
  lemma IsImageIsUnion(filename: Option<string>)
    ensures IsImage(filename) <==> IsJpg(filename) || IsPng(filename) || IsTga(filename)
  {
  }

  /** No image suffix ends a 3D suffix, and no 3D suffix ends an image suffix. */
  lemma SuffixesUnrelated()
    ensures forall i, j :: 0 <= i < |ImageSuffixes| && 0 <= j < |ModelSuffixes| ==>
      !EndsWith(ModelSuffixes[j], ImageSuffixes[i]) && !EndsWith(ImageSuffixes[i], ModelSuffixes[j])
  {
    forall i, j | 0 <= i < |ImageSuffixes| && 0 <= j < |ModelSuffixes|
      ensures !EndsWith(ModelSuffixes[j], ImageSuffixes[i]) && !EndsWith(ImageSuffixes[i], ModelSuffixes[j])
    {
      var a, b := ImageSuffixes[i], ModelSuffixes[j];
      LastChar(b, a);
      LastChar(a, b);
    }
  }

  /** A name ending with a non-empty suffix ends with that suffix's last character. */
  lemma LastChar(s: string, x: string)
    requires |x| > 0
    ensures EndsWith(s, x) ==> |s| > 0 && s[|s| - 1] == x[|x| - 1]
  {
    if EndsWith(s, x) {
      assert s[|s| - |x|..][|x| - 1] == s[|s| - 1];
    }
  }

  /** The suffix is not anchored at a dot: any name ending in "png" is a PNG. */
  lemma AnyPngEndingIsPng(s: string)
    ensures IsPng(Some(s + PngSuffix))
  {
    var t := s + PngSuffix;
    assert t[|t| - 3..] == PngSuffix;
  }

  /** Matching is case-sensitive: a name ending in "PNG" is not a PNG. */
  lemma UpperCasePngIsNotPng(s: string)
    ensures !IsPng(Some(s + "PNG"))
  {
    var t := s + "PNG";
    assert t[|t| - 3..] == "PNG";
  }

  /**
   * No file name is both an image and a 3D model: every image suffix ends in
   * 'g' or 'a', every 3D suffix in 'j', 'e', 'b' or 'x'.
   */
  lemma ImagesAreNot3D(filename: Option<string>)
    ensures !(IsImage(filename) && Is3DFormat(filename))
  {
    if filename.Some? {
      var s := filename.value;
      LastChar(s, JpgSuffix);
      LastChar(s, JpegSuffix);
      LastChar(s, PngSuffix);
      LastChar(s, TgaSuffix);
      LastChar(s, WavefrontSuffix);
      LastChar(s, ColladaSuffix);
      LastChar(s, G3dbSuffix);
      LastChar(s, G3djSuffix);
      LastChar(s, FbxSuffix);
    }
  }
}
