/**
 * `MModelInstance`: a placed instance of a shared model asset whose per-instance
 * materials take the model's diffuse texture and colour. libGDX materials are
 * maps from attribute kind to an opaque attribute; the transform is an opaque
 * matrix.
 */
module MModelInstance {
  import opened Wrappers

  /** The attribute kinds a material is keyed by. */
  datatype AttributeKind = DiffuseTexture | DiffuseColor | OtherKind(mask: nat)

  /** The contents of a material attribute, not interpreted here. */
  datatype Attribute = Attribute(contents: string)

  type Material = map<AttributeKind, Attribute>

  /** A libGDX 4x4 matrix, kept as its sixteen cells. */
  datatype Matrix4 = Matrix4(cells: seq<real>)

  const Identity: Matrix4 :=
    Matrix4([1.0, 0.0, 0.0, 0.0, 0.0, 1.0, 0.0, 0.0, 0.0, 0.0, 1.0, 0.0, 0.0, 0.0, 0.0, 1.0])

  /** libGDX `Model`: the shared geometry and its materials. */
  datatype Model = Model(materials: seq<Material>)

  /** `ModelAsset`: its model is None (`getModel()` returns null) until it is loaded. */
  datatype ModelAsset = ModelAsset(model: Option<Model>)

  /** libGDX `ModelInstance`: its own copy of the materials, and its placement. */
  datatype RenderInstance = RenderInstance(materials: seq<Material>, transform: Matrix4)

  datatype Instance = Instance(asset: ModelAsset, instance: Option<RenderInstance>)

  /** `new ModelInstance(model)`: copies of the model's materials, at the origin. */
  function NewRenderInstance(m: Model): RenderInstance {
    RenderInstance(m.materials, Identity)
  }

  /**
   * The loop body of `applyModelMaterial` for one index: the diffuse texture is
   * copied or removed, the diffuse colour copied only when the model has one.
   */
  function SyncMaterial(modelMat: Material, instanceMat: Material): Material {
    var withTexture :=
      if DiffuseTexture in modelMat then instanceMat[DiffuseTexture := modelMat[DiffuseTexture]]
      else instanceMat - {DiffuseTexture};
    if DiffuseColor in modelMat then withTexture[DiffuseColor := modelMat[DiffuseColor]]
    else withTexture
  }

  /**
   * What `applyModelMaterial` demands: a loaded model, and an instance with at
   * least as many materials whenever the model has any.
   */
  predicate CanApply(mi: Instance) {
    && mi.asset.model.Some?
    && (|mi.asset.model.value.materials| == 0 ||
        (mi.instance.Some? && |mi.asset.model.value.materials| <= |mi.instance.value.materials|))
  }

  /** `applyModelMaterial`: sync each instance material with the model material of the same index. */
  function ApplyModelMaterial(mi: Instance): (r: Instance)
    requires CanApply(mi)
    ensures r.asset == mi.asset
    ensures mi.instance.None? ==> r == mi
    ensures mi.instance.Some? ==>
      var model := mi.asset.model.value.materials;
      var before := mi.instance.value.materials;
      && r.instance.Some?
      && r.instance.value.transform == mi.instance.value.transform
      && |r.instance.value.materials| == |before|
      && forall i :: 0 <= i < |before| ==>
        var after := r.instance.value.materials[i];
        if i < |model| then
          && Get(after, DiffuseTexture) == Get(model[i], DiffuseTexture)
          && Get(after, DiffuseColor) == (if DiffuseColor in model[i] then Get(model[i], DiffuseColor) else Get(before[i], DiffuseColor))
          && (forall k :: k != DiffuseTexture && k != DiffuseColor ==> Get(after, k) == Get(before[i], k))
        else after == before[i]
  {
    match mi.instance
    case None => mi
    case Some(inst) =>
      var model := mi.asset.model.value.materials;
      var synced := seq(|inst.materials|, i requires 0 <= i < |inst.materials| =>
        if i < |model| then SyncMaterial(model[i], inst.materials[i]) else inst.materials[i]);
      mi.(instance := Some(inst.(materials := synced)))
  }

  /** Applying the model's materials twice is the same as applying them once. */
  lemma ApplyModelMaterialIdempotent(mi: Instance)
    requires CanApply(mi)
    ensures CanApply(ApplyModelMaterial(mi))
    ensures ApplyModelMaterial(ApplyModelMaterial(mi)) == ApplyModelMaterial(mi)
  {
    var once := ApplyModelMaterial(mi);
    var twice := ApplyModelMaterial(once);
    if mi.instance.Some? {
      var a := once.instance.value.materials;
      var b := twice.instance.value.materials;
      forall i | 0 <= i < |a| ensures b[i] == a[i] {
        GetExtensional(b[i], a[i]);
      }
      assert b == a;
      assert twice.instance.value == once.instance.value;
    }
  }

  /**
   * The constructor: a render instance of the model, then `applyModelMaterial`.
   * That call dereferences the model, so a model that is not loaded fails in
   * the constructor as well.
   */
  function Create(asset: ModelAsset): (r: Instance)
    requires asset.model.Some?
    ensures r.asset == asset && r.instance.Some?
    ensures r.instance.value.materials == asset.model.value.materials
    ensures r.instance.value.transform == Identity
  {
    var created := Instance(asset, Some(NewRenderInstance(asset.model.value)));
    var r := ApplyModelMaterial(created);
    var mats := asset.model.value.materials;
    assert forall i :: 0 <= i < |mats| ==> r.instance.value.materials[i] == mats[i] by {
      forall i | 0 <= i < |mats| ensures r.instance.value.materials[i] == mats[i] {
        GetExtensional(r.instance.value.materials[i], mats[i]);
      }
    }
    r
  }

  /**
   * `replaceModel`: a render instance of the new model that keeps the old
   * instance's transform, then `applyModelMaterial`. It needs a loaded new
   * model and an existing instance.
   */
  function ReplaceModel(mi: Instance, asset: ModelAsset): (r: Instance)
    requires asset.model.Some? && mi.instance.Some?
    ensures r.asset == asset && r.instance.Some?
    ensures r.instance.value.transform == mi.instance.value.transform
    ensures r.instance.value.materials == asset.model.value.materials
  {
    var created := NewRenderInstance(asset.model.value).(transform := mi.instance.value.transform);
    var r := ApplyModelMaterial(Instance(asset, Some(created)));
    var mats := asset.model.value.materials;
    assert forall i :: 0 <= i < |mats| ==> r.instance.value.materials[i] == mats[i] by {
      forall i | 0 <= i < |mats| ensures r.instance.value.materials[i] == mats[i] {
        GetExtensional(r.instance.value.materials[i], mats[i]);
      }
    }
    r
  }
}
