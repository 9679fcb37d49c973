/** The uniform protocol between the scene manager and its shader programs.

    A shader program is a map from uniform name to value; a null program
    pointer is `NoShader`. Each setter below writes a fixed set of names and
    leaves every other uniform as it was. GL texture-unit side effects are
    not modelled.

    Each shader manager is taken to write its own program whichever
    program is currently bound. In OpenGL a uniform write goes to the bound
    program, so this is an assumption: during the depth pass the depth
    program is bound while the model matrix is also written through the
    main shader manager, and the model follows the program's own intent
    that both programs receive it. */
module UniformProtocol {
  import opened Geometry
  import Textures
  import Materials

  type Uniforms = map<string, UniformValue>

  datatype Shader = NoShader | Program(uniforms: Uniforms)

  // Uniform names.
  const ModelName: string := "model"
  const ColorValueName: string := "objectColor"
  const TextureValueName: string := "objectTexture"
  const UseTextureName: string := "bUseTexture"
  const UseLightingName: string := "bUseLighting"
  const UVScaleName: string := "UVscale"
  const AmbientColorName: string := "material.ambientColor"
  const AmbientStrengthName: string := "material.ambientStrength"
  const DiffuseColorName: string := "material.diffuseColor"
  const SpecularColorName: string := "material.specularColor"
  const ShininessName: string := "material.shininess"

  const MaterialNames: set<string> :=
    {AmbientColorName, AmbientStrengthName, DiffuseColorName, SpecularColorName, ShininessName}

  /** The texture and colour switches are not material uniforms. */
  lemma SetterNamesDistinct()
    ensures UseTextureName !in MaterialNames && ColorValueName !in MaterialNames
    ensures UseTextureName != UVScaleName && ColorValueName != UVScaleName
    ensures UseTextureName != UseLightingName && ColorValueName != UseLightingName
    ensures UseTextureName != ModelName && ColorValueName != ModelName
  {
    assert |UseTextureName| == 11 && |ColorValueName| == 11;
  }

  /** `after` is `before` except possibly for the uniforms named in
      `names`; a missing program stays missing. */
  predicate WritesOnly(before: Shader, after: Shader, names: set<string>)
  {
    && before.Program? == after.Program?
    && (before.Program? ==> after.uniforms - names == before.uniforms - names)
  }

  /** The program exists and its uniform `name` is `value`. */
  predicate Holds(s: Shader, name: string, value: UniformValue)
  {
    s.Program? && name in s.uniforms && s.uniforms[name] == value
  }

  /** A uniform outside the written names keeps its value. */
  lemma WritesOnlyKeeps(before: Shader, after: Shader, names: set<string>, name: string, value: UniformValue)
    requires WritesOnly(before, after, names) && name !in names
    ensures Holds(after, name, value) <==> Holds(before, name, value)
  {
    if before.Program? {
      assert name in before.uniforms <==> name in before.uniforms - names;
      assert name in after.uniforms <==> name in after.uniforms - names;
    }
  }

  /** Two writes in a row touch at most the union of their names. */
  lemma WritesOnlyCompose(a: Shader, b: Shader, c: Shader, n1: set<string>, n2: set<string>)
    requires WritesOnly(a, b, n1) && WritesOnly(b, c, n2)
    ensures WritesOnly(a, c, n1 + n2)
  {
    if a.Program? {
      var n := n1 + n2;
      assert (b.uniforms - n1) - n == b.uniforms - n && (a.uniforms - n1) - n == a.uniforms - n;
      assert (c.uniforms - n2) - n == c.uniforms - n && (b.uniforms - n2) - n == b.uniforms - n;
    }
  }

  /** A write within `n1` is also a write within any larger set. */
  lemma WritesOnlyWiden(a: Shader, b: Shader, n1: set<string>, n2: set<string>)
    requires WritesOnly(a, b, n1) && n1 <= n2
    ensures WritesOnly(a, b, n2)
  {
    if a.Program? {
      assert (b.uniforms - n1) - n2 == b.uniforms - n2 && (a.uniforms - n1) - n2 == a.uniforms - n2;
    }
  }

  /** Solid colour: texturing off and the colour set. */
  function SetShaderColor(s: Shader, color: Vec4): (s': Shader)
    ensures WritesOnly(s, s', {UseTextureName, ColorValueName})
    ensures s.Program? ==> Holds(s', UseTextureName, BoolValue(false)) && Holds(s', ColorValueName, Vec4Value(color))
  {
    match s
    case NoShader => NoShader
    case Program(u) => Program(u[UseTextureName := BoolValue(false)][ColorValueName := Vec4Value(color)])
  }

  /** Texturing on; the sampler is pointed at the tag's slot only when the
      tag is loaded, and otherwise keeps whatever it held. */
  function SetShaderTexture(s: Shader, r: Textures.Registry, tag: string): (s': Shader)
    requires Textures.Valid(r)
    ensures WritesOnly(s, s', {UseTextureName, TextureValueName})
    ensures s.Program? ==> Holds(s', UseTextureName, BoolValue(true))
    ensures s.Program? && Textures.SlotOf(r, tag) != -1 ==>
              Holds(s', TextureValueName, SamplerValue(Textures.SlotOf(r, tag)))
    ensures Textures.SlotOf(r, tag) == -1 ==> WritesOnly(s, s', {UseTextureName})
  {
    match s
    case NoShader => NoShader
    case Program(u) =>
      var u1 := u[UseTextureName := BoolValue(true)];
      var slot := Textures.SlotOf(r, tag);
      if slot >= 0 then Program(u1[TextureValueName := SamplerValue(slot)]) else Program(u1)
  }

  /** Whenever texturing is selected for a loaded tag, the sampler names a
      unit that the binding step filled with that tag's texture. */
  lemma SamplerSeesTaggedTexture(s: Shader, r: Textures.Registry, tag: string, units: map<int, int>)
    requires Textures.Valid(r) && Textures.BindsSlots(r, units) && s.Program?
    requires Textures.SlotOf(r, tag) != -1
    ensures var s' := SetShaderTexture(s, r, tag);
            && TextureValueName in s'.uniforms
            && s'.uniforms[TextureValueName].SamplerValue?
            && s'.uniforms[TextureValueName].unit in units
            && units[s'.uniforms[TextureValueName].unit] == Textures.IdOf(r, tag)
  {
    Textures.SamplerUnitHoldsTaggedTexture(r, units, tag);
  }

  /** Texture tiling factors. */
  function SetTextureUVScale(s: Shader, u: real, v: real): (s': Shader)
    ensures WritesOnly(s, s', {UVScaleName})
    ensures s.Program? ==> Holds(s', UVScaleName, Vec2Value(Vec2(u, v)))
  {
    match s
    case NoShader => NoShader
    case Program(m) => Program(m[UVScaleName := Vec2Value(Vec2(u, v))])
  }

  /** The five material uniforms of the preset for `tag`. The program
      pointer is dereferenced without a check, so it must exist. */
  function SetShaderMaterial(s: Shader, tag: string): (s': Shader)
    requires s.Program?
    ensures WritesOnly(s, s', MaterialNames)
    ensures var c := Materials.MaterialPreset(tag);
            && Holds(s', AmbientColorName, Vec3Value(c.ambientColor))
            && Holds(s', AmbientStrengthName, FloatValue(c.ambientStrength))
            && Holds(s', DiffuseColorName, Vec3Value(c.diffuseColor))
            && Holds(s', SpecularColorName, Vec3Value(c.specularColor))
            && Holds(s', ShininessName, FloatValue(c.shininess))
  {
    var c := Materials.MaterialPreset(tag);
    Program(s.uniforms[AmbientColorName := Vec3Value(c.ambientColor)]
                      [AmbientStrengthName := FloatValue(c.ambientStrength)]
                      [DiffuseColorName := Vec3Value(c.diffuseColor)]
                      [SpecularColorName := Vec3Value(c.specularColor)]
                      [ShininessName := FloatValue(c.shininess)])
  }

  /** The lighting switch each draw routine sets directly on the program
      (again without a null check). */
  function SetUseLighting(s: Shader, on: bool): (s': Shader)
    requires s.Program?
    ensures WritesOnly(s, s', {UseLightingName})
    ensures Holds(s', UseLightingName, BoolValue(on))
  {
    Program(s.uniforms[UseLightingName := BoolValue(on)])
  }

  /** The model matrix built from `t`, on one program. */
  function SetTransformations(s: Shader, t: Transform): (s': Shader)
    ensures WritesOnly(s, s', {ModelName})
    ensures s.Program? ==> Holds(s', ModelName, MatValue(ModelMatrix(t)))
  {
    match s
    case NoShader => NoShader
    case Program(u) => Program(u[ModelName := MatValue(ModelMatrix(t))])
  }

  datatype ShaderPair = ShaderPair(main: Shader, depth: Shader)

  /** The model matrix built from `t`, written to the main program and to
      the depth program alike, each only when present. */
  function SetModelMatrix(main: Shader, depth: Shader, t: Transform): (p: ShaderPair)
    ensures WritesOnly(main, p.main, {ModelName}) && WritesOnly(depth, p.depth, {ModelName})
    ensures main.Program? ==> Holds(p.main, ModelName, MatValue(ModelMatrix(t)))
    ensures depth.Program? ==> Holds(p.depth, ModelName, MatValue(ModelMatrix(t)))
  {
    var m := ModelMatrix(t);
    ShaderPair(
      if main.Program? then Program(main.uniforms[ModelName := MatValue(m)]) else NoShader,
      if depth.Program? then Program(depth.uniforms[ModelName := MatValue(m)]) else NoShader)
  }

  /** Writing the model matrix to both programs is the single-program
      write applied to each, so both receive the identical value. */
  lemma SetModelMatrixIsTwoWrites(main: Shader, depth: Shader, t: Transform)
    ensures SetModelMatrix(main, depth, t) ==
              ShaderPair(SetTransformations(main, t), SetTransformations(depth, t))
    ensures main.Program? && depth.Program? ==>
              SetModelMatrix(main, depth, t).main.uniforms[ModelName]
                == SetModelMatrix(main, depth, t).depth.uniforms[ModelName]
  {
  }
}
