/** The two render passes of the scene as command lists run against the
    uniform maps of the main and the depth shader programs.

    The depth pass renders every shadow caster with the model matrix
    written to both programs; the lit pass (the Draw* routines) sets
    texture, tiling, material and lighting before each draw and writes
    the model matrix to the main program only. A draw records the two
    programs' uniforms at that moment, which is what the GPU would read. */
module Render {
  import opened Geometry
  import opened UniformProtocol
  import Textures
  import Materials

  datatype MeshKind = Box | Cylinder | Cone | Torus | Plane

  /** One scene-manager call inside a pass. */
  datatype Command =
    | SetTexture(tag: string)
    | SetColor(color: Vec4)
    | SetUVScale(scale: Vec2)
    | SetMaterial(tag: string)
    | SetLighting(on: bool)
    | SetModel(transform: Transform)
    | SetModelBoth(transform: Transform)
    | DrawMesh(mesh: MeshKind)

  /** Commands that dereference the main program without a null check. */
  predicate NeedsMain(c: Command)
  {
    c.SetMaterial? || c.SetLighting?
  }

  predicate MainFree(cmds: seq<Command>)
  {
    |cmds| == 0 || (!NeedsMain(cmds[0]) && MainFree(cmds[1..]))
  }

  /** The uniforms of the main program a command may write. */
  function MainNames(c: Command): set<string>
  {
    match c
    case SetTexture(_) => {UseTextureName, TextureValueName}
    case SetColor(_) => {UseTextureName, ColorValueName}
    case SetUVScale(_) => {UVScaleName}
    case SetMaterial(_) => MaterialNames
    case SetLighting(_) => {UseLightingName}
    case SetModel(_) => {ModelName}
    case SetModelBoth(_) => {ModelName}
    case DrawMesh(_) => {}
  }

  /** The uniforms of the depth program a command may write. */
  function DepthNames(c: Command): set<string>
  {
    if c.SetModelBoth? then {ModelName} else {}
  }

  /** Every uniform a scene-manager setter may write on the main program. */
  const SetterNames: set<string> :=
    {ModelName, ColorValueName, TextureValueName, UseTextureName, UseLightingName, UVScaleName} + MaterialNames

  function MainWrites(cmds: seq<Command>): set<string>
  {
    if |cmds| == 0 then {} else MainNames(cmds[0]) + MainWrites(cmds[1..])
  }

  function DepthWrites(cmds: seq<Command>): set<string>
  {
    if |cmds| == 0 then {} else DepthNames(cmds[0]) + DepthWrites(cmds[1..])
  }

  /** Whatever a list runs, the main program changes only in setter
      uniforms and the depth program only in its model matrix. */
  lemma {:induction false} WritesWithinSetters(cmds: seq<Command>)
    ensures MainWrites(cmds) <= SetterNames
    ensures DepthWrites(cmds) <= {ModelName}
    decreases |cmds|
  {
    if |cmds| > 0 {
      WritesWithinSetters(cmds[1..]);
    }
  }

  function DrawCount(cmds: seq<Command>): nat
  {
    if |cmds| == 0 then 0 else (if cmds[0].DrawMesh? then 1 else 0) + DrawCount(cmds[1..])
  }

  /** One non-draw command applied to both programs. */
  function Step(sh: ShaderPair, r: Textures.Registry, c: Command): (sh': ShaderPair)
    requires Textures.Valid(r)
    requires NeedsMain(c) ==> sh.main.Program?
    ensures WritesOnly(sh.main, sh'.main, MainNames(c))
    ensures WritesOnly(sh.depth, sh'.depth, DepthNames(c))
  {
    match c
    case SetTexture(tag) => ShaderPair(SetShaderTexture(sh.main, r, tag), sh.depth)
    case SetColor(color) => ShaderPair(SetShaderColor(sh.main, color), sh.depth)
    case SetUVScale(scale) => ShaderPair(SetTextureUVScale(sh.main, scale.u, scale.v), sh.depth)
    case SetMaterial(tag) => ShaderPair(SetShaderMaterial(sh.main, tag), sh.depth)
    case SetLighting(on) => ShaderPair(SetUseLighting(sh.main, on), sh.depth)
    case SetModel(t) => ShaderPair(SetTransformations(sh.main, t), sh.depth)
    case SetModelBoth(t) => SetModelMatrix(sh.main, sh.depth, t)
    case DrawMesh(_) => sh
  }

  /** What one draw call sees: the mesh and both programs' uniforms. */
  datatype Drawn = Drawn(mesh: MeshKind, main: Shader, depth: Shader)

  datatype Run = Run(shaders: ShaderPair, trace: seq<Drawn>)

  /** Runs a command list; every draw is recorded in order. At the end
      only the names the commands write can differ. */
  function Exec(sh: ShaderPair, r: Textures.Registry, cmds: seq<Command>): (run: Run)
    requires Textures.Valid(r)
    requires sh.main.Program? || MainFree(cmds)
    ensures |run.trace| == DrawCount(cmds)
    ensures WritesOnly(sh.main, run.shaders.main, MainWrites(cmds))
    ensures WritesOnly(sh.depth, run.shaders.depth, DepthWrites(cmds))
    decreases |cmds|
  {
    if |cmds| == 0 then
      WritesOnlyWiden(sh.main, sh.main, {}, {});
      WritesOnlyWiden(sh.depth, sh.depth, {}, {});
      Run(sh, [])
    else
      var sh1 := Step(sh, r, cmds[0]);
      var rest := Exec(sh1, r, cmds[1..]);
      var trace := if cmds[0].DrawMesh? then [Drawn(cmds[0].mesh, sh.main, sh.depth)] + rest.trace else rest.trace;
      WritesOnlyCompose(sh.main, sh1.main, rest.shaders.main, MainNames(cmds[0]), MainWrites(cmds[1..]));
      WritesOnlyCompose(sh.depth, sh1.depth, rest.shaders.depth, DepthNames(cmds[0]), DepthWrites(cmds[1..]));
      Run(rest.shaders, trace)
  }

  /** What any draw of a list sees differs from the state before the list
      only in the names the list writes. */
  lemma {:induction false} ExecTraceFrame(sh: ShaderPair, r: Textures.Registry, cmds: seq<Command>)
    requires Textures.Valid(r)
    requires sh.main.Program? || MainFree(cmds)
    ensures forall k :: 0 <= k < |Exec(sh, r, cmds).trace| ==>
              && WritesOnly(sh.main, Exec(sh, r, cmds).trace[k].main, MainWrites(cmds))
              && WritesOnly(sh.depth, Exec(sh, r, cmds).trace[k].depth, DepthWrites(cmds))
    decreases |cmds|
  {
    if |cmds| > 0 {
      var sh1 := Step(sh, r, cmds[0]);
      ExecTraceFrame(sh1, r, cmds[1..]);
      var rest := Exec(sh1, r, cmds[1..]);
      var run := Exec(sh, r, cmds);
      forall k | 0 <= k < |rest.trace|
        ensures WritesOnly(sh.main, rest.trace[k].main, MainWrites(cmds))
        ensures WritesOnly(sh.depth, rest.trace[k].depth, DepthWrites(cmds))
      {
        WritesOnlyCompose(sh.main, sh1.main, rest.trace[k].main, MainNames(cmds[0]), MainWrites(cmds[1..]));
        WritesOnlyCompose(sh.depth, sh1.depth, rest.trace[k].depth, DepthNames(cmds[0]), DepthWrites(cmds[1..]));
      }
      if cmds[0].DrawMesh? {
        WritesOnlyWiden(sh.main, sh.main, {}, MainWrites(cmds));
        WritesOnlyWiden(sh.depth, sh.depth, {}, DepthWrites(cmds));
        assert run.trace == [Drawn(cmds[0].mesh, sh.main, sh.depth)] + rest.trace;
      }
    }
  }

  /** Running two lists back to back is running their concatenation. */
  lemma {:induction false} ExecAppend(sh: ShaderPair, r: Textures.Registry, a: seq<Command>, b: seq<Command>)
    requires Textures.Valid(r)
    requires sh.main.Program? || MainFree(a + b)
    ensures sh.main.Program? || MainFree(a)
    ensures var ra := Exec(sh, r, a);
            && (ra.shaders.main.Program? || MainFree(b))
            && Exec(sh, r, a + b) == Run(Exec(ra.shaders, r, b).shaders, ra.trace + Exec(ra.shaders, r, b).trace)
    decreases |a|
  {
    if |a| == 0 {
      assert a + b == b;
    } else {
      var ab := a + b;
      if !sh.main.Program? {
        MainFreeAppend(a, b);
      }
      assert ab[0] == a[0] && ab[1..] == a[1..] + b;
      var sh1 := Step(sh, r, a[0]);
      ExecAppend(sh1, r, a[1..], b);
      ExecUnfold(sh, r, a);
      ExecUnfold(sh, r, ab);
      var head := if a[0].DrawMesh? then [Drawn(a[0].mesh, sh.main, sh.depth)] else [];
      var ra1 := Exec(sh1, r, a[1..]);
      var rb := Exec(ra1.shaders, r, b);
      var ra := Exec(sh, r, a);
      assert ra.shaders == ra1.shaders && ra.trace == head + ra1.trace;
      var rest := Exec(sh1, r, ab[1..]);
      assert rest == Run(rb.shaders, ra1.trace + rb.trace);
      assert Exec(sh, r, ab) == Run(rest.shaders, head + rest.trace);
      ConcatAssoc(head, ra1.trace, rb.trace);
    }
  }

  lemma ConcatIndex<T>(x: seq<T>, y: seq<T>, k: int)
    requires 0 <= k < |x| + |y|
    ensures (x + y)[k] == if k < |x| then x[k] else y[k - |x|]
  {
  }

  lemma ConcatAssoc<T>(x: seq<T>, y: seq<T>, z: seq<T>)
    ensures x + (y + z) == (x + y) + z
  {
  }

  lemma {:induction false} MainFreeAppend(a: seq<Command>, b: seq<Command>)
    ensures MainFree(a + b) <==> MainFree(a) && MainFree(b)
    decreases |a|
  {
    if |a| == 0 {
      assert a + b == b;
    } else {
      assert (a + b)[0] == a[0] && (a + b)[1..] == a[1..] + b;
      MainFreeAppend(a[1..], b);
    }
  }

  /** Running a non-empty list is one step followed by the rest. */
  lemma ExecUnfold(sh: ShaderPair, r: Textures.Registry, cmds: seq<Command>)
    requires Textures.Valid(r) && |cmds| > 0
    requires sh.main.Program? || MainFree(cmds)
    ensures var sh1 := Step(sh, r, cmds[0]);
            var rest := Exec(sh1, r, cmds[1..]);
            Exec(sh, r, cmds)
              == Run(rest.shaders, (if cmds[0].DrawMesh? then [Drawn(cmds[0].mesh, sh.main, sh.depth)] else []) + rest.trace)
  {
  }

  /** Running a single command. */
  lemma ExecOne(sh: ShaderPair, r: Textures.Registry, c: Command)
    requires Textures.Valid(r) && (NeedsMain(c) ==> sh.main.Program?)
    ensures sh.main.Program? || MainFree([c])
    ensures Exec(sh, r, [c]) == Run(Step(sh, r, c), if c.DrawMesh? then [Drawn(c.mesh, sh.main, sh.depth)] else [])
  {
    assert [c][1..] == [];
  }

  /** Running a list and then one more command. */
  lemma ExecSnoc(sh: ShaderPair, r: Textures.Registry, a: seq<Command>, c: Command)
    requires Textures.Valid(r) && sh.main.Program?
    ensures var ra := Exec(sh, r, a);
            && ra.shaders.main.Program?
            && Exec(sh, r, a + [c]) == Run(Step(ra.shaders, r, c),
                 ra.trace + if c.DrawMesh? then [Drawn(c.mesh, ra.shaders.main, ra.shaders.depth)] else [])
  {
    ExecAppend(sh, r, a, [c]);
    ExecOne(Exec(sh, r, a).shaders, r, c);
  }

  /** A command that neither moves the model nor draws. */
  predicate IsSetup(c: Command)
  {
    !(c.SetModel? || c.SetModelBoth? || c.DrawMesh?)
  }

  predicate AllSetup(cmds: seq<Command>)
  {
    forall i :: 0 <= i < |cmds| ==> IsSetup(cmds[i])
  }

  /** Setup commands never draw and never touch the model matrix. */
  lemma {:induction false} SetupKeepsModel(cmds: seq<Command>)
    requires AllSetup(cmds)
    ensures DrawCount(cmds) == 0
    ensures ModelName !in MainWrites(cmds) && DepthWrites(cmds) == {}
    decreases |cmds|
  {
    if |cmds| > 0 {
      SetupKeepsModel(cmds[1..]);
    }
  }

  /** One object of the lit pass: setup calls, the model matrix, more
      setup calls, then the draw. */
  datatype Piece = Piece(before: seq<Command>, model: Transform, after: seq<Command>, mesh: MeshKind)

  predicate WellFormed(p: Piece)
  {
    AllSetup(p.before) && AllSetup(p.after)
  }

  function PieceCommands(p: Piece): seq<Command>
  {
    p.before + [SetModel(p.model)] + p.after + [DrawMesh(p.mesh)]
  }

  function LitCommands(ps: seq<Piece>): seq<Command>
  {
    if |ps| == 0 then [] else PieceCommands(ps[0]) + LitCommands(ps[1..])
  }

  /** A drawn object: mesh kind and model-matrix arguments. */
  datatype DrawItem = DrawItem(mesh: MeshKind, transform: Transform)

  /** The geometry a list of lit pieces draws. */
  function DrawnGeometry(ps: seq<Piece>): (g: seq<DrawItem>)
    ensures |g| == |ps|
    ensures forall k :: 0 <= k < |ps| ==> g[k] == DrawItem(ps[k].mesh, ps[k].model)
  {
    seq(|ps|, k requires 0 <= k < |ps| => DrawItem(ps[k].mesh, ps[k].model))
  }

  /** The depth pass: the model matrix to both programs, then the draw. */
  function DepthCommands(ds: seq<DrawItem>): seq<Command>
  {
    if |ds| == 0 then [] else [SetModelBoth(ds[0].transform), DrawMesh(ds[0].mesh)] + DepthCommands(ds[1..])
  }

  lemma ExecDraw(sh: ShaderPair, r: Textures.Registry, m: MeshKind)
    requires Textures.Valid(r)
    ensures MainFree([DrawMesh(m)])
    ensures Exec(sh, r, [DrawMesh(m)]) == Run(sh, [Drawn(m, sh.main, sh.depth)])
  {
    assert [DrawMesh(m)][1..] == [];
  }

  lemma {:induction false} MainWritesAppend(a: seq<Command>, b: seq<Command>)
    ensures MainWrites(a + b) == MainWrites(a) + MainWrites(b)
    decreases |a|
  {
    if |a| == 0 {
      assert a + b == b;
    } else {
      assert (a + b)[0] == a[0] && (a + b)[1..] == a[1..] + b;
      MainWritesAppend(a[1..], b);
    }
  }

  lemma OutsideUnion<T>(x: T, a: set<T>, y: T, b: set<T>)
    requires x !in a && x != y && x !in b
    ensures x !in a + {y} + b
  {
  }

  /** A piece writes what its setup calls write, plus the model matrix. */
  lemma PieceWrites(p: Piece)
    ensures MainWrites(PieceCommands(p)) == MainWrites(p.before) + {ModelName} + MainWrites(p.after)
  {
    var set1 := [SetModel(p.model)];
    var draw := [DrawMesh(p.mesh)];
    MainWritesAppend(p.before, set1);
    MainWritesAppend(p.before + set1, p.after);
    MainWritesAppend(p.before + set1 + p.after, draw);
    MainWritesOne(SetModel(p.model));
    MainWritesOne(DrawMesh(p.mesh));
  }

  lemma MainWritesOne(c: Command)
    ensures MainWrites([c]) == MainNames(c)
  {
    assert [c][1..] == [];
  }

  /** One lit piece draws its mesh once, with its own model matrix, and
      the draw is its last command. */
  lemma PieceRun(sh: ShaderPair, r: Textures.Registry, p: Piece)
    requires Textures.Valid(r) && sh.main.Program? && WellFormed(p)
    ensures var run := Exec(sh, r, PieceCommands(p));
            && |run.trace| == 1
            && run.trace[0] == Drawn(p.mesh, run.shaders.main, run.shaders.depth)
            && Holds(run.trace[0].main, ModelName, MatValue(ModelMatrix(p.model)))
  {
    var set1 := [SetModel(p.model)];
    var draw := [DrawMesh(p.mesh)];
    SetupKeepsModel(p.before);
    SetupKeepsModel(p.after);
    ExecAppend(sh, r, p.before, set1);
    var s1 := Exec(sh, r, p.before + set1).shaders;
    assert Holds(s1.main, ModelName, MatValue(ModelMatrix(p.model))) by {
      var s0 := Exec(sh, r, p.before).shaders;
      assert set1[1..] == [];
      assert s1 == Step(s0, r, SetModel(p.model));
    }
    ExecAppend(sh, r, p.before + set1, p.after);
    var s2 := Exec(s1, r, p.after).shaders;
    WritesOnlyKeeps(s1.main, s2.main, MainWrites(p.after), ModelName, MatValue(ModelMatrix(p.model)));
    ExecAppend(sh, r, p.before + set1 + p.after, draw);
    ExecDraw(s2, r, p.mesh);
    assert PieceCommands(p) == p.before + set1 + p.after + draw;
  }

  /** A name no single command writes is not written by the list. */
  lemma {:induction false} NotWritten(cmds: seq<Command>, name: string)
    requires forall i :: 0 <= i < |cmds| ==> name !in MainNames(cmds[i])
    ensures name !in MainWrites(cmds)
    decreases |cmds|
  {
    if |cmds| > 0 {
      NotWritten(cmds[1..], name);
    }
  }

  /** A uniform none of a piece's setup calls write reaches its draw
      unchanged. */
  lemma PieceKeeps(sh: ShaderPair, r: Textures.Registry, p: Piece, name: string, value: UniformValue)
    requires Textures.Valid(r) && sh.main.Program? && WellFormed(p)
    requires name != ModelName && name !in MainWrites(p.before) && name !in MainWrites(p.after)
    requires Holds(sh.main, name, value)
    ensures var run := Exec(sh, r, PieceCommands(p));
            && |run.trace| == 1
            && Holds(run.trace[0].main, name, value)
  {
    PieceRun(sh, r, p);
    PieceWrites(p);
    OutsideUnion(name, MainWrites(p.before), ModelName, MainWrites(p.after));
    var run := Exec(sh, r, PieceCommands(p));
    ExecTraceFrame(sh, r, PieceCommands(p));
    WritesOnlyKeeps(sh.main, run.trace[0].main, MainWrites(PieceCommands(p)), name, value);
  }

  /** A draw shows the piece's mesh with the piece's model matrix. */
  predicate DrawsPiece(d: Drawn, p: Piece)
  {
    d.mesh == p.mesh && Holds(d.main, ModelName, MatValue(ModelMatrix(p.model)))
  }

  /** The k-th draw shows the k-th piece, and there is one draw per piece. */
  predicate DrawsPieces(trace: seq<Drawn>, ps: seq<Piece>)
  {
    |trace| == |ps| && forall k :: 0 <= k < |ps| ==> DrawsPiece(trace[k], ps[k])
  }

  lemma DrawsPiecesCons(d: Drawn, trace: seq<Drawn>, p: Piece, ps: seq<Piece>)
    requires DrawsPiece(d, p) && DrawsPieces(trace, ps)
    ensures DrawsPieces([d] + trace, [p] + ps)
  {
    forall k | 0 <= k < |ps| + 1
      ensures DrawsPiece(([d] + trace)[k], ([p] + ps)[k])
    {
      if k > 0 {
        assert ([d] + trace)[k] == trace[k - 1] && ([p] + ps)[k] == ps[k - 1];
      }
    }
  }

  /** The lit pass draws its pieces in order, each with its own model
      matrix on the main program. */
  lemma {:induction false} LitPassRun(sh: ShaderPair, r: Textures.Registry, ps: seq<Piece>)
    requires Textures.Valid(r) && sh.main.Program?
    requires forall i :: 0 <= i < |ps| ==> WellFormed(ps[i])
    ensures DrawsPieces(Exec(sh, r, LitCommands(ps)).trace, ps)
    decreases |ps|
  {
    if |ps| > 0 {
      var head := PieceCommands(ps[0]);
      ExecAppend(sh, r, head, LitCommands(ps[1..]));
      PieceRun(sh, r, ps[0]);
      var rh := Exec(sh, r, head);
      var sh1 := rh.shaders;
      LitPassRun(sh1, r, ps[1..]);
      var rest := Exec(sh1, r, LitCommands(ps[1..]));
      var run := Exec(sh, r, LitCommands(ps));
      assert rh.trace == [rh.trace[0]];
      assert run.trace == [rh.trace[0]] + rest.trace;
      DrawsPiecesCons(rh.trace[0], rest.trace, ps[0], ps[1..]);
      assert [ps[0]] + ps[1..] == ps;
    }
  }

  /** The depth pass draws its items in order; each draw sees the item's
      model matrix on every program that exists. */
  lemma {:induction false} DepthPassRun(sh: ShaderPair, r: Textures.Registry, ds: seq<DrawItem>)
    requires Textures.Valid(r)
    ensures MainFree(DepthCommands(ds))
    ensures var run := Exec(sh, r, DepthCommands(ds));
            && |run.trace| == |ds|
            && forall k :: 0 <= k < |ds| ==>
                 && run.trace[k].mesh == ds[k].mesh
                 && (sh.main.Program? ==> Holds(run.trace[k].main, ModelName, MatValue(ModelMatrix(ds[k].transform))))
                 && (sh.depth.Program? ==> Holds(run.trace[k].depth, ModelName, MatValue(ModelMatrix(ds[k].transform))))
    decreases |ds|
  {
    if |ds| > 0 {
      var head := [SetModelBoth(ds[0].transform), DrawMesh(ds[0].mesh)];
      assert MainFree(head) by {
        assert head[1..] == [DrawMesh(ds[0].mesh)] && head[1..][1..] == [];
      }
      var sh1 := Exec(sh, r, head).shaders;
      DepthPassRun(sh1, r, ds[1..]);
      ExecAppend(sh, r, head, DepthCommands(ds[1..]));
    }
  }

  const LightSpaceName: string := "lightSpaceMatrix"
  const ShadowMapName: string := "shadowMap"
  /** The texture unit the lit pass binds the shadow map to. */
  const ShadowMapUnit := 15

  /** The uniforms a pass sets once are not touched by any setter. */
  lemma PassUniformsAreNotSetters()
    ensures LightSpaceName !in SetterNames && ShadowMapName !in SetterNames
  {
    assert |LightSpaceName| == 16 && |ShadowMapName| == 9;
  }

  /** The shadow pass: the light-space matrix on the depth program, then
      every caster drawn with its model matrix on both programs. */
  function DepthPass(sh: ShaderPair, r: Textures.Registry, lightSpace: Mat4, ds: seq<DrawItem>): (run: Run)
    requires Textures.Valid(r) && sh.depth.Program?
    ensures |run.trace| == |ds|
    ensures forall k :: 0 <= k < |run.trace| ==>
              && run.trace[k].mesh == ds[k].mesh
              && Holds(run.trace[k].depth, ModelName, MatValue(ModelMatrix(ds[k].transform)))
              && Holds(run.trace[k].depth, LightSpaceName, MatValue(lightSpace))
              && (sh.main.Program? ==> Holds(run.trace[k].main, ModelName, MatValue(ModelMatrix(ds[k].transform))))
  {
    var sh1 := ShaderPair(sh.main, Program(sh.depth.uniforms[LightSpaceName := MatValue(lightSpace)]));
    var cmds := DepthCommands(ds);
    DepthPassRun(sh1, r, ds);
    ExecTraceFrame(sh1, r, cmds);
    WritesWithinSetters(cmds);
    var run := Exec(sh1, r, cmds);
    assert forall k :: 0 <= k < |run.trace| ==> Holds(run.trace[k].depth, LightSpaceName, MatValue(lightSpace)) by {
      forall k | 0 <= k < |run.trace|
        ensures Holds(run.trace[k].depth, LightSpaceName, MatValue(lightSpace))
      {
        WritesOnlyKeeps(sh1.depth, run.trace[k].depth, DepthWrites(cmds), LightSpaceName, MatValue(lightSpace));
      }
    }
    run
  }

  /** The lit pass: the light-space matrix and the shadow-map sampler on
      the main program, then the pieces in order. */
  function LitPass(sh: ShaderPair, r: Textures.Registry, lightSpace: Mat4, ps: seq<Piece>): (run: Run)
    requires Textures.Valid(r) && sh.main.Program?
    requires forall i :: 0 <= i < |ps| ==> WellFormed(ps[i])
    ensures |run.trace| == |ps|
    ensures forall k :: 0 <= k < |run.trace| ==>
              && run.trace[k].mesh == ps[k].mesh
              && Holds(run.trace[k].main, ModelName, MatValue(ModelMatrix(ps[k].model)))
              && Holds(run.trace[k].main, LightSpaceName, MatValue(lightSpace))
              && Holds(run.trace[k].main, ShadowMapName, SamplerValue(ShadowMapUnit))
  {
    var sh1 := ShaderPair(Program(sh.main.uniforms[LightSpaceName := MatValue(lightSpace)]
                                                  [ShadowMapName := SamplerValue(ShadowMapUnit)]), sh.depth);
    assert Holds(sh1.main, LightSpaceName, MatValue(lightSpace));
    assert Holds(sh1.main, ShadowMapName, SamplerValue(ShadowMapUnit));
    var cmds := LitCommands(ps);
    LitPassRun(sh1, r, ps);
    ExecTraceFrame(sh1, r, cmds);
    WritesWithinSetters(cmds);
    PassUniformsAreNotSetters();
    var run := Exec(sh1, r, cmds);
    assert forall k :: 0 <= k < |run.trace| ==>
             && Holds(run.trace[k].main, LightSpaceName, MatValue(lightSpace))
             && Holds(run.trace[k].main, ShadowMapName, SamplerValue(ShadowMapUnit)) by {
      forall k | 0 <= k < |run.trace|
        ensures Holds(run.trace[k].main, LightSpaceName, MatValue(lightSpace))
        ensures Holds(run.trace[k].main, ShadowMapName, SamplerValue(ShadowMapUnit))
      {
        WritesOnlyKeeps(sh1.main, run.trace[k].main, MainWrites(cmds), LightSpaceName, MatValue(lightSpace));
        WritesOnlyKeeps(sh1.main, run.trace[k].main, MainWrites(cmds), ShadowMapName, SamplerValue(ShadowMapUnit));
      }
    }
    run
  }

  /** No command of the list switches lighting off. */
  predicate NeverUnlit(cmds: seq<Command>)
  {
    forall i :: 0 <= i < |cmds| ==> cmds[i] != SetLighting(false)
  }

  /** The lighting switch is written only by the lighting command. */
  lemma LightingNameDistinct()
    ensures UseLightingName !in MaterialNames
    ensures UseLightingName !in {UseTextureName, TextureValueName, ColorValueName, UVScaleName, ModelName}
  {
    assert |UseLightingName| == 12;
  }

  /** Once lighting is on, a list that never switches it off draws
      everything lit and ends lit. */
  lemma {:induction false} ExecStaysLit(sh: ShaderPair, r: Textures.Registry, cmds: seq<Command>)
    requires Textures.Valid(r) && sh.main.Program?
    requires Holds(sh.main, UseLightingName, BoolValue(true)) && NeverUnlit(cmds)
    ensures var run := Exec(sh, r, cmds);
            && Holds(run.shaders.main, UseLightingName, BoolValue(true))
            && forall k :: 0 <= k < |run.trace| ==> Holds(run.trace[k].main, UseLightingName, BoolValue(true))
    decreases |cmds|
  {
    if |cmds| > 0 {
      var sh1 := Step(sh, r, cmds[0]);
      if !cmds[0].SetLighting? {
        LightingNameDistinct();
        WritesOnlyKeeps(sh.main, sh1.main, MainNames(cmds[0]), UseLightingName, BoolValue(true));
      }
      ExecStaysLit(sh1, r, cmds[1..]);
    }
  }

  lemma {:induction false} LitCommandsNeverUnlit(ps: seq<Piece>)
    requires forall i :: 0 <= i < |ps| ==> NeverUnlit(ps[i].before) && NeverUnlit(ps[i].after)
    ensures NeverUnlit(LitCommands(ps))
    decreases |ps|
  {
    if |ps| > 0 {
      LitCommandsNeverUnlit(ps[1..]);
      var head := PieceCommands(ps[0]);
      assert NeverUnlit(head);
      assert LitCommands(ps) == head + LitCommands(ps[1..]);
    }
  }

  /** If the first piece switches lighting on as its last setup call and
      no piece switches it off, every draw of the lit pass is lit, even
      for pieces that never set the switch themselves. */
  lemma LitPassAllLit(sh: ShaderPair, r: Textures.Registry, lightSpace: Mat4, ps: seq<Piece>)
    requires Textures.Valid(r) && sh.main.Program?
    requires forall i :: 0 <= i < |ps| ==> WellFormed(ps[i])
    requires forall i :: 0 <= i < |ps| ==> NeverUnlit(ps[i].before) && NeverUnlit(ps[i].after)
    requires |ps| > 0 && |ps[0].before| > 0 && ps[0].before[|ps[0].before| - 1] == SetLighting(true)
    ensures var run := LitPass(sh, r, lightSpace, ps);
            forall k :: 0 <= k < |run.trace| ==> Holds(run.trace[k].main, UseLightingName, BoolValue(true))
  {
    var sh1 := ShaderPair(Program(sh.main.uniforms[LightSpaceName := MatValue(lightSpace)]
                                                  [ShadowMapName := SamplerValue(ShadowMapUnit)]), sh.depth);
    var a := ps[0].before;
    var b := [SetModel(ps[0].model)] + ps[0].after + [DrawMesh(ps[0].mesh)] + LitCommands(ps[1..]);
    assert LitCommands(ps) == a + b;
    LitCommandsNeverUnlit(ps[1..]);
    assert NeverUnlit(b);
    SwitchOnStaysLit(sh1, r, a, b);
  }

  lemma StepLighting(sh: ShaderPair, r: Textures.Registry, on: bool)
    requires Textures.Valid(r) && sh.main.Program?
    ensures Holds(Step(sh, r, SetLighting(on)).main, UseLightingName, BoolValue(on))
  {
  }

  /** A list whose setup part ends by switching lighting on, followed by
      commands that never switch it off, draws everything lit. */
  lemma SwitchOnStaysLit(sh: ShaderPair, r: Textures.Registry, a: seq<Command>, b: seq<Command>)
    requires Textures.Valid(r) && sh.main.Program?
    requires AllSetup(a) && |a| > 0 && a[|a| - 1] == SetLighting(true) && NeverUnlit(b)
    ensures forall k :: 0 <= k < |Exec(sh, r, a + b).trace| ==>
              Holds(Exec(sh, r, a + b).trace[k].main, UseLightingName, BoolValue(true))
  {
    var init := a[..|a| - 1];
    assert a == init + [SetLighting(true)];
    ExecSnoc(sh, r, init, SetLighting(true));
    SetupKeepsModel(a);
    ExecAppend(sh, r, a, b);
    var ri := Exec(sh, r, init);
    StepLighting(ri.shaders, r, true);
    var ra := Exec(sh, r, a);
    assert ra.shaders == Step(ri.shaders, r, SetLighting(true));
    ExecStaysLit(ra.shaders, r, b);
    assert ra.trace == [];
  }
}
