/** The desk scene: the placement constants, the draw lists of the depth
    pass and of the lit pass, and the two render entry points.

    Both passes draw the same eleven placed parts plus a 5 x 12 grid of
    keyboard keys, but in different orders: the depth pass renders the
    lamp before the laptop, the lit pass after it. */
module Scene {
  import opened Geometry
  import opened UniformProtocol
  import opened Render
  import Textures
  import Materials

  // Part placements: scale, rotation in degrees about x, y, z, position.
  function Place(scale: Vec3, rotation: Vec3, position: Vec3): Transform
  {
    Transform(scale, rotation.x, rotation.y, rotation.z, position)
  }

  const NoRotation := Vec3(0.0, 0.0, 0.0)

  const Desk := Place(Vec3(38.0, 0.475, 23.75), NoRotation, Vec3(0.0, -0.5, -5.0))
  const MugBody := Place(Vec3(0.575, 1.725, 0.575), Vec3(15.0, 20.0, 0.0), Vec3(5.0, 0.75, -2.0))
  const MugHandle := Place(Vec3(0.36225, 0.36225, 0.36225), Vec3(0.0, 0.0, 90.0), Vec3(5.5, 1.5, -2.0))
  const LaptopBase := Place(Vec3(6.6, 0.11, 4.4), NoRotation, Vec3(0.0, 0.88, -0.55))
  const LaptopScreen := Place(Vec3(6.6, 3.3, 0.11), Vec3(-45.0, 0.0, 0.0), Vec3(0.0, 1.76, -2.2))
  const DisplayPanel := Place(Vec3(6.05, 3.08, 0.055), Vec3(-45.0, 0.0, 0.0), Vec3(0.0, 1.76, -2.145))
  const LampBase := Place(Vec3(1.0, 0.4, 1.0), NoRotation, Vec3(-6.0, 0.2, 2.0))
  const LampShade := Place(Vec3(1.4, 1.2, 1.4), NoRotation, Vec3(-6.0, 2.5, 2.0))
  const LampStem := Place(Vec3(0.12, 2.8, 0.12), NoRotation, Vec3(-6.0, 0.5, 2.0))
  const Floor := Place(Vec3(62.4, 0.13, 32.5), NoRotation, Vec3(0.0, -5.0, -5.0))

  const FloorY := -5.0
  const FloorHeight := 0.13
  const WallScale := Vec3(62.4, 26.0, 0.65)
  const WallOffset := Vec3(0.0, 0.0, -21.25)

  /** The wall as the depth pass places it: resting on the floor's top face. */
  const DepthWall := Place(WallScale, NoRotation, Vec3(WallOffset.x, FloorY + FloorHeight / 2.0 + WallScale.y / 2.0, WallOffset.z))

  // The lit pass spells the wall out with its own local numbers.
  const LitWallWidth := 62.4
  const LitWallHeight := 26.0
  const LitWallThickness := 0.65
  const LitWallDepth := -21.25

  const LitWall := Place(Vec3(LitWallWidth, LitWallHeight, LitWallThickness), NoRotation,
                         Vec3(0.0, FloorY + FloorHeight / 2.0 + LitWallHeight / 2.0, LitWallDepth))

  // The keyboard grid.
  const KeyWidth := 0.385
  const KeyHeight := 0.11
  const KeyDepth := 0.33
  const KeyRows := 5
  const KeyCols := 12
  const KeySpacing := 0.055
  const KeyStartX := -2.31
  const KeyY := 0.902
  const KeyStartZ := -1.1
  const KeyColor := Vec4(0.15, 0.15, 0.15, 1.0)

  /** The key in row `row`, column `col`: a fixed-size box at the grid
      position `(start + index * (size + spacing))` in x and z. */
  function KeyTransform(row: int, col: int): (t: Transform)
    ensures t.scale == Vec3(KeyWidth, KeyHeight, KeyDepth) && t.rx == 0.0 && t.ry == 0.0 && t.rz == 0.0
    ensures t.position.y == KeyY
  {
    Place(Vec3(KeyWidth, KeyHeight, KeyDepth), NoRotation,
          Vec3(KeyStartX + col as real * (KeyWidth + KeySpacing), KeyY,
               KeyStartZ + row as real * (KeyDepth + KeySpacing)))
  }

  const KeyCount := KeyRows * KeyCols

  /** The keys in loop order: row by row, columns left to right. */
  function KeyItems(): (ks: seq<DrawItem>)
    ensures |ks| == KeyCount
  {
    seq(KeyCount, i requires 0 <= i < KeyCount => DrawItem(Box, KeyTransform(i / KeyCols, i % KeyCols)))
  }

  /** The depth pass order: desk, mug, lamp, laptop, keys, floor, wall. */
  function DepthPassDraws(): seq<DrawItem>
  {
    [DrawItem(Box, Desk), DrawItem(Cylinder, MugBody), DrawItem(Torus, MugHandle),
     DrawItem(Cylinder, LampBase), DrawItem(Cylinder, LampStem), DrawItem(Cone, LampShade),
     DrawItem(Box, LaptopBase), DrawItem(Box, LaptopScreen), DrawItem(Box, DisplayPanel)]
    + KeyItems()
    + [DrawItem(Box, Floor), DrawItem(Box, DepthWall)]
  }

  // Texture tags used only by the lit pass.
  const ScreenTag: string := "screenTex"
  const HandleTag: string := "handleTex"

  const DefaultUV := Vec2(1.0, 1.0)
  const LaptopUV := Vec2(2.0, 2.0)
  const WallUV := Vec2(2.0, 2.0)
  const FloorUV := Vec2(4.0, 4.0)

  const LaptopColor := Vec4(Materials.MetalAmbient.x, Materials.MetalAmbient.y, Materials.MetalAmbient.z, 1.0)

  // The lit pass, one piece per draw call of the Draw* routines.
  const DeskPiece := Piece([SetTexture(Materials.DeskTag), SetUVScale(DefaultUV), SetMaterial(Materials.DeskTag), SetLighting(true)], Desk, [], Box)
  const MugBodyPiece := Piece([SetTexture(Materials.MugTag), SetUVScale(DefaultUV), SetMaterial(Materials.MugTag), SetLighting(true)], MugBody, [], Cylinder)
  const MugHandlePiece := Piece([SetTexture(HandleTag), SetUVScale(DefaultUV), SetMaterial(Materials.MugTag)], MugHandle, [], Torus)
  const LaptopBasePiece := Piece([SetColor(LaptopColor), SetTexture(Materials.LaptopTag), SetUVScale(LaptopUV), SetMaterial(Materials.LaptopTag), SetLighting(true)], LaptopBase, [], Box)
  const LaptopScreenPiece := Piece([SetTexture(Materials.LaptopTag), SetMaterial(Materials.LaptopTag)], LaptopScreen, [], Box)
  const DisplayPanelPiece := Piece([SetTexture(ScreenTag), SetUVScale(DefaultUV), SetMaterial(Materials.LaptopTag)], DisplayPanel, [], Box)
  const LampBasePiece := Piece([SetTexture(Materials.LampBaseTag), SetUVScale(DefaultUV), SetMaterial(Materials.LampBaseTag), SetLighting(true)], LampBase, [], Cylinder)
  const LampStemPiece := Piece([], LampStem, [], Cylinder)
  const LampShadePiece := Piece([SetTexture(Materials.LampShadeTag), SetUVScale(DefaultUV), SetMaterial(Materials.LampShadeTag)], LampShade, [], Cone)
  const FloorPiece := Piece([SetTexture(Materials.FloorTag), SetUVScale(FloorUV), SetLighting(true)], Floor, [SetMaterial(Materials.FloorTag)], Box)
  const WallPiece := Piece([SetTexture(Materials.WallTag), SetUVScale(WallUV), SetMaterial(Materials.WallTag), SetLighting(true)], LitWall, [], Box)

  /** A key: the model matrix first, then the solid colour and lighting. */
  function KeyPiece(i: int): Piece
  {
    Piece([], KeyTransform(i / KeyCols, i % KeyCols), [SetColor(KeyColor), SetLighting(true)], Box)
  }

  function KeyPieces(): (ps: seq<Piece>)
    ensures |ps| == KeyCount
  {
    seq(KeyCount, i requires 0 <= i < KeyCount => KeyPiece(i))
  }

  /** The lit pass order: desk, mug, laptop, keys, lamp, floor, wall. */
  function LitPieces(): seq<Piece>
  {
    [DeskPiece, MugBodyPiece, MugHandlePiece, LaptopBasePiece, LaptopScreenPiece, DisplayPanelPiece]
    + KeyPieces()
    + [LampBasePiece, LampStemPiece, LampShadePiece, FloorPiece, WallPiece]
  }

  /** Both passes put the wall in the same place, resting on the floor's
      top face: its centre is half its height above that face. */
  lemma WallSameInBothPasses()
    ensures LitWall == DepthWall
    ensures DepthWall.position.y - DepthWall.scale.y / 2.0 == Floor.position.y + Floor.scale.y / 2.0
  {
  }

  /** Key `(row, col)` is centred at the grid position for that row and
      column, and different grid cells hold different keys. */
  lemma KeyGridPositions(row: int, col: int, row': int, col': int)
    requires 0 <= row < KeyRows && 0 <= col < KeyCols && 0 <= row' < KeyRows && 0 <= col' < KeyCols
    ensures KeyTransform(row, col).position
              == Vec3(-2.31 + 0.44 * col as real, 0.902, -1.1 + 0.385 * row as real)
    ensures KeyTransform(row, col) == KeyTransform(row', col') <==> row == row' && col == col'
  {
  }

  /** Every key lies within the laptop base's footprint. */
  lemma KeysOnLaptopBase(row: int, col: int)
    requires 0 <= row < KeyRows && 0 <= col < KeyCols
    ensures var k := KeyTransform(row, col);
            && LaptopBase.position.x - LaptopBase.scale.x / 2.0 <= k.position.x - KeyWidth / 2.0
            && k.position.x + KeyWidth / 2.0 <= LaptopBase.position.x + LaptopBase.scale.x / 2.0
            && LaptopBase.position.z - LaptopBase.scale.z / 2.0 <= k.position.z - KeyDepth / 2.0
            && k.position.z + KeyDepth / 2.0 <= LaptopBase.position.z + LaptopBase.scale.z / 2.0
  {
  }

  lemma {:induction false} DrawnGeometryAppend(a: seq<Piece>, b: seq<Piece>)
    ensures DrawnGeometry(a + b) == DrawnGeometry(a) + DrawnGeometry(b)
  {
    assert forall k :: 0 <= k < |a + b| ==> DrawnGeometry(a + b)[k] == (DrawnGeometry(a) + DrawnGeometry(b))[k];
  }

  /** The lit pass, read as geometry, in its own order. */
  lemma LitGeometry()
    ensures DrawnGeometry(LitPieces()) ==
              [DrawItem(Box, Desk), DrawItem(Cylinder, MugBody), DrawItem(Torus, MugHandle),
               DrawItem(Box, LaptopBase), DrawItem(Box, LaptopScreen), DrawItem(Box, DisplayPanel)]
              + KeyItems()
              + [DrawItem(Cylinder, LampBase), DrawItem(Cylinder, LampStem), DrawItem(Cone, LampShade),
                 DrawItem(Box, Floor), DrawItem(Box, DepthWall)]
  {
    var front := [DeskPiece, MugBodyPiece, MugHandlePiece, LaptopBasePiece, LaptopScreenPiece, DisplayPanelPiece];
    var back := [LampBasePiece, LampStemPiece, LampShadePiece, FloorPiece, WallPiece];
    DrawnGeometryAppend(front + KeyPieces(), back);
    DrawnGeometryAppend(front, KeyPieces());
    assert DrawnGeometry(KeyPieces()) == KeyItems();
    WallSameInBothPasses();
  }

  /** Moving a block earlier in a draw list keeps the same draws. */
  lemma SameItemsMoved(a: seq<DrawItem>, b: seq<DrawItem>, c: seq<DrawItem>, d: seq<DrawItem>, e: seq<DrawItem>)
    ensures multiset(a + b + c + d + e) == multiset(a + d + b + c + e)
  {
    calc {
      multiset(a + b + c + d + e);
      multiset(a) + multiset(b) + multiset(c) + multiset(d) + multiset(e);
      multiset(a) + multiset(d) + multiset(b) + multiset(c) + multiset(e);
      multiset(a + d + b + c + e);
    }
  }

  /** The two passes draw the same multiset of placed meshes, all 60 keys
      included. */
  lemma PassesDrawSameGeometry()
    ensures |DrawnGeometry(LitPieces())| == |DepthPassDraws()| == 11 + KeyCount
    ensures multiset(DrawnGeometry(LitPieces())) == multiset(DepthPassDraws())
  {
    LitGeometry();
    var mugAndDesk := [DrawItem(Box, Desk), DrawItem(Cylinder, MugBody), DrawItem(Torus, MugHandle)];
    var laptop := [DrawItem(Box, LaptopBase), DrawItem(Box, LaptopScreen), DrawItem(Box, DisplayPanel)];
    var lamp := [DrawItem(Cylinder, LampBase), DrawItem(Cylinder, LampStem), DrawItem(Cone, LampShade)];
    var room := [DrawItem(Box, Floor), DrawItem(Box, DepthWall)];
    var keys := KeyItems();
    var lit := DrawnGeometry(LitPieces());
    var depth := DepthPassDraws();
    assert lit == mugAndDesk + laptop + keys + lamp + room;
    assert depth == mugAndDesk + lamp + laptop + keys + room;
    SameItemsMoved(mugAndDesk, laptop, keys, lamp, room);
  }

  /** The fourth draw already differs: the laptop base in the lit pass,
      the lamp base in the depth pass. */
  lemma PassOrdersDiffer()
    ensures DrawnGeometry(LitPieces())[3] == DrawItem(Box, LaptopBase)
    ensures DepthPassDraws()[3] == DrawItem(Cylinder, LampBase)
    ensures DrawnGeometry(LitPieces()) != DepthPassDraws()
  {
    assert LitPieces()[3] == LaptopBasePiece;
    assert DrawnGeometry(LitPieces())[3].mesh == Box;
  }

  /** The shadow pass of the scene. */
  function RenderDepthPass(sh: ShaderPair, r: Textures.Registry, lightSpace: Mat4): (run: Run)
    requires Textures.Valid(r) && sh.depth.Program?
    ensures |run.trace| == |DepthPassDraws()|
    ensures forall k :: 0 <= k < |run.trace| ==>
              && run.trace[k].mesh == DepthPassDraws()[k].mesh
              && Holds(run.trace[k].depth, ModelName, MatValue(ModelMatrix(DepthPassDraws()[k].transform)))
              && Holds(run.trace[k].depth, LightSpaceName, MatValue(lightSpace))
              && (sh.main.Program? ==> Holds(run.trace[k].main, ModelName, MatValue(ModelMatrix(DepthPassDraws()[k].transform))))
  {
    DepthPass(sh, r, lightSpace, DepthPassDraws())
  }

  /** The lit pass of the scene. */
  function RenderScene(sh: ShaderPair, r: Textures.Registry, lightSpace: Mat4): (run: Run)
    requires Textures.Valid(r) && sh.main.Program?
    ensures |run.trace| == |LitPieces()|
    ensures forall k :: 0 <= k < |run.trace| ==>
              && run.trace[k].mesh == LitPieces()[k].mesh
              && Holds(run.trace[k].main, ModelName, MatValue(ModelMatrix(LitPieces()[k].model)))
              && Holds(run.trace[k].main, LightSpaceName, MatValue(lightSpace))
              && Holds(run.trace[k].main, ShadowMapName, SamplerValue(ShadowMapUnit))
  {
    LitPiecesWellFormed();
    LitPass(sh, r, lightSpace, LitPieces())
  }

  lemma LitPiecesWellFormed()
    ensures forall i :: 0 <= i < |LitPieces()| ==> WellFormed(LitPieces()[i])
  {
    assert forall i :: 0 <= i < |KeyPieces()| ==> WellFormed(KeyPieces()[i]);
  }

  /** Each key is drawn untextured in the key colour with lighting on,
      whatever the previous draw left behind. */
  lemma KeyDrawnInSolidColor(sh: ShaderPair, r: Textures.Registry, i: int)
    requires Textures.Valid(r) && sh.main.Program?
    ensures var run := Exec(sh, r, PieceCommands(KeyPiece(i)));
            && |run.trace| == 1
            && Holds(run.trace[0].main, UseTextureName, BoolValue(false))
            && Holds(run.trace[0].main, ColorValueName, Vec4Value(KeyColor))
            && Holds(run.trace[0].main, UseLightingName, BoolValue(true))
  {
    var p := KeyPiece(i);
    var c0 := [SetModel(p.model)];
    var c1 := c0 + [SetColor(KeyColor)];
    var c2 := c1 + [SetLighting(true)];
    assert PieceCommands(p) == c2 + [DrawMesh(Box)];
    ExecOne(sh, r, SetModel(p.model));
    ExecSnoc(sh, r, c0, SetColor(KeyColor));
    ExecSnoc(sh, r, c1, SetLighting(true));
    ExecSnoc(sh, r, c2, DrawMesh(Box));
    var s1 := Exec(sh, r, c1).shaders;
    var s2 := Exec(sh, r, c2).shaders;
    WritesOnlyKeeps(s1.main, s2.main, {UseLightingName}, UseTextureName, BoolValue(false));
    WritesOnlyKeeps(s1.main, s2.main, {UseLightingName}, ColorValueName, Vec4Value(KeyColor));
  }

  /** A piece that sets a solid colour and then a texture, and touches
      neither switch afterwards, is drawn textured with the colour kept. */
  lemma TextureAfterColor(sh: ShaderPair, r: Textures.Registry, color: Vec4, tag: string, tail: Piece)
    requires Textures.Valid(r) && sh.main.Program? && WellFormed(tail)
    requires UseTextureName !in MainWrites(tail.before) && UseTextureName !in MainWrites(tail.after)
    requires ColorValueName !in MainWrites(tail.before) && ColorValueName !in MainWrites(tail.after)
    ensures var p := Piece([SetColor(color), SetTexture(tag)] + tail.before, tail.model, tail.after, tail.mesh);
            var run := Exec(sh, r, PieceCommands(p));
            && |run.trace| == 1
            && Holds(run.trace[0].main, UseTextureName, BoolValue(true))
            && Holds(run.trace[0].main, ColorValueName, Vec4Value(color))
  {
    var first := [SetColor(color), SetTexture(tag)];
    var p := Piece(first + tail.before, tail.model, tail.after, tail.mesh);
    assert PieceCommands(p) == first + PieceCommands(tail);
    ExecOne(sh, r, SetColor(color));
    ExecSnoc(sh, r, [SetColor(color)], SetTexture(tag));
    assert [SetColor(color)] + [SetTexture(tag)] == first;
    var s0 := Exec(sh, r, [SetColor(color)]).shaders;
    var s1 := Exec(sh, r, first).shaders;
    SetterNamesDistinct();
    WritesOnlyKeeps(s0.main, s1.main, {UseTextureName, TextureValueName}, ColorValueName, Vec4Value(color));
    ExecAppend(sh, r, first, PieceCommands(tail));
    PieceKeeps(s1, r, tail, UseTextureName, BoolValue(true));
    PieceKeeps(s1, r, tail, ColorValueName, Vec4Value(color));
  }

  /** The laptop base sets a solid colour and then a texture: the texture
      wins, and the colour stays in the program unused. */
  lemma LaptopBaseDrawnTextured(sh: ShaderPair, r: Textures.Registry)
    requires Textures.Valid(r) && sh.main.Program?
    ensures var run := Exec(sh, r, PieceCommands(LaptopBasePiece));
            && |run.trace| == 1
            && Holds(run.trace[0].main, UseTextureName, BoolValue(true))
            && Holds(run.trace[0].main, ColorValueName, Vec4Value(LaptopColor))
  {
    var tail := Piece([SetUVScale(LaptopUV), SetMaterial(Materials.LaptopTag), SetLighting(true)], LaptopBase, [], Box);
    assert LaptopBasePiece == Piece([SetColor(LaptopColor), SetTexture(Materials.LaptopTag)] + tail.before, tail.model, tail.after, tail.mesh);
    SetterNamesDistinct();
    NotWritten(tail.before, UseTextureName);
    NotWritten(tail.before, ColorValueName);
    NotWritten(tail.after, UseTextureName);
    NotWritten(tail.after, ColorValueName);
    TextureAfterColor(sh, r, LaptopColor, Materials.LaptopTag, tail);
  }

  /** The stem sets nothing of its own: it is drawn with exactly the
      lamp base's texture, tiling, material and lighting. */
  lemma StemDrawnLikeLampBase(sh: ShaderPair, r: Textures.Registry)
    requires Textures.Valid(r) && sh.main.Program?
    ensures var run := Exec(sh, r, PieceCommands(LampBasePiece) + PieceCommands(LampStemPiece));
            && |run.trace| == 2
            && WritesOnly(run.trace[0].main, run.trace[1].main, {ModelName})
  {
    BarePieceInherits(sh, r, LampBasePiece, LampStemPiece);
  }

  /** A piece with no setup calls inherits every setting of the piece
      drawn before it, apart from the model matrix. */
  lemma BarePieceInherits(sh: ShaderPair, r: Textures.Registry, p: Piece, q: Piece)
    requires Textures.Valid(r) && sh.main.Program? && WellFormed(p)
    requires q.before == [] && q.after == []
    ensures var run := Exec(sh, r, PieceCommands(p) + PieceCommands(q));
            && |run.trace| == 2
            && WritesOnly(run.trace[0].main, run.trace[1].main, {ModelName})
  {
    var cp := PieceCommands(p);
    var cq := PieceCommands(q);
    PieceRun(sh, r, p);
    ExecAppend(sh, r, cp, cq);
    var rp := Exec(sh, r, cp);
    var rq := Exec(rp.shaders, r, cq);
    BarePieceWritesModel(q);
    PieceRun(rp.shaders, r, q);
    var run := Exec(sh, r, cp + cq);
    assert run.trace == rp.trace + rq.trace;
    assert run.trace[0] == rp.trace[0] && run.trace[1] == rq.trace[0];
  }

  /** A piece with no setup calls writes only the model matrix. */
  lemma BarePieceWritesModel(q: Piece)
    requires q.before == [] && q.after == []
    ensures MainWrites(PieceCommands(q)) == {ModelName}
  {
    PieceWrites(q);
    assert MainWrites([]) == {};
  }

  /** Every draw of the lit pass has lighting switched on. */
  lemma EveryLitDrawIsLit(sh: ShaderPair, r: Textures.Registry, lightSpace: Mat4)
    requires Textures.Valid(r) && sh.main.Program?
    ensures var run := RenderScene(sh, r, lightSpace);
            forall k :: 0 <= k < |run.trace| ==> Holds(run.trace[k].main, UseLightingName, BoolValue(true))
  {
    LitPiecesWellFormed();
    assert forall i :: 0 <= i < |KeyPieces()| ==> NeverUnlit(KeyPieces()[i].before) && NeverUnlit(KeyPieces()[i].after);
    assert forall i :: 0 <= i < |LitPieces()| ==> NeverUnlit(LitPieces()[i].before) && NeverUnlit(LitPieces()[i].after);
    LitPassAllLit(sh, r, lightSpace, LitPieces());
  }
}
