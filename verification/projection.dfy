/** The scene manager's projection choice: a perspective or an
    orthographic projection picked by a flag and sized by the screen.

    The projection is kept as its parameters; the matrix built from them
    and the shader-side setter are outside the model, so each upload is
    recorded as the parameters handed over. */
module SceneProjection {
  import opened Geometry

  const FieldOfView := 45.0
  const OrthoSize := 20.0
  const NearPlane := 0.1
  const FarPlane := 100.0

  datatype ProjectionState = ProjectionState(
    isPerspective: bool,
    screenWidth: real,
    screenHeight: real,
    projection: Projection,
    hasShader: bool,
    uploads: seq<Projection>)

  /** Recomputes the projection from the flag and the screen size, and
      uploads it when a shader program is attached. */
  function UpdateProjectionMatrix(s: ProjectionState): (s': ProjectionState)
    requires s.screenHeight != 0.0
    ensures s'.isPerspective == s.isPerspective && s'.hasShader == s.hasShader
    ensures s'.screenWidth == s.screenWidth && s'.screenHeight == s.screenHeight
    ensures s.isPerspective ==> s'.projection == Perspective(FieldOfView, s.screenWidth / s.screenHeight, NearPlane, FarPlane)
    ensures !s.isPerspective ==>
              && s'.projection.Ortho?
              && s'.projection.bottom == -OrthoSize && s'.projection.top == OrthoSize
              && s'.projection.right == -s'.projection.left
              && (s'.projection.right - s'.projection.left) / (s'.projection.top - s'.projection.bottom)
                   == s.screenWidth / s.screenHeight
              && s'.projection.near == NearPlane && s'.projection.far == FarPlane
    ensures s'.uploads == s.uploads + (if s.hasShader then [s'.projection] else [])
  {
    var aspect := s.screenWidth / s.screenHeight;
    var p :=
      if s.isPerspective then Perspective(FieldOfView, aspect, NearPlane, FarPlane)
      else Ortho(-OrthoSize * aspect, OrthoSize * aspect, -OrthoSize, OrthoSize, NearPlane, FarPlane);
    s.(projection := p, uploads := s.uploads + if s.hasShader then [p] else [])
  }

  /** Selects the projection kind. The new projection is uploaded twice
      when a shader is attached: once by the recomputation and once more
      by the mode switch itself. */
  function SetProjectionMode(s: ProjectionState, isPerspective: bool): (s': ProjectionState)
    requires s.screenHeight != 0.0
    ensures s'.isPerspective == isPerspective
    ensures s'.screenWidth == s.screenWidth && s'.screenHeight == s.screenHeight && s'.hasShader == s.hasShader
    ensures isPerspective ==>
              s'.projection == Perspective(FieldOfView, s.screenWidth / s.screenHeight, NearPlane, FarPlane)
    ensures !isPerspective ==>
              var aspect := s.screenWidth / s.screenHeight;
              s'.projection == Ortho(-OrthoSize * aspect, OrthoSize * aspect, -OrthoSize, OrthoSize, NearPlane, FarPlane)
    ensures s'.uploads == s.uploads + (if s.hasShader then [s'.projection, s'.projection] else [])
  {
    var s1 := UpdateProjectionMatrix(s.(isPerspective := isPerspective));
    s1.(uploads := s1.uploads + if s1.hasShader then [s1.projection] else [])
  }

  /** Records a new screen size and recomputes the projection, which is
      uploaded once when a shader is attached. */
  function SetScreenDimensions(s: ProjectionState, width: real, height: real): (s': ProjectionState)
    requires height != 0.0
    ensures s'.screenWidth == width && s'.screenHeight == height && s'.isPerspective == s.isPerspective
    ensures s.isPerspective ==> s'.projection == Perspective(FieldOfView, width / height, NearPlane, FarPlane)
    ensures !s.isPerspective ==>
              s'.projection == Ortho(-OrthoSize * (width / height), OrthoSize * (width / height),
                                     -OrthoSize, OrthoSize, NearPlane, FarPlane)
    ensures s'.uploads == s.uploads + (if s.hasShader then [s'.projection] else [])
  {
    UpdateProjectionMatrix(s.(screenWidth := width, screenHeight := height))
  }

  /** After a mode switch the projection depends only on the mode and the
      screen size, not on anything the state held before. */
  lemma ModeDeterminesProjection(s: ProjectionState, t: ProjectionState, isPerspective: bool)
    requires s.screenHeight != 0.0
    requires s.screenWidth == t.screenWidth && s.screenHeight == t.screenHeight
    ensures SetProjectionMode(s, isPerspective).projection == SetProjectionMode(t, isPerspective).projection
  {
  }

  /** Repeating a mode switch changes nothing but the upload log. */
  lemma SetProjectionModeIdempotent(s: ProjectionState, isPerspective: bool)
    requires s.screenHeight != 0.0
    ensures var once := SetProjectionMode(s, isPerspective);
            var twice := SetProjectionMode(once, isPerspective);
            twice.(uploads := once.uploads) == once
  {
  }

  /** Switching away and back again restores the projection. */
  lemma ToggleRoundTrip(s: ProjectionState, isPerspective: bool)
    requires s.screenHeight != 0.0
    ensures SetProjectionMode(SetProjectionMode(s, !isPerspective), isPerspective).projection
              == SetProjectionMode(s, isPerspective).projection
  {
  }

  /** Resizing and switching mode, in either order, give one projection. */
  lemma ResizeAndSwitchCommute(s: ProjectionState, width: real, height: real, isPerspective: bool)
    requires s.screenHeight != 0.0 && height != 0.0
    ensures SetProjectionMode(SetScreenDimensions(s, width, height), isPerspective).projection
              == SetScreenDimensions(SetProjectionMode(s, isPerspective), width, height).projection
  {
  }
}
