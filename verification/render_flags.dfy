/** The two render flags every drawable object keeps (IBOCube, MengerSponge
    and FractalMesh declare the same pair and the same toggles): whether the
    filled faces are drawn and whether the wireframe is drawn on top. */
module RenderFlags {

  datatype Flags = Flags(renderFaces: bool, renderWireframe: bool)

  /** Every init() turns both on. */
  const Initial: Flags := Flags(true, true)

  /** Flips the wireframe flag and leaves the faces flag alone. */
  function ToggleWireframe(f: Flags): (r: Flags)
    ensures r.renderWireframe != f.renderWireframe
    ensures r.renderFaces == f.renderFaces
  {
    f.(renderWireframe := !f.renderWireframe)
  }

  /** Flips the faces flag and leaves the wireframe flag alone. */
  function ToggleFaces(f: Flags): (r: Flags)
    ensures r.renderFaces != f.renderFaces
    ensures r.renderWireframe == f.renderWireframe
  {
    f.(renderFaces := !f.renderFaces)
  }

  /** Draw only the wireframe, whatever was drawn before. */
  function DrawAsWireframe(f: Flags): (r: Flags)
    ensures !r.renderFaces && r.renderWireframe
  {
    Flags(false, true)
  }

  /** Draw only the faces, whatever was drawn before. */
  function DrawAsFaces(f: Flags): (r: Flags)
    ensures r.renderFaces && !r.renderWireframe
  {
    Flags(true, false)
  }

  /** Each toggle undoes itself, and the two toggles do not interfere. */
  lemma TogglesInvolutive(f: Flags)
    ensures ToggleWireframe(ToggleWireframe(f)) == f
    ensures ToggleFaces(ToggleFaces(f)) == f
    ensures ToggleWireframe(ToggleFaces(f)) == ToggleFaces(ToggleWireframe(f))
  {
  }

  /** The draw-only modes forget the prior state, and a toggle away from a
      draw-only mode reaches the other flag combinations. */
  lemma DrawAsForgetsPriorState(f: Flags, g: Flags)
    ensures DrawAsWireframe(f) == DrawAsWireframe(g)
    ensures DrawAsFaces(f) == DrawAsFaces(g)
    ensures ToggleFaces(DrawAsWireframe(f)) == Initial
    ensures ToggleWireframe(DrawAsFaces(f)) == Initial
  {
  }
}
