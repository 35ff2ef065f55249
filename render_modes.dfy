/** The rendering mode: which of the two camera/renderer pipelines, 3D or
    planar 2D, receives events and draw calls. */
module RenderModes {

  datatype RenderMode = ThreeD | TwoD

  /** The mode a toggle switches to: always the other one. */
  function Toggled(m: RenderMode): (r: RenderMode)
    ensures r != m
  {
    match m
    case ThreeD => TwoD
    case TwoD => ThreeD
  }

  /** Toggling twice restores the mode. */
  lemma ToggleInvolutive(m: RenderMode)
    ensures Toggled(Toggled(m)) == m
  {
  }
}
