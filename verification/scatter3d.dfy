/** The model choice of `plot_3d_scatter_with_plane`: whether a plane is
    drawn and which model object is returned. Fitting is the parameter `fit`. */
module Scatter3D {
  import opened Common

  /** The `model` argument: None, True, or an already fitted model object. */
  datatype PlaneSetting<+M> = NoPlane | FitPlane | Fitted(model: M)

  /** The model returned by the helper, which is also the model whose plane
      is drawn: absent exactly when `model` is None, a fresh least-squares
      fit on (x1, x2) against y when it is True, the given object otherwise. */
  function ResolvePlaneModel<T, M>(setting: PlaneSetting<M>, x1: T, x2: T, y: T, fit: (T, T, T) -> M): (r: Option<M>)
    ensures r.None? <==> setting.NoPlane?
    ensures setting.FitPlane? ==> r == Some(fit(x1, x2, y))
    ensures setting.Fitted? ==> r == Some(setting.model)
  {
    match setting
    case FitPlane => Some(fit(x1, x2, y))
    case NoPlane => None
    case Fitted(m) => Some(m)
  }
}
