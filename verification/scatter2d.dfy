/** `plot_2d_scatter_with_fits` with the drawing stripped away: the panels
    it lays out (pair, label, colour), the default figure size, and the
    per-panel choice of regression model. Fitting is the parameter `fit`. */
module Scatter2D {
  import opened Common
  import opened Decimal
  import opened Pairing

  /** The `models` argument: None, True, one model object, or a list/tuple
      of model objects. Model objects are opaque. */
  datatype ModelSetting<+M> = NoModel | AutoFit | One(model: M) | List(models: seq<M>)

  datatype ScatterError =
    | PairingFailed(cause: PairingError)
    | ModelListTooShort           // the list has no entry for some panel
    | SingleModelForManyPanels    // one model object, more than one panel

  /** One subplot: the arrays it scatters, its x-axis label and colour. */
  datatype Panel<+T> = Panel(x: T, y: T, xlabel: string, color: string)

  /** What the helper hands back besides the Matplotlib handles. */
  datatype ScatterFigure<+T, +M> = ScatterFigure(size: Figsize, panels: seq<Panel<T>>, models: Option<seq<M>>)

  const DefaultColors: seq<string> := ["blue", "green", "purple", "orange", "teal"]

  /** The side of one default-sized panel, in inches. */
  const PanelInches: real := 3.5

  /** Panel i cycles through the five default colours. */
  function PanelColor(i: nat): (c: string)
    ensures c in DefaultColors
  {
    DefaultColors[i % |DefaultColors|]
  }

  /** The colour cycle starts at the first default colour, has period five
      and no repeat inside one period. */
  lemma ColorCycle(i: nat)
    ensures i < 5 ==> PanelColor(i) == DefaultColors[i]
    ensures PanelColor(i + 5) == PanelColor(i)
    ensures forall j :: i < j < i + 5 ==> PanelColor(j) != PanelColor(i)
  {
  }

  /** The x-axis label of panel i, numbered from one. */
  function XLabel(i: nat): (s: string)
    ensures |s| >= 2 && s[0] == 'X' && s[1..] == NatToString(i + 1)
  {
    "X" + NatToString(i + 1)
  }

  /** Different panels get different x-axis labels, and the number in the
      label is the panel's position counted from one. */
  lemma XLabelNumbering(i: nat, j: nat)
    ensures ParseDecimal(XLabel(i)[1..]) == i + 1
    ensures i != j ==> XLabel(i) != XLabel(j)
  {
    assert XLabel(i)[1..] == NatToString(i + 1);
    assert XLabel(j)[1..] == NatToString(j + 1);
    ParseNatToString(i + 1);
    ParseNatToString(j + 1);
  }

  /** A given figure size is used as is; with `figsize=None` each panel gets a
      3.5-inch square side by side. */
  function ResolveFigsize(figsize: Option<Figsize>, nPlots: nat): (f: Figsize)
    ensures figsize.Some? ==> f == figsize.value
    ensures figsize.None? ==> f.height == PanelInches && f.width == nPlots as real * f.height
  {
    match figsize
    case Some(size) => size
    case None => Figsize(PanelInches * nPlots as real, PanelInches)
  }

  /** When a `models` setting supplies a model to each of n panels: a list
      needs an entry per panel (extra entries are ignored), a single model
      object serves at most one panel. */
  predicate ModelsCover<M>(models: ModelSetting<M>, n: nat) {
    match models
    case NoModel => true
    case AutoFit => true
    case One(_) => n <= 1
    case List(ms) => |ms| >= n
  }

  /** The model of panel i out of nPlots, as the drawing loop picks it. */
  function ModelFor<T, M>(models: ModelSetting<M>, i: nat, nPlots: nat, pair: (T, T), fit: (T, T) -> M): (r: Result<M, ScatterError>)
    requires !models.NoModel?
    ensures models.AutoFit? ==> r == Ok(fit(pair.0, pair.1))
    ensures models.List? ==> (r.Ok? <==> i < |models.models|) && (r.Ok? ==> r.value == models.models[i])
    ensures models.One? ==> (r.Ok? <==> nPlots == 1) && (r.Ok? ==> r.value == models.model)
    ensures r.Err? ==> r.error == (if models.List? then ModelListTooShort else SingleModelForManyPanels)
  {
    match models
    case AutoFit => Ok(fit(pair.0, pair.1))
    case List(ms) => if |ms| <= i then Err(ModelListTooShort) else Ok(ms[i])
    case One(m) => if nPlots != 1 then Err(SingleModelForManyPanels) else Ok(m)
  }

  /** The models returned alongside the figure, panel by panel, or the
      error raised at the first panel without one. */
  method ResolveModels<T, M>(models: ModelSetting<M>, pairs: seq<(T, T)>, fit: (T, T) -> M)
    returns (r: Result<Option<seq<M>>, ScatterError>)
    ensures r.Ok? <==> ModelsCover(models, |pairs|)
    ensures r.Err? ==> r.error == (if models.List? then ModelListTooShort else SingleModelForManyPanels)
    ensures r.Ok? ==> (r.value.None? <==> models.NoModel?)
    ensures r.Ok? && r.value.Some? ==> |r.value.value| == |pairs|
    ensures models.AutoFit? ==>
      r.Ok? && r.value.Some?
      && forall i :: 0 <= i < |pairs| ==> r.value.value[i] == fit(pairs[i].0, pairs[i].1)
    ensures models.List? && r.Ok? ==> r.value == Some(models.models[..|pairs|])
    ensures models.One? && r.Ok? ==>
      r.value.Some? && forall i :: 0 <= i < |r.value.value| ==> r.value.value[i] == models.model
  {
    if models.NoModel? {
      return Ok(None);
    }
    var out: seq<M> := [];
    var i := 0;
    while i < |pairs|
      invariant 0 <= i <= |pairs|
      invariant |out| == i
      invariant forall j :: 0 <= j < i ==> ModelFor(models, j, |pairs|, pairs[j], fit) == Ok(out[j])
      invariant models.List? ==> |models.models| >= i
      invariant models.One? && i > 0 ==> |pairs| == 1
    {
      var m := ModelFor(models, i, |pairs|, pairs[i], fit);
      if m.Err? {
        return Err(m.error);
      }
      out := out + [m.value];
      i := i + 1;
    }
    if models.List? {
      assert out == models.models[..|pairs|];
    }
    return Ok(Some(out));
  }

  /** The panels laid out for the resolved pairs, in pair order. */
  function Panels<T>(pairs: seq<(T, T)>): (ps: seq<Panel<T>>)
    ensures |ps| == |pairs|
    ensures forall i :: 0 <= i < |pairs| ==>
      && (ps[i].x, ps[i].y) == pairs[i]
      && ps[i].xlabel == XLabel(i)
      && ps[i].color == PanelColor(i)
  {
    seq(|pairs|, i requires 0 <= i < |pairs| => Panel(pairs[i].0, pairs[i].1, XLabel(i), PanelColor(i)))
  }

  /** The whole helper: pairing errors first, then the figure layout, then
      the per-panel models. */
  method PlotScatter2D<T, M>(x: OneOrMany<T>, phenotype: Option<OneOrMany<T>>, figsize: Option<Figsize>,
                             models: ModelSetting<M>, fit: (T, T) -> M)
    returns (r: Result<ScatterFigure<T, M>, ScatterError>)
    ensures phenotype.None? ==> r == Err(PairingFailed(MissingPhenotype))
    ensures ResolvePairs(x, phenotype).Err? ==> r == Err(PairingFailed(ResolvePairs(x, phenotype).error))
    ensures ResolvePairs(x, phenotype).Ok? ==> (r.Ok? <==> ModelsCover(models, |ResolvePairs(x, phenotype).value|))
    ensures ResolvePairs(x, phenotype).Ok? && r.Err? ==>
      r.error == (if models.List? then ModelListTooShort else SingleModelForManyPanels)
    ensures r.Ok? ==>
      && ResolvePairs(x, phenotype).Ok?
      && var pairs := ResolvePairs(x, phenotype).value;
      && |r.value.panels| == |pairs|
      && r.value.size == ResolveFigsize(figsize, |pairs|)
      && forall i :: 0 <= i < |pairs| ==>
           r.value.panels[i] == Panel(pairs[i].0, pairs[i].1, XLabel(i), PanelColor(i))
    ensures r.Ok? ==> (r.value.models.None? <==> models.NoModel?)
    ensures r.Ok? && r.value.models.Some? ==> |r.value.models.value| == |r.value.panels|
    ensures r.Ok? && models.AutoFit? ==>
      forall i :: 0 <= i < |r.value.panels| ==>
        r.value.models.value[i] == fit(r.value.panels[i].x, r.value.panels[i].y)
    ensures r.Ok? && models.List? ==> r.value.models == Some(models.models[..|r.value.panels|])
    ensures r.Ok? && models.One? ==>
      forall i :: 0 <= i < |r.value.panels| ==> r.value.models.value[i] == models.model
  {
    var resolved := ResolvePairs(x, phenotype);
    if resolved.Err? {
      return Err(PairingFailed(resolved.error));
    }
    var pairs := resolved.value;
    var size := ResolveFigsize(figsize, |pairs|);
    var panels := Panels(pairs);
    var chosen := ResolveModels(models, pairs, fit);
    if chosen.Err? {
      return Err(chosen.error);
    }
    return Ok(ScatterFigure(size, panels, chosen.value));
  }
}
