/** `plot_grouped_boxplots` with the drawing stripped away: input
    validation, the two group masks, splitting each variable by them, the
    choice of two-sample test and the per-variable results. The test
    statistics themselves are the parameter `stats`. */
module GroupedBoxplots {
  import opened Common
  import opened Decimal

  /** The group vector after `np.asarray`: boolean dtype, or categorical
      labels (modelled as integers, which `np.unique` sorts ascending). */
  datatype GroupVector = Flags(flags: seq<bool>) | Labels(labels: seq<int>)

  /** The two-sample tests on offer: Wilcoxon rank-sum, Student's t, Mann-Whitney U. */
  datatype TestKind = RankSums | TTest | MannWhitneyU

  datatype BoxplotError =
    | VariableLengthMismatch(index: nat, varLength: nat, groupLength: nat)
    | NotBinary(uniqueCount: nat)
    | UnknownTest(name: string)
    | ColorIndexOutOfRange    // `colors` has fewer than two entries and there is a panel to draw

  /** One panel: its title, the observations of each group, and the test
      result `(statistic, pvalue)`, both None when no test was requested. */
  datatype Comparison<+V, +S> = Comparison(title: string, group1: seq<V>, group2: seq<V>, statistic: Option<S>, pvalue: Option<S>)

  /** The figure size, the two group colours in use, and the panels. */
  datatype BoxplotFigure<+V, +S> = BoxplotFigure(size: Figsize, colors: seq<string>, comparisons: seq<Comparison<V, S>>)

  const DefaultGroupColors: seq<string> := ["blue", "red"]

  function GroupLength(g: GroupVector): (n: nat) {
    match g
    case Flags(f) => |f|
    case Labels(l) => |l|
  }

  /** The number of distinct group values, `len(np.unique(groups))`. */
  function UniqueCount(g: GroupVector): (n: nat)
    ensures g.Flags? ==> (n == 2 <==> true in g.flags && false in g.flags)
    ensures n == 0 <==> GroupLength(g) == 0
  {
    match g
    case Flags(f) =>
      BoolValues(f);
      NoValuesOnlyWhenEmpty(f);
      |set b | b in f|
    case Labels(l) =>
      NoValuesOnlyWhenEmpty(l);
      |set v | v in l|
  }

  /** A sequence has no distinct values exactly when it is empty. */
  lemma NoValuesOnlyWhenEmpty<X>(s: seq<X>)
    ensures |set v | v in s| == 0 <==> |s| == 0
  {
    var values := set v | v in s;
    if |s| > 0 {
      assert s[0] in values;
    } else {
      assert forall v :: v !in values;
    }
  }

  /** The distinct values of a boolean vector: both, one of them, or none. */
  lemma BoolValues(f: seq<bool>)
    ensures var values := set b | b in f;
      && (true in f && false in f ==> values == {true, false})
      && (true in f && false !in f ==> values == {true})
      && (true !in f && false in f ==> values == {false})
      && (true !in f && false !in f ==> values == {})
  {
    var values := set b | b in f;
    assert forall b: bool :: b in values <==> b in f;
    if true in f && false in f {
      assert forall b: bool :: b in values <==> b in {true, false};
    } else if true in f {
      assert forall b: bool :: b in values <==> b in {true};
    } else if false in f {
      assert forall b: bool :: b in values <==> b in {false};
    } else {
      assert forall b: bool :: b !in values;
    }
  }

  /** The smallest label, `np.unique(...)[0]` when there are labels. */
  function Smallest(s: seq<int>): (m: int)
    requires |s| > 0
    ensures m in s
    ensures forall k :: 0 <= k < |s| ==> m <= s[k]
  {
    if |s| == 1 then s[0]
    else
      var rest := Smallest(s[1..]);
      if s[0] <= rest then s[0] else rest
  }

  /** The largest label, `np.unique(...)[-1]` when there are labels. */
  function Largest(s: seq<int>): (m: int)
    requires |s| > 0
    ensures m in s
    ensures forall k :: 0 <= k < |s| ==> s[k] <= m
  {
    if |s| == 1 then s[0]
    else
      var rest := Largest(s[1..]);
      if s[0] >= rest then s[0] else rest
  }

  lemma SubsetOfSameSize<X>(a: set<X>, b: set<X>)
    requires a <= b && |a| == |b|
    ensures a == b
  {
    if a != b {
      assert !(b <= a);
      var x :| x in b && x !in a;
      assert a <= b - {x};
      SubsetSize(a, b - {x});
    }
  }

  lemma {:induction false} SubsetSize<X>(a: set<X>, b: set<X>)
    requires a <= b
    ensures |a| <= |b|
    decreases |a|
  {
    if a != {} {
      var x :| x in a;
      SubsetSize(a - {x}, b - {x});
    }
  }

  /** The values of a sequence whose elements all equal `c` are just `c`. */
  lemma ConstantValues(s: seq<int>, c: int)
    requires |s| > 0
    requires forall k :: 0 <= k < |s| ==> s[k] == c
    ensures (set v | v in s) == {c}
  {
    var values := set v | v in s;
    assert s[0] in values;
    forall v | v in values
      ensures v == c
    {
      var k :| 0 <= k < |s| && s[k] == v;
    }
  }

  /** With exactly two distinct labels, they are the smallest and the
      largest one, and every label is one of them. */
  lemma TwoValuesAreExtremes(s: seq<int>)
    requires |set v | v in s| == 2
    ensures |s| > 0
    ensures Smallest(s) < Largest(s)
    ensures forall k :: 0 <= k < |s| ==> s[k] == Smallest(s) || s[k] == Largest(s)
  {
    var values := set v | v in s;
    var lo, hi := Smallest(s), Largest(s);
    if lo == hi {
      ConstantValues(s, lo);
      assert false;
    }
    assert {lo, hi} <= values;
    assert |{lo, hi}| == 2;
    SubsetOfSameSize({lo, hi}, values);
    forall k | 0 <= k < |s|
      ensures s[k] == lo || s[k] == hi
    {
      assert s[k] in values;
    }
  }

  /** The two group masks: for booleans the vector and its negation, for
      labels equality with the smaller and with the larger label. Every
      observation is in exactly one group. */
  function Masks(g: GroupVector): (m: (seq<bool>, seq<bool>))
    requires UniqueCount(g) == 2
    ensures |m.0| == GroupLength(g) && |m.1| == GroupLength(g)
    ensures forall i :: 0 <= i < GroupLength(g) ==> m.0[i] != m.1[i]
    ensures g.Flags? ==> m.0 == g.flags
    ensures g.Labels? ==>
      forall i, j :: 0 <= i < |g.labels| && 0 <= j < |g.labels| ==>
        (m.0[i] == m.0[j] <==> g.labels[i] == g.labels[j])
    ensures g.Labels? ==>
      forall i, j :: 0 <= i < |g.labels| && 0 <= j < |g.labels| && m.0[i] && m.1[j] ==>
        g.labels[i] < g.labels[j]
  {
    match g
    case Flags(f) =>
      (f, seq(|f|, i requires 0 <= i < |f| => !f[i]))
    case Labels(l) =>
      TwoValuesAreExtremes(l);
      var lo, hi := Smallest(l), Largest(l);
      (seq(|l|, i requires 0 <= i < |l| => l[i] == lo), seq(|l|, i requires 0 <= i < |l| => l[i] == hi))
  }

  /** The number of set entries of a mask. */
  function TrueCount(mask: seq<bool>): (n: nat)
    ensures n <= |mask|
    ensures n == 0 <==> forall i :: 0 <= i < |mask| ==> !mask[i]
    decreases |mask|
  {
    if |mask| == 0 then 0 else (if mask[0] then 1 else 0) + TrueCount(mask[1..])
  }

  /** Boolean indexing `var[mask]`: the observations whose mask entry is
      set, in their original order. A one-element variable is kept exactly
      when its mask entry is set, every observation at a set position is
      kept, and the sample has one element per set entry. */
  function Select<V>(v: seq<V>, mask: seq<bool>): (s: seq<V>)
    requires |v| == |mask|
    ensures |s| == TrueCount(mask)
    ensures multiset(s) <= multiset(v)
    ensures |v| == 1 ==> s == (if mask[0] then v else [])
    ensures forall i :: 0 <= i < |v| && mask[i] ==> v[i] in s
    decreases |v|
  {
    if |v| == 0 then []
    else
      assert v == [v[0]] + v[1..];
      var rest := Select(v[1..], mask[1..]);
      assert forall i :: 1 <= i < |v| ==> v[i] == v[1..][i - 1] && mask[i] == mask[1..][i - 1];
      (if mask[0] then [v[0]] else []) + rest
  }

  /** Selection works piecewise: the sample of a concatenation is the
      concatenation of the samples. With the one-element case this fixes
      `Select` on every input. */
  lemma {:induction false} SelectConcat<V>(v1: seq<V>, m1: seq<bool>, v2: seq<V>, m2: seq<bool>)
    requires |v1| == |m1| && |v2| == |m2|
    ensures Select(v1 + v2, m1 + m2) == Select(v1, m1) + Select(v2, m2)
    decreases |v1|
  {
    if |v1| == 0 {
      assert v1 + v2 == v2;
      assert m1 + m2 == m2;
    } else {
      assert (v1 + v2)[1..] == v1[1..] + v2;
      assert (m1 + m2)[1..] == m1[1..] + m2;
      SelectConcat(v1[1..], m1[1..], v2, m2);
    }
  }

  /** Splitting by two complementary masks loses and duplicates nothing:
      the two samples together are the variable's observations. */
  lemma {:induction false} SplitIsPartition<V>(v: seq<V>, m1: seq<bool>, m2: seq<bool>)
    requires |m1| == |v| && |m2| == |v|
    requires forall i :: 0 <= i < |v| ==> m1[i] != m2[i]
    ensures multiset(Select(v, m1)) + multiset(Select(v, m2)) == multiset(v)
    ensures |Select(v, m1)| + |Select(v, m2)| == |v|
    decreases |v|
  {
    if |v| > 0 {
      SplitIsPartition(v[1..], m1[1..], m2[1..]);
      assert v == [v[0]] + v[1..];
    }
  }

  /** One variable split by the two group masks, `(var[mask1], var[mask2])`. */
  function SplitVariable<V>(v: seq<V>, mask1: seq<bool>, mask2: seq<bool>): (g: (seq<V>, seq<V>))
    requires |mask1| == |v| && |mask2| == |v|
    requires forall i :: 0 <= i < |v| ==> mask1[i] != mask2[i]
    ensures g.0 == Select(v, mask1) && g.1 == Select(v, mask2)
    ensures multiset(g.0) + multiset(g.1) == multiset(v)
  {
    SplitIsPartition(v, mask1, mask2);
    (Select(v, mask1), Select(v, mask2))
  }

  const TestNames: set<string> := {"ranksums", "ttest", "mannwhitneyu"}

  /** The name that selects each test. */
  function TestName(k: TestKind): (name: string) {
    match k
    case RankSums => "ranksums"
    case TTest => "ttest"
    case MannWhitneyU => "mannwhitneyu"
  }

  /** The `test` argument: None asks for no test, one of the three names
      selects that test, anything else is rejected. */
  function SelectTest(name: Option<string>): (r: Result<Option<TestKind>, BoxplotError>)
    ensures r.Ok? <==> name.None? || name.value in TestNames
    ensures r.Ok? ==> (r.value.None? <==> name.None?)
    ensures r.Ok? && r.value.Some? ==> TestName(r.value.value) == name.value
    ensures r.Err? ==> name.Some? && r.error == UnknownTest(name.value)
  {
    match name
    case None => Ok(None)
    case Some(t) =>
      if t == "ranksums" then Ok(Some(RankSums))
      else if t == "ttest" then Ok(Some(TTest))
      else if t == "mannwhitneyu" then Ok(Some(MannWhitneyU))
      else Err(UnknownTest(t))
  }

  /** Each test's name selects that test. */
  lemma SelectTestName(k: TestKind)
    ensures SelectTest(Some(TestName(k))) == Ok(Some(k))
  {
  }

  /** The default panel titles: "Variable 1", "Variable 2", ... for several
      variables, plain "Variable" for one. */
  function DefaultVarLabels(n: nat): (labels: seq<string>)
    ensures |labels| == n
    ensures n == 1 ==> labels == ["Variable"]
  {
    seq(n, i requires 0 <= i < n => if n > 1 then "Variable " + NatToString(i + 1) else "Variable")
  }

  /** Default titles of several variables are pairwise different and carry
      the variable's position counted from one. */
  lemma DefaultVarLabelsNumbered(n: nat, i: nat, j: nat)
    requires n > 1 && i < n && j < n
    ensures |DefaultVarLabels(n)[i]| > 9
    ensures DefaultVarLabels(n)[i][..9] == "Variable "
    ensures DefaultVarLabels(n)[i][9..] == NatToString(i + 1)
    ensures ParseDecimal(DefaultVarLabels(n)[i][9..]) == i + 1
    ensures i != j ==> DefaultVarLabels(n)[i] != DefaultVarLabels(n)[j]
  {
    var labels := DefaultVarLabels(n);
    assert labels[i][9..] == NatToString(i + 1);
    assert labels[j][9..] == NatToString(j + 1);
    ParseNatToString(i + 1);
    ParseNatToString(j + 1);
  }

  /** A given figure size is used as is; with `figsize=None` each variable gets a
      3.75-inch-wide panel, 4 inches high. */
  function ResolveBoxFigsize(figsize: Option<Figsize>, nVars: nat): (f: Figsize)
    ensures figsize.Some? ==> f == figsize.value
    ensures figsize.None? ==> f.height == 4.0 && f.width == 3.75 * nVars as real
  {
    match figsize
    case Some(size) => size
    case None => Figsize(3.75 * nVars as real, 4.0)
  }

  /** The first variable whose length differs from the group vector's. */
  function FirstMismatch<V>(vars: seq<seq<V>>, n: nat): (r: Option<nat>)
    ensures r.None? <==> forall j :: 0 <= j < |vars| ==> |vars[j]| == n
    ensures r.Some? ==>
      && r.value < |vars|
      && |vars[r.value]| != n
      && forall j :: 0 <= j < r.value ==> |vars[j]| == n
    decreases |vars|
  {
    if |vars| == 0 then None
    else if |vars[0]| != n then Some(0)
    else
      match FirstMismatch(vars[1..], n)
      case None => None
      case Some(k) => Some(k + 1)
  }

  /** The test result of one panel. */
  function Outcome<V, S>(kind: Option<TestKind>, group1: seq<V>, group2: seq<V>,
                         stats: (TestKind, seq<V>, seq<V>) -> (S, S)): (result: (Option<S>, Option<S>))
    ensures result.0.None? <==> kind.None?
    ensures result.1.None? <==> kind.None?
    ensures kind.Some? ==> (result.0.value, result.1.value) == stats(kind.value, group1, group2)
  {
    match kind
    case None => (None, None)
    case Some(k) => (Some(stats(k, group1, group2).0), Some(stats(k, group1, group2).1))
  }

  /** The panels of the drawing loop: variables zipped with their titles,
      each split by the masks and tested. */
  function BuildComparisons<V, S>(vars: seq<seq<V>>, titles: seq<string>, mask1: seq<bool>, mask2: seq<bool>,
                                  kind: Option<TestKind>, stats: (TestKind, seq<V>, seq<V>) -> (S, S))
    : (cs: seq<Comparison<V, S>>)
    requires |mask1| == |mask2|
    requires forall i :: 0 <= i < |mask1| ==> mask1[i] != mask2[i]
    requires forall i :: 0 <= i < |vars| ==> |vars[i]| == |mask1|
    ensures |cs| == Min(|vars|, |titles|)
    ensures forall i :: 0 <= i < |cs| ==>
      && cs[i].title == titles[i]
      && cs[i].group1 == Select(vars[i], mask1)
      && cs[i].group2 == Select(vars[i], mask2)
      && multiset(cs[i].group1) + multiset(cs[i].group2) == multiset(vars[i])
      && (cs[i].statistic, cs[i].pvalue) == Outcome(kind, cs[i].group1, cs[i].group2, stats)
  {
    var count := Min(|vars|, |titles|);
    seq(count, i requires 0 <= i < count =>
      var (g1, g2) := SplitVariable(vars[i], mask1, mask2);
      var (statistic, pvalue) := Outcome(kind, g1, g2, stats);
      Comparison(titles[i], g1, g2, statistic, pvalue))
  }

  /** The panel titles: the given ones, or the defaults for n variables. */
  function Titles(varLabels: Option<seq<string>>, n: nat): (titles: seq<string>)
    ensures varLabels.Some? ==> titles == varLabels.value
    ensures varLabels.None? ==> titles == DefaultVarLabels(n)
  {
    if varLabels.Some? then varLabels.value else DefaultVarLabels(n)
  }

  /** The group colours: the given ones, or blue and red. */
  function Palette(colors: Option<seq<string>>): (palette: seq<string>)
    ensures colors.Some? ==> palette == colors.value
    ensures colors.None? ==> palette == DefaultGroupColors
  {
    if colors.Some? then colors.value else DefaultGroupColors
  }

  /** The whole helper. Validation runs in the source's order: variable
      lengths, then the number of groups, then the test name; drawing the
      first panel then indexes the two group colours. Panels are formed by
      zipping the variables with their titles, so a shorter title list
      yields fewer panels. */
  function CompareGroups<V, S>(variables: OneOrMany<seq<V>>, groups: GroupVector, figsize: Option<Figsize>,
                               test: Option<string>, varLabels: Option<seq<string>>, colors: Option<seq<string>>,
                               stats: (TestKind, seq<V>, seq<V>) -> (S, S)): (r: Result<BoxplotFigure<V, S>, BoxplotError>)
    ensures r.Err? && r.error.VariableLengthMismatch? <==>
      exists i :: 0 <= i < |AsList(variables)| && |AsList(variables)[i]| != GroupLength(groups)
    ensures r.Err? && r.error.VariableLengthMismatch? ==>
      var vars, i := AsList(variables), r.error.index;
      && i < |vars|
      && r.error.varLength == |vars[i]| != GroupLength(groups) == r.error.groupLength
      && forall j :: 0 <= j < i ==> |vars[j]| == GroupLength(groups)
    ensures (forall i :: 0 <= i < |AsList(variables)| ==> |AsList(variables)[i]| == GroupLength(groups)) ==>
      && (UniqueCount(groups) != 2 ==> r == Err(NotBinary(UniqueCount(groups))))
      && (UniqueCount(groups) == 2 && test.Some? && test.value !in TestNames ==>
            r == Err(UnknownTest(test.value)))
      && (UniqueCount(groups) == 2 ==>
            (r.Ok? <==>
               && (test.None? || test.value in TestNames)
               && (Min(|AsList(variables)|, |Titles(varLabels, |AsList(variables)|)|) == 0 || |Palette(colors)| >= 2)))
      && (UniqueCount(groups) == 2 && (test.None? || test.value in TestNames)
          && Min(|AsList(variables)|, |Titles(varLabels, |AsList(variables)|)|) > 0 && |Palette(colors)| < 2 ==>
            r == Err(ColorIndexOutOfRange))
    ensures r.Err? && r.error.UnknownTest? ==> test == Some(r.error.name) && test.value !in TestNames
    ensures r.Err? && r.error.ColorIndexOutOfRange? ==>
      && (test.None? || test.value in TestNames)
      && |Palette(colors)| < 2
      && Min(|AsList(variables)|, |Titles(varLabels, |AsList(variables)|)|) > 0
    ensures r.Ok? ==>
      && UniqueCount(groups) == 2
      && (test.None? || test.value in TestNames)
      && var vars := AsList(variables);
      && var labels := Titles(varLabels, |vars|);
      && (forall i :: 0 <= i < |vars| ==> |vars[i]| == GroupLength(groups))
      && r.value.size == ResolveBoxFigsize(figsize, |vars|)
      && r.value.colors == Palette(colors)
      && (|r.value.comparisons| > 0 ==> |r.value.colors| >= 2)
      && |r.value.comparisons| == Min(|vars|, |labels|)
      && (varLabels.None? ==> |r.value.comparisons| == |vars|)
      && forall i :: 0 <= i < |r.value.comparisons| ==>
           var c := r.value.comparisons[i];
           && c.title == labels[i]
           && c.group1 == Select(vars[i], Masks(groups).0)
           && c.group2 == Select(vars[i], Masks(groups).1)
           && multiset(c.group1) + multiset(c.group2) == multiset(vars[i])
           && (test.None? ==> c.statistic.None? && c.pvalue.None?)
           && (test.Some? ==>
                 var k := SelectTest(test).value.value;
                 && TestName(k) == test.value
                 && c.statistic == Some(stats(k, c.group1, c.group2).0)
                 && c.pvalue == Some(stats(k, c.group1, c.group2).1))
  {
    var vars := AsList(variables);
    var n := GroupLength(groups);
    match FirstMismatch(vars, n)
    case Some(i) => Err(VariableLengthMismatch(i, |vars[i]|, n))
    case None =>
      if UniqueCount(groups) != 2 then Err(NotBinary(UniqueCount(groups)))
      else
        var (mask1, mask2) := Masks(groups);
        var labels := Titles(varLabels, |vars|);
        var palette := Palette(colors);
        var size := ResolveBoxFigsize(figsize, |vars|);
        match SelectTest(test)
        case Err(e) => Err(e)
        case Ok(kind) =>
          if Min(|vars|, |labels|) > 0 && |palette| < 2 then Err(ColorIndexOutOfRange)
          else Ok(BoxplotFigure(size, palette, BuildComparisons(vars, labels, mask1, mask2, kind, stats)))
  }

  /** Boolean groups put True first; the same split coded as 0/1 integers
      puts 0 first, so the two codings order the groups oppositely. */
  lemma CodingOrdersGroups(f: seq<bool>)
    requires true in f && false in f
    ensures var ints := seq(|f|, i requires 0 <= i < |f| => if f[i] then 1 else 0);
      && UniqueCount(Flags(f)) == 2
      && UniqueCount(Labels(ints)) == 2
      && forall i :: 0 <= i < |f| ==> Masks(Flags(f)).0[i] == f[i] && Masks(Labels(ints)).0[i] == !f[i]
  {
    var ints := seq(|f|, i requires 0 <= i < |f| => if f[i] then 1 else 0);
    var flags := set b | b in f;
    assert {true, false} <= flags;
    forall b | b in flags
      ensures b in {true, false}
    {
    }
    assert flags == {true, false};
    assert |flags| == 2;
    var it :| 0 <= it < |f| && f[it];
    var jf :| 0 <= jf < |f| && !f[jf];
    assert ints[it] == 1 && ints[jf] == 0;
    var values := set v | v in ints;
    assert 0 in values && 1 in values;
    forall v | v in values
      ensures v == 0 || v == 1
    {
      var k :| 0 <= k < |ints| && ints[k] == v;
    }
    assert values == {0, 1};
    assert |values| == 2;
    var m := Masks(Labels(ints));
    forall i | 0 <= i < |f|
      ensures m.0[i] == !f[i]
    {
      if f[i] {
        assert m.0[i] != m.0[jf] by {
          assert ints[i] != ints[jf];
        }
      } else {
        assert m.0[i] != m.0[it] by {
          assert ints[i] != ints[it];
        }
      }
    }
  }
}
