/**
 * The snapshot the emitter works on, and how it is taken from a figure.
 *
 * The live figure is given by what its getters return (LineSource,
 * CollectionSource, AxisSource, FigureSource); numbers are opaque tokens,
 * the str() rendering of each value. From it the constructors of pyFigure,
 * pyAxis, pyLine, pyScatter and pyColormesh build Figure, Axis and Plot.
 */
module Model {
  import opened Text

  /** str() of one number, as it appears in the emitted script. */
  type Token = string

  /** A line's colour: a string, or some other value written with str(). */
  datatype LineColor = ColorString(name: string) | ColorValue(repr: string)

  /** A collection's first face colour: a string, or an RGBA row of numbers. */
  datatype FaceColor = FaceString(name: string) | FaceRgba(components: seq<Token>)

  /** Axis limits, each end already rendered with '%.2e'. */
  datatype Limits = Limits(lower: string, upper: string)

  /** One row of a collection's (N, 2) offsets array. */
  datatype Offset = Offset(x: Token, y: Token)

  /** A Line2D as its getters see it: get_data(), get_label(), get_color(), get_linestyle(). */
  datatype LineSource = LineSource(
    xdata: seq<Token>, ydata: seq<Token>,
    seriesLabel: string, color: LineColor, linestyle: string)

  /**
   * An item of ax.collections: str(type(item)), get_label(), get_offsets()
   * (read in data coordinates), get_facecolor()[0], np.unique of the x
   * coordinates of its quadrilateral grid, and get_array().
   */
  datatype CollectionSource = CollectionSource(
    typeName: string, seriesLabel: string,
    offsets: seq<Offset>, facecolor: FaceColor,
    meshX: seq<Token>, values: seq<Token>)

  datatype AxisSource = AxisSource(
    lines: seq<LineSource>, collections: seq<CollectionSource>,
    xscale: string, yscale: string, xlabel: string, ylabel: string,
    xlim: Limits, ylim: Limits, title: string, hasLegend: bool)

  datatype FigureSource = FigureSource(axes: seq<AxisSource>)

  /** What each plot kind's getConfigString reads. */
  datatype Style =
    | LineStyle(seriesLabel: string, color: LineColor, linestyle: string)
    | ScatterStyle(seriesLabel: string, facecolor: FaceColor)
    | MeshStyle

  /** pyPlot: the drawing method's name, the data sequences, the style. */
  datatype Plot = Plot(drawMethod: string, data: seq<seq<Token>>, style: Style)

  /** pyAxis. */
  datatype Axis = Axis(
    plots: seq<Plot>,
    xscale: string, yscale: string, xlabel: string, ylabel: string,
    xlim: Limits, ylim: Limits, title: string, hasLegend: bool)

  /** pyFigure. */
  datatype Figure = Figure(axes: seq<Axis>)

  /** pyPlot.length: the number of data sequences. */
  function Length(p: Plot): nat {
    |p.data|
  }

  /** pyPlot.getMethodString. */
  function MethodString(p: Plot): string {
    p.drawMethod
  }

  /** pyLine: method 'plot', the two sequences of get_data(). */
  function LineOf(src: LineSource): (p: Plot)
    ensures MethodString(p) == "plot" && Length(p) == 2
    ensures p.data[0] == src.xdata && p.data[1] == src.ydata
    ensures p.style == LineStyle(src.seriesLabel, src.color, src.linestyle)
  {
    Plot("plot", [src.xdata, src.ydata], LineStyle(src.seriesLabel, src.color, src.linestyle))
  }

  function Xs(offsets: seq<Offset>): (xs: seq<Token>)
    ensures |xs| == |offsets|
  {
    seq(|offsets|, k requires 0 <= k < |offsets| => offsets[k].x)
  }

  function Ys(offsets: seq<Offset>): (ys: seq<Token>)
    ensures |ys| == |offsets|
  {
    seq(|offsets|, k requires 0 <= k < |offsets| => offsets[k].y)
  }

  /** pyScatter: method 'scatter', the rows of the transposed offsets array. */
  function ScatterOf(item: CollectionSource): (p: Plot)
    ensures MethodString(p) == "scatter" && Length(p) == 2
    ensures |p.data[0]| == |p.data[1]| == |item.offsets|
    ensures forall k :: 0 <= k < |item.offsets| ==>
              p.data[0][k] == item.offsets[k].x && p.data[1][k] == item.offsets[k].y
    ensures p.style == ScatterStyle(item.seriesLabel, item.facecolor)
  {
    Plot("scatter", [Xs(item.offsets), Ys(item.offsets)], ScatterStyle(item.seriesLabel, item.facecolor))
  }

  /**
   * pyColormesh: method 'pcolormesh'; the first two sequences are both the
   * unique x coordinates of the grid (the source reads column 0 twice),
   * the third is the value array.
   */
  function MeshOf(item: CollectionSource): (p: Plot)
    ensures MethodString(p) == "pcolormesh" && Length(p) == 3
    ensures p.data[0] == p.data[1] == item.meshX && p.data[2] == item.values
    ensures p.style == MeshStyle
  {
    Plot("pcolormesh", [item.meshX, item.meshX, item.values], MeshStyle)
  }

  predicate IsScatterItem(item: CollectionSource) {
    Contains(item.typeName, "PathCollection")
  }

  predicate IsMeshItem(item: CollectionSource) {
    Contains(item.typeName, "QuadMesh")
  }

  /** The plots one collection item contributes: the two tests are independent. */
  function ItemPlots(item: CollectionSource): seq<Plot> {
    (if IsScatterItem(item) then [ScatterOf(item)] else [])
    + (if IsMeshItem(item) then [MeshOf(item)] else [])
  }

  function CollectionPlots(items: seq<CollectionSource>): seq<Plot>
    decreases |items|
  {
    if items == [] then []
    else CollectionPlots(items[..|items| - 1]) + ItemPlots(items[|items| - 1])
  }

  function LinePlots(lines: seq<LineSource>): (ps: seq<Plot>)
    ensures |ps| == |lines|
  {
    seq(|lines|, k requires 0 <= k < |lines| => LineOf(lines[k]))
  }

  /** The plot list pyAxis.__init__ builds: every line, then the collections. */
  function AxisPlots(src: AxisSource): seq<Plot> {
    LinePlots(src.lines) + CollectionPlots(src.collections)
  }

  function AxisOf(src: AxisSource): Axis {
    Axis(AxisPlots(src), src.xscale, src.yscale, src.xlabel, src.ylabel,
         src.xlim, src.ylim, src.title, src.hasLegend)
  }

  function FigureOf(src: FigureSource): Figure {
    Figure(seq(|src.axes|, i requires 0 <= i < |src.axes| => AxisOf(src.axes[i])))
  }

  /** pyAxis.__init__: append every line, then classify each collection item. */
  method NewAxis(src: AxisSource) returns (ax: Axis)
    ensures ax == AxisOf(src)
    ensures |ax.plots| >= |src.lines|
    ensures forall k :: 0 <= k < |src.lines| ==> ax.plots[k] == LineOf(src.lines[k])
    ensures ax.plots[|src.lines|..] == CollectionPlots(src.collections)
  {
    var plots: seq<Plot> := [];
    for i := 0 to |src.lines|
      invariant plots == LinePlots(src.lines[..i])
    {
      plots := plots + [LineOf(src.lines[i])];
    }
    assert src.lines[..|src.lines|] == src.lines;
    for i := 0 to |src.collections|
      invariant plots == LinePlots(src.lines) + CollectionPlots(src.collections[..i])
    {
      var item := src.collections[i];
      assert src.collections[..i + 1][..i] == src.collections[..i];
      if Contains(item.typeName, "PathCollection") {
        plots := plots + [ScatterOf(item)];
      }
      if Contains(item.typeName, "QuadMesh") {
        plots := plots + [MeshOf(item)];
      }
    }
    assert src.collections[..|src.collections|] == src.collections;
    ax := Axis(plots, src.xscale, src.yscale, src.xlabel, src.ylabel,
               src.xlim, src.ylim, src.title, src.hasLegend);
  }

  /** pyFigure.__init__: one pyAxis per axis of the figure, in order. */
  method NewFigure(src: FigureSource) returns (fig: Figure)
    ensures fig == FigureOf(src)
    ensures |fig.axes| == |src.axes|
  {
    var axes: seq<Axis> := [];
    for i := 0 to |src.axes|
      invariant |axes| == i
      invariant forall k :: 0 <= k < i ==> axes[k] == AxisOf(src.axes[k])
    {
      var ax := NewAxis(src.axes[i]);
      axes := axes + [ax];
    }
    fig := Figure(axes);
  }

  // ---------------------------------------------------------------------
  // What the classification promises

  /** The items whose type name contains `pattern`, in order. */
  function ItemsOfKind(items: seq<CollectionSource>, pattern: string): (r: seq<CollectionSource>)
    ensures |r| <= |items|
    decreases |items|
  {
    if items == [] then []
    else
      var last := items[|items| - 1];
      ItemsOfKind(items[..|items| - 1], pattern)
      + (if Contains(last.typeName, pattern) then [last] else [])
  }

  /** The plots with a given method name, in order. */
  function PlotsWithMethod(ps: seq<Plot>, m: string): (r: seq<Plot>)
    ensures |r| <= |ps|
    decreases |ps|
  {
    if ps == [] then []
    else
      PlotsWithMethod(ps[..|ps| - 1], m)
      + (if ps[|ps| - 1].drawMethod == m then [ps[|ps| - 1]] else [])
  }

  lemma {:induction false} PlotsWithMethodAppend(a: seq<Plot>, b: seq<Plot>, m: string)
    ensures PlotsWithMethod(a + b, m) == PlotsWithMethod(a, m) + PlotsWithMethod(b, m)
    decreases |b|
  {
    if b == [] {
      assert a + b == a;
    } else {
      assert (a + b)[..|a + b| - 1] == a + b[..|b| - 1];
      PlotsWithMethodAppend(a, b[..|b| - 1], m);
    }
  }

  lemma {:induction false} NoLineIsOther(lines: seq<LineSource>, m: string)
    requires m != "plot"
    ensures PlotsWithMethod(LinePlots(lines), m) == []
    decreases |lines|
  {
    if lines != [] {
      var ps := LinePlots(lines);
      assert ps[..|ps| - 1] == LinePlots(lines[..|lines| - 1]);
      NoLineIsOther(lines[..|lines| - 1], m);
    }
  }

  /** The 'plot' entries of an axis are exactly its lines, in order. */
  lemma {:induction false} LinesInOrder(src: AxisSource)
    ensures PlotsWithMethod(AxisPlots(src), "plot") == LinePlots(src.lines)
  {
    LinesOnlyPlot(src.lines);
    CollectionsNeverPlot(src.collections);
    PlotsWithMethodAppend(LinePlots(src.lines), CollectionPlots(src.collections), "plot");
  }

  lemma {:induction false} LinesOnlyPlot(lines: seq<LineSource>)
    ensures PlotsWithMethod(LinePlots(lines), "plot") == LinePlots(lines)
    decreases |lines|
  {
    if lines != [] {
      var ps := LinePlots(lines);
      assert ps[..|ps| - 1] == LinePlots(lines[..|lines| - 1]);
      LinesOnlyPlot(lines[..|lines| - 1]);
    }
  }

  lemma {:induction false} CollectionsNeverPlot(items: seq<CollectionSource>)
    ensures PlotsWithMethod(CollectionPlots(items), "plot") == []
    decreases |items|
  {
    if items != [] {
      var last := items[|items| - 1];
      CollectionsNeverPlot(items[..|items| - 1]);
      PlotsWithMethodAppend(CollectionPlots(items[..|items| - 1]), ItemPlots(last), "plot");
      var a := if IsScatterItem(last) then [ScatterOf(last)] else [];
      var b := if IsMeshItem(last) then [MeshOf(last)] else [];
      PlotsWithMethodAppend(a, b, "plot");
      assert a + b == ItemPlots(last);
    }
  }

  function ScatterPlots(items: seq<CollectionSource>): (ps: seq<Plot>)
    ensures |ps| == |items|
  {
    seq(|items|, k requires 0 <= k < |items| => ScatterOf(items[k]))
  }

  function MeshPlots(items: seq<CollectionSource>): (ps: seq<Plot>)
    ensures |ps| == |items|
  {
    seq(|items|, k requires 0 <= k < |items| => MeshOf(items[k]))
  }

  /** The 'scatter' entries of an axis are its PathCollection items, in order. */
  lemma {:induction false} ScattersInOrder(src: AxisSource)
    ensures PlotsWithMethod(AxisPlots(src), "scatter")
         == ScatterPlots(ItemsOfKind(src.collections, "PathCollection"))
  {
    NoLineIsOther(src.lines, "scatter");
    PlotsWithMethodAppend(LinePlots(src.lines), CollectionPlots(src.collections), "scatter");
    CollectionScatters(src.collections);
  }

  lemma ScatterPlotsAppend(a: seq<CollectionSource>, b: seq<CollectionSource>)
    ensures ScatterPlots(a + b) == ScatterPlots(a) + ScatterPlots(b)
  {
  }

  lemma ItemScatters(item: CollectionSource)
    ensures PlotsWithMethod(ItemPlots(item), "scatter")
         == if IsScatterItem(item) then [ScatterOf(item)] else []
  {
    var a := if IsScatterItem(item) then [ScatterOf(item)] else [];
    var b := if IsMeshItem(item) then [MeshOf(item)] else [];
    PlotsWithMethodAppend(a, b, "scatter");
    assert a + b == ItemPlots(item);
  }

  lemma {:induction false} CollectionScatters(items: seq<CollectionSource>)
    ensures PlotsWithMethod(CollectionPlots(items), "scatter")
         == ScatterPlots(ItemsOfKind(items, "PathCollection"))
    decreases |items|
  {
    hide ScatterOf, MeshOf, Contains;
    if items != [] {
      var init := items[..|items| - 1];
      var last := items[|items| - 1];
      var kinds := ItemsOfKind(init, "PathCollection");
      var tail := if IsScatterItem(last) then [last] else [];
      calc {
        PlotsWithMethod(CollectionPlots(items), "scatter");
      == { assert CollectionPlots(items) == CollectionPlots(init) + ItemPlots(last); }
        PlotsWithMethod(CollectionPlots(init) + ItemPlots(last), "scatter");
      == { PlotsWithMethodAppend(CollectionPlots(init), ItemPlots(last), "scatter"); }
        PlotsWithMethod(CollectionPlots(init), "scatter") + PlotsWithMethod(ItemPlots(last), "scatter");
      == { CollectionScatters(init); ItemScatters(last); }
        ScatterPlots(kinds) + (if IsScatterItem(last) then [ScatterOf(last)] else []);
      == { assert ScatterPlots(tail) == if IsScatterItem(last) then [ScatterOf(last)] else []; }
        ScatterPlots(kinds) + ScatterPlots(tail);
      == { ScatterPlotsAppend(kinds, tail); }
        ScatterPlots(kinds + tail);
      == { assert ItemsOfKind(items, "PathCollection") == kinds + tail; }
        ScatterPlots(ItemsOfKind(items, "PathCollection"));
      }
    }
  }

  /** The 'pcolormesh' entries of an axis are its QuadMesh items, in order. */
  lemma {:induction false} MeshesInOrder(src: AxisSource)
    ensures PlotsWithMethod(AxisPlots(src), "pcolormesh")
         == MeshPlots(ItemsOfKind(src.collections, "QuadMesh"))
  {
    NoLineIsOther(src.lines, "pcolormesh");
    PlotsWithMethodAppend(LinePlots(src.lines), CollectionPlots(src.collections), "pcolormesh");
    CollectionMeshes(src.collections);
  }

  lemma MeshPlotsAppend(a: seq<CollectionSource>, b: seq<CollectionSource>)
    ensures MeshPlots(a + b) == MeshPlots(a) + MeshPlots(b)
  {
  }

  lemma ItemMeshes(item: CollectionSource)
    ensures PlotsWithMethod(ItemPlots(item), "pcolormesh")
         == if IsMeshItem(item) then [MeshOf(item)] else []
  {
    var a := if IsScatterItem(item) then [ScatterOf(item)] else [];
    var b := if IsMeshItem(item) then [MeshOf(item)] else [];
    PlotsWithMethodAppend(a, b, "pcolormesh");
    assert a + b == ItemPlots(item);
  }

  lemma {:induction false} CollectionMeshes(items: seq<CollectionSource>)
    ensures PlotsWithMethod(CollectionPlots(items), "pcolormesh")
         == MeshPlots(ItemsOfKind(items, "QuadMesh"))
    decreases |items|
  {
    hide ScatterOf, MeshOf, Contains;
    if items != [] {
      var init := items[..|items| - 1];
      var last := items[|items| - 1];
      var kinds := ItemsOfKind(init, "QuadMesh");
      var tail := if IsMeshItem(last) then [last] else [];
      calc {
        PlotsWithMethod(CollectionPlots(items), "pcolormesh");
      == { assert CollectionPlots(items) == CollectionPlots(init) + ItemPlots(last); }
        PlotsWithMethod(CollectionPlots(init) + ItemPlots(last), "pcolormesh");
      == { PlotsWithMethodAppend(CollectionPlots(init), ItemPlots(last), "pcolormesh"); }
        PlotsWithMethod(CollectionPlots(init), "pcolormesh") + PlotsWithMethod(ItemPlots(last), "pcolormesh");
      == { CollectionMeshes(init); ItemMeshes(last); }
        MeshPlots(kinds) + (if IsMeshItem(last) then [MeshOf(last)] else []);
      == { assert MeshPlots(tail) == if IsMeshItem(last) then [MeshOf(last)] else []; }
        MeshPlots(kinds) + MeshPlots(tail);
      == { MeshPlotsAppend(kinds, tail); }
        MeshPlots(kinds + tail);
      == { assert ItemsOfKind(items, "QuadMesh") == kinds + tail; }
        MeshPlots(ItemsOfKind(items, "QuadMesh"));
      }
    }
  }

  /**
   * Nothing but lines, PathCollections and QuadMeshes yields a plot: the
   * plot count is the line count plus the two item counts.
   */
  lemma {:induction false} PlotCount(src: AxisSource)
    ensures |AxisPlots(src)| == |src.lines|
          + |ItemsOfKind(src.collections, "PathCollection")|
          + |ItemsOfKind(src.collections, "QuadMesh")|
  {
    CollectionCount(src.collections);
  }

  lemma {:induction false} CollectionCount(items: seq<CollectionSource>)
    ensures |CollectionPlots(items)| == |ItemsOfKind(items, "PathCollection")|
                                      + |ItemsOfKind(items, "QuadMesh")|
    decreases |items|
  {
    if items != [] {
      CollectionCount(items[..|items| - 1]);
    }
  }

  /** An item of any other kind leaves the plot list as it was. */
  lemma OtherKindIgnored(items: seq<CollectionSource>, item: CollectionSource)
    requires !Contains(item.typeName, "PathCollection") && !Contains(item.typeName, "QuadMesh")
    ensures CollectionPlots(items + [item]) == CollectionPlots(items)
  {
    assert (items + [item])[..|items|] == items;
  }

  /** The usual type name of a scatter collection classifies as a scatter only. */
  lemma PathCollectionIsScatter(prefix: string, suffix: string, item: CollectionSource)
    requires item.typeName == prefix + "PathCollection" + suffix
    requires !Contains(item.typeName, "QuadMesh")
    ensures ItemPlots(item) == [ScatterOf(item)]
  {
    ContainsInfix(prefix, "PathCollection", suffix);
  }

  /** The usual type name of a mesh collection classifies as a mesh only. */
  lemma QuadMeshIsMesh(prefix: string, suffix: string, item: CollectionSource)
    requires item.typeName == prefix + "QuadMesh" + suffix
    requires !Contains(item.typeName, "PathCollection")
    ensures ItemPlots(item) == [MeshOf(item)]
  {
    ContainsInfix(prefix, "QuadMesh", suffix);
  }
}
