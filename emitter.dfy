/**
 * The code emitter: the script text pyFigure.getFileString writes for a
 * figure snapshot, first as a specification (FileText, built from the
 * chunks it is made of), then as the accumulating loops of the source,
 * proved to produce that text.
 */
module Emitter {
  import opened Text
  import opened Grid
  import opened Model

  const ImportNumpy: string := "import numpy as np\n"
  const ImportPyplot: string := "import matplotlib.pyplot as plt\n"
  const ImportMlab: string := "import matplotlib.mlab as ml\n"
  const ImportSeaborn: string := "import seaborn as sns\n"
  const SetStyle: string := "sns.set_style('whitegrid')\n"

  /** The fixed imports, the style call and a blank line. */
  const Preamble: string :=
    ImportNumpy + ImportPyplot + ImportMlab + ImportSeaborn + SetStyle + "\n"

  const FigureLine: string := "fig = plt.figure()\n"

  const ShowLine: string := "plt.show(block=True)"

  /** Everything before the first axis. */
  const Header: string := Preamble + FigureLine

  // ---------------------------------------------------------------------
  // Names

  /** The variable of axis i: 'ax_%d' % i. */
  function AxName(i: nat): string {
    "ax_" + Decimal(i)
  }

  /** The variable of data sequence k of plot j on axis i: 'dat_%d_%d_%d'. */
  function DatName(i: nat, j: nat, k: nat): string {
    "dat_" + Decimal(i) + "_" + Decimal(j) + "_" + Decimal(k)
  }

  /** The first '_' of a + "_" + b is the one after a, when a has none. */
  lemma FirstUnderscore(a: string, b: string)
    requires '_' !in a
    ensures IndexOf(a + "_" + b, '_') == |a|
  {
    var s := a + "_" + b;
    assert s[|a|] == '_';
    assert forall m :: 0 <= m < |a| ==> s[m] == a[m];
  }

  /** a + "_" + b determines a and b when a has no '_'. */
  lemma SplitAtUnderscore(a: string, b: string, c: string, d: string)
    requires '_' !in a && '_' !in c
    requires a + "_" + b == c + "_" + d
    ensures a == c && b == d
  {
    var s := a + "_" + b;
    FirstUnderscore(a, b);
    FirstUnderscore(c, d);
    assert a == s[..|a|];
    assert c == s[..|c|];
    assert b == s[|a| + 1..];
    assert d == s[|c| + 1..];
  }

  lemma NoUnderscoreInDecimal(n: nat)
    ensures '_' !in Decimal(n)
  {
  }

  /** Distinct (axis, plot, data) triples name distinct variables. */
  lemma DatNameInjective(i: nat, j: nat, k: nat, i': nat, j': nat, k': nat)
    ensures DatName(i, j, k) == DatName(i', j', k') <==> (i, j, k) == (i', j', k')
  {
    if DatName(i, j, k) == DatName(i', j', k') {
      hide Decimal;
      NoUnderscoreInDecimal(i);
      NoUnderscoreInDecimal(i');
      NoUnderscoreInDecimal(j);
      NoUnderscoreInDecimal(j');
      var tail := Decimal(j) + "_" + Decimal(k);
      var tail' := Decimal(j') + "_" + Decimal(k');
      DatNameSplit(i, j, k);
      DatNameSplit(i', j', k');
      DropPrefix("dat_", Decimal(i) + "_" + tail, Decimal(i') + "_" + tail');
      SplitAtUnderscore(Decimal(i), tail, Decimal(i'), tail');
      SplitAtUnderscore(Decimal(j), Decimal(k), Decimal(j'), Decimal(k'));
      DecimalInjective(i, i');
      DecimalInjective(j, j');
      DecimalInjective(k, k');
    }
  }

  lemma DatNameSplit(i: nat, j: nat, k: nat)
    ensures DatName(i, j, k) == "dat_" + (Decimal(i) + "_" + (Decimal(j) + "_" + Decimal(k)))
  {
    hide Decimal;
  }

  /** Distinct axes get distinct variables, and none is a data variable. */
  lemma AxNameInjective(i: nat, i': nat, a: nat, b: nat, c: nat)
    ensures AxName(i) == AxName(i') <==> i == i'
    ensures AxName(i) != DatName(a, b, c)
  {
    if AxName(i) == AxName(i') {
      assert Decimal(i) == AxName(i)[3..];
      assert Decimal(i') == AxName(i')[3..];
      DecimalInjective(i, i');
    }
    assert AxName(i)[1] == 'x';
    assert DatName(a, b, c)[1] == 'a';
  }

  // ---------------------------------------------------------------------
  // The pieces of text

  /** 'ax_i = fig.add_subplot(nx, ny, i+1)\n'. */
  function SubplotLine(i: nat, nx: nat, ny: nat): string {
    AxName(i) + " = fig.add_subplot(" + Decimal(nx) + ", " + Decimal(ny) + ", "
    + Decimal(i + 1) + ")\n"
  }

  /** One data literal: '[' + ','.join(map(str, data)) + ']'. */
  function DataLiteral(data: seq<Token>): string {
    "[" + Join(",", data) + "]"
  }

  /** Reading a data literal back: the pieces between the brackets. */
  function ReadLiteral(lit: string): seq<Token> {
    if |lit| < 2 then [] else Fields(lit[1..|lit| - 1], ',')
  }

  /** The literal lists exactly the tokens, in order. */
  lemma DataLiteralRoundTrip(data: seq<Token>)
    requires forall k :: 0 <= k < |data| ==> data[k] != [] && ',' !in data[k]
    ensures ReadLiteral(DataLiteral(data)) == data
  {
    var lit := DataLiteral(data);
    assert lit[1..|lit| - 1] == Join([','], data);
    FieldsOfJoin(',', data);
  }

  /** pyPlot.getDataStringList as a value: one literal per data sequence. */
  function DataLiterals(p: Plot): (lits: seq<string>)
    ensures |lits| == Length(p)
  {
    seq(|p.data|, k requires 0 <= k < |p.data| => DataLiteral(p.data[k]))
  }

  /** pyPlot.getDataStringList: the loop appending one literal per sequence. */
  method GetDataStringList(p: Plot) returns (strings: seq<string>)
    ensures |strings| == Length(p)
    ensures forall k :: 0 <= k < |strings| ==> strings[k] == "[" + Join(",", p.data[k]) + "]"
  {
    strings := [];
    for k := 0 to |p.data|
      invariant |strings| == k
      invariant forall m :: 0 <= m < k ==> strings[m] == "[" + Join(",", p.data[m]) + "]"
    {
      strings := strings + ["[" + Join(",", p.data[k]) + "]"];
    }
  }

  /** 'dat_i_j_k = <literal>\n\n'. */
  function Assignment(i: nat, j: nat, k: nat, lit: string): string {
    DatName(i, j, k) + " = " + lit + "\n" + "\n"
  }

  function AssignmentParts(i: nat, j: nat, lits: seq<string>): (parts: seq<string>)
    ensures |parts| == |lits|
  {
    seq(|lits|, k requires 0 <= k < |lits| => Assignment(i, j, k, lits[k]))
  }

  /** ", label = r'<label>'": the base getConfigString. */
  function LabelConfig(seriesLabel: string): string {
    ", label = r'" + seriesLabel + "'"
  }

  /** pyLine's colour argument: quoted when get_color() gave a string, str() of it otherwise. */
  function ColorConfig(color: LineColor): string {
    match color
    case ColorString(name) => ", color = '" + name + "'"
    case ColorValue(repr) => ", color = " + repr
  }

  function LinestyleConfig(linestyle: string): string {
    ", linestyle = '" + linestyle + "'"
  }

  /** pyScatter's face colour argument: quoted for a string, a bracketed list for an RGBA row. */
  function FacecolorConfig(facecolor: FaceColor): string {
    match facecolor
    case FaceString(name) => ", facecolor = '" + name + "'"
    case FaceRgba(components) => ", facecolor = " + "[" + Join(",", components) + "]"
  }

  /** The keyword arguments getConfigString appends for each plot kind. */
  function PlotConfig(style: Style): string {
    match style
    case LineStyle(lbl, color, linestyle) => LabelConfig(lbl) + ColorConfig(color) + LinestyleConfig(linestyle)
    case ScatterStyle(lbl, facecolor) => LabelConfig(lbl) + FacecolorConfig(facecolor)
    case MeshStyle => ""
  }

  /**
   * Lines and scatters pass their label first; a line then passes its
   * colour and closes with its line style, a scatter closes with its face
   * colour. A colour mesh passes no keyword arguments at all.
   */
  lemma PlotConfigShape(style: Style)
    ensures style.MeshStyle? <==> PlotConfig(style) == ""
    ensures !style.MeshStyle? ==> StartsWith(PlotConfig(style), LabelConfig(style.seriesLabel))
    ensures style.LineStyle? ==>
              OccursAt(PlotConfig(style), ColorConfig(style.color), |LabelConfig(style.seriesLabel)|)
              && EndsWith(PlotConfig(style), LinestyleConfig(style.linestyle))
    ensures style.ScatterStyle? ==> EndsWith(PlotConfig(style), FacecolorConfig(style.facecolor))
  {
    match style
    case LineStyle(lbl, color, linestyle) =>
      var l := LabelConfig(lbl);
      var c := ColorConfig(color);
      var ls := LinestyleConfig(linestyle);
      OccursSelf(l);
      OccursExtend(l, c, l, 0);
      OccursExtend(l + c, ls, l, 0);
      StartsWithOfOccurs(PlotConfig(style), l);
      OccursAfter(l, c);
      OccursExtend(l + c, ls, c, |l|);
      OccursAfter(l + c, ls);
      EndsWithOfOccurs(PlotConfig(style), ls, |l + c|);
    case ScatterStyle(lbl, facecolor) =>
      var l := LabelConfig(lbl);
      var f := FacecolorConfig(facecolor);
      OccursSelf(l);
      OccursExtend(l, f, l, 0);
      StartsWithOfOccurs(PlotConfig(style), l);
      OccursAfter(l, f);
      EndsWithOfOccurs(PlotConfig(style), f, |l|);
    case MeshStyle =>
  }

  /** Whether the emitter writes a drawing statement for p. */
  predicate Drawn(p: Plot) {
    Length(p) == 2 || (Length(p) == 3 && p.drawMethod == "pcolormesh")
  }

  /** 'ax_i.<method>(dat_i_j_0, dat_i_j_1<config>)\n'. */
  function PairCall(i: nat, j: nat, p: Plot): string {
    AxName(i) + "." + MethodString(p) + "(" + DatName(i, j, 0) + ", " + DatName(i, j, 1)
    + PlotConfig(p.style) + ")" + "\n"
  }

  /** 'x,y = np.meshgrid(d0, d1)\n'. */
  function MeshgridLine(d0: string, d1: string): string {
    "x,y = np.meshgrid(" + d0 + ", " + d1 + ")\n"
  }

  /** Reshape the values to the grid and pad them by edge replication. */
  function PadLine(d0: string, d1: string, d2: string): string {
    "z = np.pad(" + d2 + ".reshape(len(" + d0 + ")-1, len(" + d1 + ")-1), ((0,1),(0,1)), 'edge')\n"
  }

  /** Resample the padded values onto the mesh. */
  function GriddataLine(d0: string, d1: string): string {
    "z = ml.griddata(x.flatten(), y.flatten(), z.flatten(), " + d0 + ", " + d1 + ", interp = 'linear')\n"
  }

  /** 'ax_i.pcolormesh(x,y,z<config>)\n'. */
  function MeshCall(name: string, config: string): string {
    name + ".pcolormesh(x,y,z" + config + ")\n"
  }

  /** The meshgrid / pad / griddata / pcolormesh block for a colour mesh. */
  function MeshBlock(i: nat, j: nat, p: Plot): string {
    var d0 := DatName(i, j, 0);
    var d1 := DatName(i, j, 1);
    var d2 := DatName(i, j, 2);
    MeshgridLine(d0, d1) + PadLine(d0, d1, d2) + GriddataLine(d0, d1)
    + MeshCall(AxName(i), PlotConfig(p.style))
  }

  /** The drawing statement chosen by pyPlot.length and the method. */
  function DrawText(i: nat, j: nat, p: Plot): string {
    if Length(p) == 2 then PairCall(i, j, p)
    else if Length(p) == 3 && p.drawMethod == "pcolormesh" then MeshBlock(i, j, p)
    else ""
  }

  /** Everything written for plot j of axis i. */
  function PlotText(i: nat, j: nat, p: Plot): string {
    Concat(AssignmentParts(i, j, DataLiterals(p))) + DrawText(i, j, p)
  }

  function PlotParts(i: nat, plots: seq<Plot>): (parts: seq<string>)
    ensures |parts| == |plots|
  {
    seq(|plots|, j requires 0 <= j < |plots| => PlotText(i, j, plots[j]))
  }

  /** 'name.setter(arg)\n'. */
  function Setter(name: string, setter: string, arg: string): string {
    name + "." + setter + "(" + arg + ")" + "\n"
  }

  function Quoted(s: string): string {
    "'" + s + "'"
  }

  function LimitList(lim: Limits): string {
    "[" + lim.lower + ", " + lim.upper + "]"
  }

  /** The seven statements of pyAxis.getConfigString. */
  function ConfigLines(ax: Axis, name: string): (lines: seq<string>)
    ensures |lines| == 7
  {
    [ Setter(name, "set_xscale", Quoted(ax.xscale)),
      Setter(name, "set_yscale", Quoted(ax.yscale)),
      Setter(name, "set_xlabel", Quoted(ax.xlabel)),
      Setter(name, "set_ylabel", Quoted(ax.ylabel)),
      Setter(name, "set_xlim", LimitList(ax.xlim)),
      Setter(name, "set_ylim", LimitList(ax.ylim)),
      Setter(name, "set_title", Quoted(ax.title)) ]
  }

  /** A setter statement is a call of a 'set_' method on the axis that ends its line. */
  lemma SetterShape(name: string, setter: string, arg: string)
    requires StartsWith(setter, "set_")
    ensures StartsWith(Setter(name, setter, arg), name + ".set_")
    ensures EndsWith(Setter(name, setter, arg), ")\n")
  {
    var rest := setter[4..];
    assert setter == "set_" + rest;
    var head := name + ".set_";
    assert name + "." + setter == head + rest;
    var tail := rest + "(" + arg + ")" + "\n";
    assert Setter(name, setter, arg) == head + tail;
    OccursSelf(head);
    OccursExtend(head, tail, head, 0);
    StartsWithOfOccurs(Setter(name, setter, arg), head);
    EndsWithAppend(name + "." + setter + "(" + arg, ")" + "\n", ")\n") by {
      assert (")" + "\n")[0..] == ")\n";
    }
  }

  /** The configuration block: seven setter lines on the axis and a blank line. */
  lemma ConfigLinesShape(ax: Axis, name: string)
    ensures forall k :: 0 <= k < 7 ==>
              StartsWith(ConfigLines(ax, name)[k], name + ".set_") && EndsWith(ConfigLines(ax, name)[k], ")\n")
    ensures AxisConfig(ax, name) == Concat(ConfigLines(ax, name)) + "\n"
  {
    SetterShape(name, "set_xscale", Quoted(ax.xscale));
    SetterShape(name, "set_yscale", Quoted(ax.yscale));
    SetterShape(name, "set_xlabel", Quoted(ax.xlabel));
    SetterShape(name, "set_ylabel", Quoted(ax.ylabel));
    SetterShape(name, "set_xlim", LimitList(ax.xlim));
    SetterShape(name, "set_ylim", LimitList(ax.ylim));
    SetterShape(name, "set_title", Quoted(ax.title));
  }

  /** pyAxis.getConfigString: the seven statements and a blank line. */
  function AxisConfig(ax: Axis, name: string): (cstr: string)
    ensures EndsWith(cstr, ")\n\n")
  {
    var lines := ConfigLines(ax, name);
    assert lines[..6] + [lines[6]] == lines;
    Concat(lines) + "\n"
  }

  /** 'ax_i.legend() \n'. */
  function LegendLine(name: string): string {
    name + ".legend() \n"
  }

  /** pyAxis.getLegendString: a legend call for an axis with a legend, nothing otherwise. */
  function LegendText(ax: Axis, name: string): (legend: string)
    ensures legend != "" <==> ax.hasLegend
  {
    if ax.hasLegend then LegendLine(name) else ""
  }

  /** Everything written for axis i. */
  function AxisText(i: nat, ax: Axis, nx: nat, ny: nat): string {
    SubplotLine(i, nx, ny) + "\n" + Concat(PlotParts(i, ax.plots))
    + AxisConfig(ax, AxName(i)) + LegendText(ax, AxName(i))
  }

  function AxisParts(axes: seq<Axis>, nx: nat, ny: nat): (parts: seq<string>)
    ensures |parts| == |axes|
  {
    seq(|axes|, i requires 0 <= i < |axes| => AxisText(i, axes[i], nx, ny))
  }

  /** Where the text of axis i starts in the file. */
  function AxisOffset(fig: Figure, i: nat): nat
    requires i <= |fig.axes|
  {
    var n := |fig.axes|;
    |Header| + |Concat(AxisParts(fig.axes, GridRows(n), GridColumns(n))[..i])|
  }

  /** The whole script, as pyFigure.getFileString returns it. */
  function FileText(fig: Figure): string {
    var n := |fig.axes|;
    Header + Concat(AxisParts(fig.axes, GridRows(n), GridColumns(n))) + ShowLine
  }

  // ---------------------------------------------------------------------
  // What the emitted text promises

  /**
   * The script opens with the imports, the style call, a blank line and
   * the figure, and closes with the show call; a figure without axes gets
   * nothing in between.
   */
  lemma FileTextFrame(fig: Figure)
    ensures StartsWith(FileText(fig), Preamble + FigureLine)
    ensures EndsWith(FileText(fig), ShowLine)
    ensures |fig.axes| == 0 ==> FileText(fig) == Preamble + FigureLine + ShowLine
  {
    var n := |fig.axes|;
    var t := FileText(fig);
    assert t[..|Header|] == Header;
    assert t[|t| - |ShowLine|..] == ShowLine;
    if n == 0 {
      assert AxisParts(fig.axes, GridRows(n), GridColumns(n)) == [];
    }
  }

  /** The text of axis i stands at AxisOffset(fig, i), and axis i + 1 follows right after it. */
  lemma AxisTextAt(fig: Figure, i: nat)
    requires i < |fig.axes|
    ensures OccursAt(FileText(fig),
                     AxisText(i, fig.axes[i], GridRows(|fig.axes|), GridColumns(|fig.axes|)),
                     AxisOffset(fig, i))
    ensures AxisOffset(fig, i + 1) == AxisOffset(fig, i)
              + |AxisText(i, fig.axes[i], GridRows(|fig.axes|), GridColumns(|fig.axes|))|
  {
    var n := |fig.axes|;
    hide AxisText, GridRows, GridColumns;
    var parts := AxisParts(fig.axes, GridRows(n), GridColumns(n));
    ConcatAtWithin(Header, parts, ShowLine, i);
  }

  /** The text of an axis opens with its subplot line. */
  lemma SubplotLineFirst(i: nat, ax: Axis, nx: nat, ny: nat)
    ensures OccursAt(AxisText(i, ax, nx, ny), SubplotLine(i, nx, ny), 0)
  {
    hide SubplotLine, PlotParts, AxisConfig, LegendText, AxName;
    var sub := SubplotLine(i, nx, ny);
    var plots := Concat(PlotParts(i, ax.plots));
    var config := AxisConfig(ax, AxName(i));
    OccursSelf(sub);
    OccursExtend(sub, "\n", sub, 0);
    OccursExtend(sub + "\n", plots, sub, 0);
    OccursExtend(sub + "\n" + plots, config, sub, 0);
    OccursExtend(sub + "\n" + plots + config, LegendText(ax, AxName(i)), sub, 0);
  }

  /**
   * Axis i is created by the line 'ax_i = fig.add_subplot(nx, ny, i+1)'
   * at the start of its text, with the grid of GridRows by GridColumns
   * cells, and the 1-based position i + 1 fits in that grid.
   */
  lemma SubplotLineAt(fig: Figure, i: nat)
    requires i < |fig.axes|
    ensures OccursAt(FileText(fig),
                     SubplotLine(i, GridRows(|fig.axes|), GridColumns(|fig.axes|)),
                     AxisOffset(fig, i))
    ensures i + 1 <= GridRows(|fig.axes|) * GridColumns(|fig.axes|)
  {
    hide *;
    var n := |fig.axes|;
    AxisTextAt(fig, i);
    SubplotLineFirst(i, fig.axes[i], GridRows(n), GridColumns(n));
    OccursWithin(FileText(fig), AxisText(i, fig.axes[i], GridRows(n), GridColumns(n)),
                 SubplotLine(i, GridRows(n), GridColumns(n)), AxisOffset(fig, i), 0);
    GridFits(n);
  }

  /** Where the text of plot j starts within the text of its axis. */
  function PlotOffsetInAxis(i: nat, ax: Axis, nx: nat, ny: nat, j: nat): nat
    requires j <= |ax.plots|
  {
    |SubplotLine(i, nx, ny)| + 1 + |Concat(PlotParts(i, ax.plots)[..j])|
  }

  /** The plots of an axis follow its subplot line and a blank line, one after the other. */
  lemma PlotTextInAxis(i: nat, ax: Axis, nx: nat, ny: nat, j: nat)
    requires j < |ax.plots|
    ensures OccursAt(AxisText(i, ax, nx, ny), PlotText(i, j, ax.plots[j]), PlotOffsetInAxis(i, ax, nx, ny, j))
    ensures PlotOffsetInAxis(i, ax, nx, ny, j + 1)
         == PlotOffsetInAxis(i, ax, nx, ny, j) + |PlotText(i, j, ax.plots[j])|
  {
    hide PlotText, SubplotLine, AxisConfig, LegendText, AxName;
    var head := SubplotLine(i, nx, ny) + "\n";
    var parts := PlotParts(i, ax.plots);
    ConcatAt(parts, j);
    ConcatStep(parts, j);
    OccursInMiddle(head, Concat(parts), AxisConfig(ax, AxName(i)), LegendText(ax, AxName(i)),
                   parts[j], |Concat(parts[..j])|);
  }

  /** Where the text of plot j of axis i starts in the file. */
  function PlotOffset(fig: Figure, i: nat, j: nat): nat
    requires i < |fig.axes| && j <= |fig.axes[i].plots|
  {
    var n := |fig.axes|;
    AxisOffset(fig, i) + PlotOffsetInAxis(i, fig.axes[i], GridRows(n), GridColumns(n), j)
  }

  /** The text of plot j stands at PlotOffset(fig, i, j), and plot j + 1 follows right after it. */
  lemma PlotTextAt(fig: Figure, i: nat, j: nat)
    requires i < |fig.axes| && j < |fig.axes[i].plots|
    ensures OccursAt(FileText(fig), PlotText(i, j, fig.axes[i].plots[j]), PlotOffset(fig, i, j))
    ensures PlotOffset(fig, i, j + 1) == PlotOffset(fig, i, j) + |PlotText(i, j, fig.axes[i].plots[j])|
  {
    hide FileText, AxisText, PlotText, AxisOffset, PlotOffsetInAxis, GridRows, GridColumns;
    var n := |fig.axes|;
    var ax := fig.axes[i];
    AxisTextAt(fig, i);
    PlotTextInAxis(i, ax, GridRows(n), GridColumns(n), j);
    OccursWithin(FileText(fig), AxisText(i, ax, GridRows(n), GridColumns(n)), PlotText(i, j, ax.plots[j]),
                 AxisOffset(fig, i), PlotOffsetInAxis(i, ax, GridRows(n), GridColumns(n), j));
  }

  /** Where the assignment of data sequence k starts within the text of its plot. */
  function AssignmentOffset(i: nat, j: nat, p: Plot, k: nat): nat
    requires k <= Length(p)
  {
    |Concat(AssignmentParts(i, j, DataLiterals(p))[..k])|
  }

  /**
   * A plot with k data sequences writes k assignments, 'dat_i_j_0' to
   * 'dat_i_j_{k-1}', one after the other, each binding the literal of its
   * sequence; the drawing statement comes after the last of them.
   */
  lemma AssignmentAt(i: nat, j: nat, p: Plot, k: nat)
    requires k < Length(p)
    ensures OccursAt(PlotText(i, j, p), Assignment(i, j, k, DataLiteral(p.data[k])),
                     AssignmentOffset(i, j, p, k))
    ensures AssignmentOffset(i, j, p, k + 1)
         == AssignmentOffset(i, j, p, k) + |Assignment(i, j, k, DataLiteral(p.data[k]))|
    ensures AssignmentOffset(i, j, p, Length(p)) + |DrawText(i, j, p)| == |PlotText(i, j, p)|
    ensures OccursAt(PlotText(i, j, p), DrawText(i, j, p), AssignmentOffset(i, j, p, Length(p)))
  {
    hide Assignment, DatName, DataLiteral, DrawText;
    var parts := AssignmentParts(i, j, DataLiterals(p));
    ConcatAt(parts, k);
    ConcatStep(parts, k);
    assert parts[..Length(p)] == parts;
    OccursExtend(Concat(parts), DrawText(i, j, p), parts[k], |Concat(parts[..k])|);
    OccursAfter(Concat(parts), DrawText(i, j, p));
  }

  /** The assignment of dat_i_j_k, as it stands in the whole file. */
  lemma AssignmentInFile(fig: Figure, i: nat, j: nat, k: nat)
    requires i < |fig.axes| && j < |fig.axes[i].plots| && k < Length(fig.axes[i].plots[j])
    ensures OccursAt(FileText(fig),
                     Assignment(i, j, k, DataLiteral(fig.axes[i].plots[j].data[k])),
                     PlotOffset(fig, i, j) + AssignmentOffset(i, j, fig.axes[i].plots[j], k))
  {
    hide FileText, PlotText, Assignment, DataLiteral, PlotOffset, AssignmentOffset, DatName;
    var p := fig.axes[i].plots[j];
    PlotTextAt(fig, i, j);
    AssignmentAt(i, j, p, k);
    OccursWithin(FileText(fig), PlotText(i, j, p), Assignment(i, j, k, DataLiteral(p.data[k])),
                 PlotOffset(fig, i, j), AssignmentOffset(i, j, p, k));
  }

  /** The layout of 'open d0, d1 cfg)\n', for any pieces. */
  lemma CallShape(open: string, d0: string, d1: string, cfg: string)
    ensures StartsWith(open + d0 + ", " + d1 + cfg + ")" + "\n", open)
    ensures OccursAt(open + d0 + ", " + d1 + cfg + ")" + "\n", d0, |open|)
    ensures OccursAt(open + d0 + ", " + d1 + cfg + ")" + "\n", ", " + d1, |open + d0|)
    ensures OccursAt(open + d0 + ", " + d1 + cfg + ")" + "\n", cfg, |open + d0 + ", " + d1|)
    ensures EndsWith(open + d0 + ", " + d1 + cfg + ")" + "\n", ")\n")
  {
    var sep1 := ", " + d1;
    var upTo1 := open + d0 + ", " + d1;
    assert upTo1 == open + d0 + sep1;
    var call := upTo1 + cfg + ")" + "\n";
    assert call == open + d0 + sep1 + (cfg + ")" + "\n");
    assert call == upTo1 + cfg + (")" + "\n");
    OccursSelf(open);
    OccursExtend(open, d0 + sep1 + (cfg + ")" + "\n"), open, 0);
    assert open + (d0 + sep1 + (cfg + ")" + "\n")) == call;
    StartsWithOfOccurs(call, open);
    OccursInMiddle(open, d0, sep1, cfg + ")" + "\n", d0, 0) by { OccursSelf(d0); }
    OccursInMiddle(open + d0, sep1, cfg, ")" + "\n", sep1, 0) by { OccursSelf(sep1); }
    assert call == (open + d0) + sep1 + cfg + (")" + "\n");
    OccursInMiddle(upTo1, cfg, ")", "\n", cfg, 0) by { OccursSelf(cfg); }
    EndsWithAppend(upTo1 + cfg, ")" + "\n", ")\n") by {
      assert (")" + "\n")[0..] == ")\n";
    }
  }

  /** Both data variables appear in such a call. */
  lemma CallMentions(open: string, d0: string, d1: string, cfg: string)
    ensures Contains(open + d0 + ", " + d1 + cfg + ")" + "\n", d0)
    ensures Contains(open + d0 + ", " + d1 + cfg + ")" + "\n", d1)
  {
    var call := open + d0 + ", " + d1 + cfg + ")" + "\n";
    CallShape(open, d0, d1, cfg);
    ContainsOfOccurs(call, d0, |open|);
    OccursWithin(call, ", " + d1, d1, |open + d0|, 2) by {
      OccursAfter(", ", d1);
    }
    ContainsOfOccurs(call, d1, |open + d0| + 2);
  }

  /**
   * The call for a two-sequence plot is 'ax_i.<method>(' followed by
   * dat_i_j_0, ', ', dat_i_j_1 and the keyword arguments, and closes its line.
   */
  lemma PairCallShape(i: nat, j: nat, p: Plot)
    ensures StartsWith(PairCall(i, j, p), AxName(i) + "." + MethodString(p) + "(")
    ensures OccursAt(PairCall(i, j, p), DatName(i, j, 0), |AxName(i) + "." + MethodString(p) + "("|)
    ensures OccursAt(PairCall(i, j, p), ", " + DatName(i, j, 1),
                     |AxName(i) + "." + MethodString(p) + "(" + DatName(i, j, 0)|)
    ensures OccursAt(PairCall(i, j, p), PlotConfig(p.style),
                     |AxName(i) + "." + MethodString(p) + "(" + DatName(i, j, 0) + ", " + DatName(i, j, 1)|)
    ensures EndsWith(PairCall(i, j, p), ")\n")
    ensures Contains(PairCall(i, j, p), DatName(i, j, 0)) && Contains(PairCall(i, j, p), DatName(i, j, 1))
  {
    hide AxName, DatName, MethodString, PlotConfig;
    CallShape(AxName(i) + "." + MethodString(p) + "(", DatName(i, j, 0), DatName(i, j, 1), PlotConfig(p.style));
    CallMentions(AxName(i) + "." + MethodString(p) + "(", DatName(i, j, 0), DatName(i, j, 1), PlotConfig(p.style));
  }

  /**
   * The colour-mesh block opens with the meshgrid of dat_i_j_0 and
   * dat_i_j_1, uses dat_i_j_2 for the values and ends with the
   * pcolormesh call on the axis.
   */
  lemma MeshBlockShape(i: nat, j: nat, p: Plot)
    ensures StartsWith(MeshBlock(i, j, p), MeshgridLine(DatName(i, j, 0), DatName(i, j, 1)))
    ensures Contains(MeshBlock(i, j, p), DatName(i, j, 2))
    ensures EndsWith(MeshBlock(i, j, p), MeshCall(AxName(i), PlotConfig(p.style)))
  {
    hide DatName, AxName, PlotConfig, MeshgridLine, GriddataLine, MeshCall;
    var d0 := DatName(i, j, 0);
    var d1 := DatName(i, j, 1);
    var d2 := DatName(i, j, 2);
    var l1 := MeshgridLine(d0, d1);
    var l2 := PadLine(d0, d1, d2);
    var l3 := GriddataLine(d0, d1);
    var l4 := MeshCall(AxName(i), PlotConfig(p.style));
    assert MeshBlock(i, j, p) == l1 + l2 + l3 + l4;
    OccursSelf(l1);
    OccursExtend(l1, l2, l1, 0);
    OccursExtend(l1 + l2, l3, l1, 0);
    OccursExtend(l1 + l2 + l3, l4, l1, 0);
    StartsWithOfOccurs(l1 + l2 + l3 + l4, l1);
    var padHead := "z = np.pad(";
    var padRest := ".reshape(len(" + d0 + ")-1, len(" + d1 + ")-1), ((0,1),(0,1)), 'edge')\n";
    assert l2 == padHead + d2 + padRest;
    OccursAfter(padHead, d2);
    OccursExtend(padHead + d2, padRest, d2, |padHead|);
    OccursShift(l1, l2, d2, |padHead|);
    OccursExtend(l1 + l2, l3, d2, |l1| + |padHead|);
    OccursExtend(l1 + l2 + l3, l4, d2, |l1| + |padHead|);
    ContainsOfOccurs(l1 + l2 + l3 + l4, d2, |l1| + |padHead|);
    OccursAfter(l1 + l2 + l3, l4);
    EndsWithOfOccurs(l1 + l2 + l3 + l4, l4, |l1 + l2 + l3|);
  }

  /**
   * The drawing statement: for two data sequences a call of the plot's
   * method on dat_i_j_0 and dat_i_j_1; for three sequences of a colour mesh
   * the meshgrid block ending in a pcolormesh call that uses all three;
   * for anything else nothing, so the plot leaves only its assignments.
   */
  lemma DrawTextShape(i: nat, j: nat, p: Plot)
    ensures Drawn(p) <==> DrawText(i, j, p) != ""
    ensures !Drawn(p) ==> PlotText(i, j, p) == Concat(AssignmentParts(i, j, DataLiterals(p)))
    ensures Length(p) == 2 ==>
              StartsWith(DrawText(i, j, p), AxName(i) + "." + MethodString(p) + "(")
              && Contains(DrawText(i, j, p), DatName(i, j, 0))
              && Contains(DrawText(i, j, p), DatName(i, j, 1))
              && EndsWith(DrawText(i, j, p), ")\n")
    ensures Length(p) == 3 && p.drawMethod == "pcolormesh" ==>
              StartsWith(DrawText(i, j, p), MeshgridLine(DatName(i, j, 0), DatName(i, j, 1)))
              && Contains(DrawText(i, j, p), DatName(i, j, 2))
              && EndsWith(DrawText(i, j, p), MeshCall(AxName(i), PlotConfig(p.style)))
  {
    if Length(p) == 2 {
      PairCallShape(i, j, p);
    } else if Length(p) == 3 && p.drawMethod == "pcolormesh" {
      MeshBlockShape(i, j, p);
    } else {
      assert Concat(AssignmentParts(i, j, DataLiterals(p))) + "" == PlotText(i, j, p);
    }
  }

  /** The text of an axis: its head (subplot line and plots), config block and legend text. */
  lemma AxisTextSplit(i: nat, ax: Axis, nx: nat, ny: nat)
    ensures AxisText(i, ax, nx, ny)
         == (SubplotLine(i, nx, ny) + "\n" + Concat(PlotParts(i, ax.plots)))
            + (AxisConfig(ax, AxName(i)) + LegendText(ax, AxName(i)))
  {
  }

  /** The configuration block and the legend text close the axis's text. */
  lemma ConfigBlockLast(i: nat, ax: Axis, nx: nat, ny: nat)
    ensures EndsWith(AxisText(i, ax, nx, ny), AxisConfig(ax, AxName(i)) + LegendText(ax, AxName(i)))
  {
    var tail := AxisConfig(ax, AxName(i)) + LegendText(ax, AxName(i));
    AxisTextSplit(i, ax, nx, ny);
    EndsWithAppend(SubplotLine(i, nx, ny) + "\n" + Concat(PlotParts(i, ax.plots)), tail, tail) by {
      assert tail[0..] == tail;
    }
  }

  /** With a legend, the axis's text ends with the legend line. */
  lemma LegendLineLast(i: nat, ax: Axis, nx: nat, ny: nat)
    requires ax.hasLegend
    ensures EndsWith(AxisText(i, ax, nx, ny), LegendLine(AxName(i)))
  {
    var l := LegendLine(AxName(i));
    AxisTextSplit(i, ax, nx, ny);
    EndsWithAppend(SubplotLine(i, nx, ny) + "\n" + Concat(PlotParts(i, ax.plots)) + AxisConfig(ax, AxName(i)), l, l) by {
      assert l[0..] == l;
    }
  }

  /** Without a legend, the axis's text ends with the blank line of its config block instead. */
  lemma NoLegendLine(i: nat, ax: Axis, nx: nat, ny: nat)
    requires !ax.hasLegend
    ensures !EndsWith(AxisText(i, ax, nx, ny), LegendLine(AxName(i)))
  {
    var head := SubplotLine(i, nx, ny) + "\n" + Concat(PlotParts(i, ax.plots));
    var config := AxisConfig(ax, AxName(i));
    assert AxisText(i, ax, nx, ny) == head + config;
    EndsWithAppend(head, config, ")\n\n");
    var l := LegendLine(AxName(i));
    assert l[|l| - 2] == ' ';
    EndingsDiffer(head + config, ")\n\n", l, 1);
  }

  /**
   * Each axis's text ends with its configuration block, followed by the
   * line 'ax_i.legend() ' exactly when the axis has a legend.
   */
  lemma LegendIff(i: nat, ax: Axis, nx: nat, ny: nat)
    ensures EndsWith(AxisText(i, ax, nx, ny), LegendLine(AxName(i))) <==> ax.hasLegend
    ensures EndsWith(AxisText(i, ax, nx, ny), AxisConfig(ax, AxName(i)) + LegendText(ax, AxName(i)))
  {
    ConfigBlockLast(i, ax, nx, ny);
    if ax.hasLegend {
      LegendLineLast(i, ax, nx, ny);
    } else {
      NoLegendLine(i, ax, nx, ny);
    }
  }

  // ---------------------------------------------------------------------
  // The methods

  /**
   * getConfigString of pyLine, pyScatter and pyColormesh, built by `+=`
   * on top of the label argument of pyPlot.getConfigString.
   */
  method GetPlotConfigString(p: Plot) returns (cstr: string)
    ensures cstr == PlotConfig(p.style)
  {
    match p.style
    case LineStyle(lbl, color, linestyle) =>
      cstr := "";
      cstr := cstr + LabelConfig(lbl);
      assert cstr == LabelConfig(lbl);
      match color {
        case ColorString(name) => cstr := cstr + (", color = '" + name + "'");
        case ColorValue(repr) => cstr := cstr + (", color = " + repr);
      }
      cstr := cstr + (", linestyle = '" + linestyle + "'");
    case ScatterStyle(lbl, facecolor) =>
      cstr := "";
      cstr := cstr + LabelConfig(lbl);
      assert cstr == LabelConfig(lbl);
      match facecolor {
        case FaceString(name) => cstr := cstr + (", facecolor = '" + name + "'");
        case FaceRgba(components) => cstr := cstr + (", facecolor = " + "[" + Join(",", components) + "]");
      }
    case MeshStyle =>
      cstr := "";
  }

  /** Seven chunks concatenate to their sum, in order. */
  lemma ConcatSeven(lines: seq<string>)
    requires |lines| == 7
    ensures Concat(lines)
         == "" + lines[0] + lines[1] + lines[2] + lines[3] + lines[4] + lines[5] + lines[6]
  {
    assert Concat(lines[..0]) == "";
    ConcatStep(lines, 0);
    ConcatStep(lines, 1);
    ConcatStep(lines, 2);
    ConcatStep(lines, 3);
    ConcatStep(lines, 4);
    ConcatStep(lines, 5);
    ConcatStep(lines, 6);
    assert lines[..7] == lines;
  }

  /** pyAxis.getConfigString: seven setter statements and a blank line, built by `+=`. */
  method GetAxisConfigString(ax: Axis, axStr: string) returns (cstr: string)
    ensures cstr == AxisConfig(ax, axStr)
  {
    cstr := "";
    cstr := cstr + Setter(axStr, "set_xscale", Quoted(ax.xscale));
    cstr := cstr + Setter(axStr, "set_yscale", Quoted(ax.yscale));
    cstr := cstr + Setter(axStr, "set_xlabel", Quoted(ax.xlabel));
    cstr := cstr + Setter(axStr, "set_ylabel", Quoted(ax.ylabel));
    cstr := cstr + Setter(axStr, "set_xlim", LimitList(ax.xlim));
    cstr := cstr + Setter(axStr, "set_ylim", LimitList(ax.ylim));
    cstr := cstr + Setter(axStr, "set_title", Quoted(ax.title));
    ConcatSeven(ConfigLines(ax, axStr));
    cstr := cstr + "\n";
  }

  /**
   * The body of getFileString's plot loop: the data assignments of plot
   * iPlot on axis iAx, then its drawing statement, appended to fstr.
   */
  method AppendPlot(fstr0: string, iAx: nat, iPlot: nat, plot: Plot) returns (fstr: string)
    ensures fstr == fstr0 + PlotText(iAx, iPlot, plot)
  {
    hide Decimal, DatName, AxName, PlotConfig;
    fstr := fstr0;
    var axStr := AxName(iAx);
    var strs := GetDataStringList(plot);
    assert strs == DataLiterals(plot);
    ghost var assignParts := AssignmentParts(iAx, iPlot, strs);
    for iDat := 0 to |strs|
      invariant fstr == fstr0 + Concat(assignParts[..iDat])
    {
      var varStr := DatName(iAx, iPlot, iDat);
      ghost var datStart := fstr;
      fstr := fstr + (varStr + " = " + strs[iDat] + "\n");
      fstr := fstr + "\n";
      ConcatStep(assignParts, iDat);
      AppendAssoc(fstr0, Concat(assignParts[..iDat]), assignParts[iDat]);
      AppendAssoc(datStart, varStr + " = " + strs[iDat] + "\n", "\n");
    }
    assert assignParts[..|strs|] == assignParts;
    ghost var drawStart := fstr;
    if Length(plot) == 2 {
      var dat1Str := DatName(iAx, iPlot, 0);
      var dat2Str := DatName(iAx, iPlot, 1);
      var config := GetPlotConfigString(plot);
      var call := axStr + "." + MethodString(plot) + "(" + dat1Str + ", " + dat2Str + config + ")";
      fstr := fstr + call;
      fstr := fstr + "\n";
      AppendAssoc(drawStart, call, "\n");
    } else if Length(plot) == 3 && plot.drawMethod == "pcolormesh" {
      var dat1Str := DatName(iAx, iPlot, 0);
      var dat2Str := DatName(iAx, iPlot, 1);
      var dat3Str := DatName(iAx, iPlot, 2);
      var config := GetPlotConfigString(plot);
      var l1 := MeshgridLine(dat1Str, dat2Str);
      var l2 := PadLine(dat1Str, dat2Str, dat3Str);
      var l3 := GriddataLine(dat1Str, dat2Str);
      var l4 := MeshCall(axStr, config);
      fstr := fstr + l1;
      fstr := fstr + l2;
      fstr := fstr + l3;
      fstr := fstr + l4;
      AppendAssoc(drawStart, l1, l2);
      AppendAssoc(drawStart, l1 + l2, l3);
      AppendAssoc(drawStart, l1 + l2 + l3, l4);
    }
    assert fstr == drawStart + DrawText(iAx, iPlot, plot);
    AppendAssoc(fstr0, Concat(assignParts), DrawText(iAx, iPlot, plot));
  }

  /**
   * The body of getFileString's axis loop: the subplot line of axis iAx,
   * its plots, its configuration block and its legend line, appended to fstr.
   */
  method AppendAxis(fstr0: string, iAx: nat, ax: Axis, numX: nat, numY: nat) returns (fstr: string)
    ensures fstr == fstr0 + AxisText(iAx, ax, numX, numY)
  {
    var axStr := AxName(iAx);
    fstr := fstr0 + (axStr + " = fig.add_subplot(" + Decimal(numX) + ", " + Decimal(numY) + ", "
                     + Decimal(iAx + 1) + ")\n");
    fstr := fstr + "\n";
    ghost var head := fstr;
    ghost var plotParts := PlotParts(iAx, ax.plots);
    for iPlot := 0 to |ax.plots|
      invariant fstr == head + Concat(plotParts[..iPlot])
    {
      fstr := AppendPlot(fstr, iAx, iPlot, ax.plots[iPlot]);
      ConcatStep(plotParts, iPlot);
      AppendAssoc(head, Concat(plotParts[..iPlot]), plotParts[iPlot]);
    }
    assert plotParts[..|ax.plots|] == plotParts;
    var cstr := GetAxisConfigString(ax, axStr);
    fstr := fstr + cstr;
    fstr := fstr + LegendText(ax, axStr);
    ghost var sub := SubplotLine(iAx, numX, numY);
    ghost var plotsText := Concat(plotParts);
    AppendAssoc(fstr0, sub, "\n");
    AppendAssoc(fstr0, sub + "\n", plotsText);
    AppendAssoc(fstr0, sub + "\n" + plotsText, AxisConfig(ax, axStr));
    AppendAssoc(fstr0, sub + "\n" + plotsText + AxisConfig(ax, axStr), LegendText(ax, axStr));
  }

  /** pyFigure.getFileString: accumulate the script through the nested loops. */
  method GetFileString(fig: Figure) returns (fstr: string)
    ensures fstr == FileText(fig)
    ensures StartsWith(fstr, Preamble + FigureLine)
    ensures EndsWith(fstr, ShowLine)
  {
    fstr := "";
    fstr := fstr + ImportNumpy;
    fstr := fstr + ImportPyplot;
    fstr := fstr + ImportMlab;
    fstr := fstr + ImportSeaborn;
    fstr := fstr + SetStyle;
    fstr := fstr + "\n";
    fstr := fstr + FigureLine;
    assert "" + ImportNumpy == ImportNumpy;

    hide AxisText, GridRows, GridColumns;
    var n := |fig.axes|;
    var numX := GridRows(n);
    var numY := GridColumns(n);
    ghost var axisParts := AxisParts(fig.axes, numX, numY);
    for iAx := 0 to n
      invariant fstr == Header + Concat(axisParts[..iAx])
    {
      fstr := AppendAxis(fstr, iAx, fig.axes[iAx], numX, numY);
      ConcatStep(axisParts, iAx);
      AppendAssoc(Header, Concat(axisParts[..iAx]), axisParts[iAx]);
    }
    assert axisParts[..n] == axisParts;
    fstr := fstr + ShowLine;
    FileTextFrame(fig);
  }
}
