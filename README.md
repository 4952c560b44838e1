# figurine, modelled in Dafny

figurine turns a live matplotlib figure into a plain Python script that
redraws it. `saveFigurine(fig, filename)` adds `.py` to the file name when it
is missing. It then builds a `pyFigure`. The constructor of `pyFigure` builds
one `pyAxis` per axis of the figure. Each `pyAxis` collects its lines first,
as `pyLine`s. It then collects its collections in order: every
`PathCollection` becomes a `pyScatter` and every `QuadMesh` becomes a
`pyColormesh`. Finally `pyFigure.getFileString` writes the script. The script
has these parts:

- an import preamble;
- the figure call;
- for each axis, an `add_subplot` line on a ceil(sqrt(n)) × round(sqrt(n)) grid;
- one `dat_i_j_k = [...]` assignment per data sequence of each plot;
- the drawing call of each plot (`plot`, `scatter`, or a `pcolormesh` block
  with its `meshgrid`/`pad`/`griddata` lines);
- the axis configuration block and, when the axis has a legend, a legend call;
- finally `plt.show(block=True)`.

The project has five modules:

- `Text` (text.dfy): decimal rendering as `%d` does it, `','.join`,
  substring search, and concatenation of a sequence of strings, each with
  the facts the proofs use.
- `Grid` (grid.dfy): the subplot grid. `np.ceil(np.sqrt(n))` and
  `int(round(np.sqrt(n)))` are defined on integers and characterised by
  lemmas.
- `Model` (model.dfy): the figure as its getters report it
  (`FigureSource`, `AxisSource`, `LineSource`, `CollectionSource`), and
  the snapshot the classes build from it (`Figure`, `Axis`, `Plot`). It
  holds the constructors of `pyLine`, `pyScatter` and `pyColormesh`, the
  classification loop of `pyAxis.__init__` and the axis loop of
  `pyFigure.__init__`.
- `Emitter` (emitter.dfy): `FileText`, the script as a specification
  function assembled from its parts. It also holds the methods that
  build the text by `+=` as the source does (`GetFileString`,
  `AppendAxis`, `AppendPlot`, `GetDataStringList`, `GetPlotConfigString`,
  `GetAxisConfigString`), each proved to produce exactly that text. The
  lemmas state where each piece of the script sits.
- `Figurine` (figurine.dfy): `saveFigurine`, meaning the file-name rule
  and the orchestration. The method returns the path and the contents
  instead of writing them.

The source's objects are built once and never changed afterwards, so
`Figure`, `Axis` and `Plot` are values. Where the code lives:

- Methods with `for` loops and invariants:
  - the axis loop of `pyFigure.__init__` is `NewFigure`;
  - the line and collection loops of `pyAxis.__init__` are `NewAxis`;
  - the axis, plot and data loops of `getFileString` are `GetFileString`,
    `AppendAxis` and `AppendPlot`;
  - the loop of `getDataStringList` is `GetDataStringList`.
- Methods without a loop: the straight-line `+=` sequences of the
  `getConfigString` methods are `GetPlotConfigString` and
  `GetAxisConfigString`.
- Functions:
  - the copying loops of the `pyLine` and `pyScatter` constructors
    (figurine.py:185-186, 203-204) always yield exactly two sequences, so
    they are the functions `LineOf` and `ScatterOf`, next to `MeshOf`;
  - `length`, `getMethodString` and `getLegendString` are the functions
    `Length`, `MethodString` and `LegendText`.

## Model

| member | source | states |
|---|---|---|
| Figurine.LastThree | figurine.py:50 | `filename[-3:]` is a suffix of the name: three characters long, or the whole name when it is shorter |
| Figurine.NormaliseFilename | figurine.py:50-51 | the path always ends with `.py`; a name that ends with `.py` is kept unchanged; any other name gets exactly `.py` appended |
| Figurine.NormaliseIdempotent | figurine.py:50-51 | normalising a normalised path changes nothing |
| Figurine.SaveFigurine | figurine.py:33-54 | returns the normalised path, the `pyFigure` built from the figure, and the text `getFileString` produces (starts with the preamble and figure line, ends with the show call) |
| Model.NewFigure | figurine.py:61-66 | one `pyAxis` per axis of the figure, in the figure's order, each built from its axis |
| Model.NewAxis | figurine.py:119-129 | the plots are the lines' `pyLine`s, in order and first, followed by the plots of the collections in their order |
| Model.Length | figurine.py:163-165 | `pyPlot.length`, the number of data sequences: 2 for lines and scatters and 3 for meshes (`LineOf`, `ScatterOf`, `MeshOf`), the count of literals `GetDataStringList` returns, and what the drawing branch tests (`DrawTextShape`) |
| Model.MethodString | figurine.py:178-179 | `getMethodString`: `plot`, `scatter` or `pcolormesh` by plot kind (`LineOf`, `ScatterOf`, `MeshOf`), the name used in the two-sequence drawing call (`PairCallShape`) |
| Model.LineOf | figurine.py:181-196 | a `pyLine` has method `plot`, two data sequences (the x and y data of `get_data()`), and a style carrying the line's label, colour and line style, which its `getConfigString` reads |
| Model.ScatterOf | figurine.py:198-213 | a `pyScatter` has method `scatter`, two data sequences (the x and the y column of the offsets, row by row), and a style carrying the item's label and first face colour, which its `getConfigString` reads |
| Model.MeshOf | figurine.py:215-225 | a `pyColormesh` has method `pcolormesh`, three data sequences (the unique x coordinates twice, then the value array), and the style that passes no keyword arguments |
| Model.LinesInOrder | figurine.py:122-129 | the axis's `plot` entries are exactly its lines, in order |
| Model.ScattersInOrder | figurine.py:124-129 | the axis's `scatter` entries are exactly its `PathCollection` items, in order |
| Model.MeshesInOrder | figurine.py:124-129 | the axis's `pcolormesh` entries are exactly its `QuadMesh` items, in order |
| Model.PlotCount | figurine.py:122-129 | the plot count (`self.length`) is the number of lines plus the number of `PathCollection` items plus the number of `QuadMesh` items |
| Model.OtherKindIgnored | figurine.py:124-128 | a collection whose type names neither kind adds no plot |
| Model.PathCollectionIsScatter | figurine.py:125-126 | an item whose type name contains `PathCollection` (and not `QuadMesh`) gives exactly one scatter |
| Model.QuadMeshIsMesh | figurine.py:127-128 | an item whose type name contains `QuadMesh` (and not `PathCollection`) gives exactly one colour mesh |
| Model.PlotsWithMethodAppend | figurine.py:122-128 | selecting plots by method distributes over appending, which is how the lines-then-collections order carries through |
| Text.DecimalRoundTrip | figurine.py:90-91 | the `%d` rendering of a count reads back as the same count |
| Text.DecimalInjective | figurine.py:90 | distinct numbers render as distinct `%d` strings |
| Text.Decimal | figurine.py:90-91 | `'%d' % n`: a non-empty string of decimal digits (read back by `DecimalRoundTrip`, without a leading zero by `DecimalNoLeadingZero`) |
| Text.DecimalNoLeadingZero | figurine.py:90-91 | the `%d` rendering starts with `0` exactly when the number is 0 |
| Text.Join | figurine.py:170 | `','.join(...)`: `FieldsOfJoin` proves that splitting the joined text at the separator gives back the parts, when no part is empty or contains the separator |
| Text.Contains | figurine.py:125-127 | Python's substring test `p in s`: `ContainsIffOccurs` proves it holds exactly when p occurs at some position of s |
| Grid.GridRows | figurine.py:86 | `np.ceil(np.sqrt(n))`, characterised by `GridRowsSpec` and `GridRowsUnique` |
| Grid.GridColumns | figurine.py:87 | `int(round(np.sqrt(n)))`, characterised by `GridColumnsSpec` and `GridColumnsUnique` |
| Grid.GridRowsSpec | figurine.py:86 | the row count r is the least number with r·r ≥ n (the ceiling of sqrt(n)) |
| Grid.GridColumnsSpec | figurine.py:87 | the column count c is 0 for no axes, and otherwise satisfies c·c − c < n ≤ c·c + c (sqrt(n) rounded) |
| Grid.GridRowsUnique | figurine.py:86 | no other number satisfies the row count's characterisation |
| Grid.GridColumnsUnique | figurine.py:87 | no other number satisfies the column count's characterisation |
| Grid.ColumnsNextToRows | figurine.py:86-87 | the column count is the row count or one less |
| Grid.GridFits | figurine.py:86-91 | n ≤ rows · columns, so every 1-based position passed to `add_subplot` fits the grid |
| Emitter.AxNameInjective | figurine.py:90 | distinct axes get distinct `ax_%d` names, and no axis name is a data name |
| Emitter.DatNameInjective | figurine.py:95 | `dat_i_j_k` names are equal exactly when their three indices are |
| Emitter.DataLiteralRoundTrip | figurine.py:170 | a data literal lists exactly the tokens of its sequence, in order, when no token is empty or contains a comma |
| Emitter.GetDataStringList | figurine.py:167-171 | one literal per data sequence (`plot.length` of them); literal k is `[` + the comma-joined tokens of sequence k + `]` |
| Emitter.GetPlotConfigString | figurine.py:173-225 | the `+=` sequence of each plot kind's `getConfigString` produces `PlotConfig`, whose label, colour, line-style and face-colour arguments `PlotConfigShape` places |
| Emitter.PlotConfigShape | figurine.py:173-225 | the text is empty exactly for a colour mesh; lines and scatters start with their label argument; a line's colour argument follows the label directly and its line-style argument closes the text; a scatter's face-colour argument closes the text |
| Emitter.SetterShape | figurine.py:140-146 | each configuration statement calls a `set_` method on the axis and ends its line |
| Emitter.ConfigLinesShape | figurine.py:138-148 | the configuration block is seven `name.set_...(...)` lines followed by a blank line |
| Emitter.GetAxisConfigString | figurine.py:138-148 | the accumulated configuration block equals `AxisConfig` |
| Emitter.LegendText | figurine.py:150-154 | `getLegendString`: the text is non-empty exactly when the axis has a legend; `LegendIff` places it at the end of the axis's text |
| Emitter.LegendIff | figurine.py:150-154 | an axis's text ends with its `.legend()` line exactly when the axis has a legend, and always ends with the configuration block followed by the legend text |
| Emitter.LegendLineLast | figurine.py:150-152 | with a legend, the axis's text ends with its legend call |
| Emitter.NoLegendLine | figurine.py:150-154 | without a legend, the axis's text does not end with a legend call |
| Emitter.FileTextFrame | figurine.py:74-113 | the script starts with the five imports/style lines, a blank line and `fig = plt.figure()`, and ends with `plt.show(block=True)`; with no axes nothing is in between |
| Emitter.AxisTextAt | figurine.py:89-112 | the text of axis i sits at its offset in the file, and the next axis starts right after it |
| Emitter.SubplotLineFirst | figurine.py:90-92 | an axis's text opens with its `add_subplot` line |
| Emitter.SubplotLineAt | figurine.py:86-91 | axis i's `add_subplot(rows, columns, i+1)` line sits at the axis's offset in the file, and i+1 ≤ rows·columns |
| Emitter.PlotTextInAxis | figurine.py:93-110 | plot j's text sits at its offset within its axis's text, and plot j+1 follows it directly |
| Emitter.PlotTextAt | figurine.py:93-110 | plot j of axis i sits at its offset in the file, and plot j+1 follows it directly |
| Emitter.AssignmentAt | figurine.py:94-110 | within a plot's text, assignment k (`dat_i_j_k = <literal k>` and a blank line) stands at its offset, the next one follows it directly, and the drawing text stands right after the last one and ends the plot's text |
| Emitter.AssignmentInFile | figurine.py:93-97 | the file contains the assignment of data sequence k of plot j of axis i at its offset |
| Emitter.PairCallShape | figurine.py:98-102 | a two-sequence plot's drawing text is `ax_i.<method>(` followed directly by `dat_i_j_0`, then `, dat_i_j_1`, then the plot's keyword arguments, and ends with `)\n` |
| Emitter.MeshBlockShape | figurine.py:103-110 | a mesh block starts with the `meshgrid` line over `dat_i_j_0`, `dat_i_j_1`, uses `dat_i_j_2`, and ends with the `pcolormesh` call carrying the plot's keyword arguments |
| Emitter.DrawTextShape | figurine.py:98-110 | a drawing statement is written exactly when the plot has 2 data sequences, or 3 with method `pcolormesh`; otherwise the plot contributes only its assignments |
| Emitter.ConfigBlockLast | figurine.py:111-112 | each axis's text ends with its configuration block followed by its legend text |
| Emitter.AppendPlot | figurine.py:93-110 | the accumulated text grows by exactly the plot's text |
| Emitter.AppendAxis | figurine.py:89-112 | the accumulated text grows by exactly the axis's text |
| Emitter.GetFileString | figurine.py:73-114 | the accumulated script equals `FileText`, with the preamble, figure line and show call framing it |

## Left out

- Reading the live figure is not modelled. The matplotlib getters (`get_data`, `get_offsets`, `get_label`, `get_color`, `get_linestyle`, `get_facecolor`, `get_xscale` and the rest, `get_legend`, `_coordinates`, `get_array`, `np.unique`) are replaced by the fields of the `*Source` datatypes. They hold the values those calls return.
- The `set_offset_position('data')` call on scatter items (figurine.py:202) is a side effect on the live figure. It is not modelled; the offsets are taken as already read in data coordinates.
- `get_facecolor()[0]` on an empty face-colour array raises an `IndexError` in the source. The model assumes a first face colour exists, as part of the snapshot.
- Writing the file (`pyFigure.save`, figurine.py:68-71) is I/O. `SaveFigurine` returns the path and the contents instead.
- Numbers are opaque tokens: the `str()` of each value. Axis limits are strings already rendered with `%.2e`. Float formatting is not modelled.
- `np.sqrt`, `np.ceil` and `round` are replaced by integer definitions of the same results (`GridRows`, `GridColumns`). Floating-point rounding of the square root is not modelled.
- Labels, titles, scales and colour names are inserted unescaped, as the source does. The model does not state that the emitted script is valid Python.
- The behaviour of the emitted script when it is run (the `meshgrid`/`griddata` reconstruction, the redrawn figure) is outside the model.
- Emitter.SubplotLineAt: states that the subplot line of each axis sits at that axis's offset in the file, not that it occurs only once. An unescaped label may contain the same text.
- figurine.py handles no twin axes, colourbars, markers or edge colours, so the model has none.
