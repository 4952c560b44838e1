/**
 * The entry point saveFigurine: normalise the file name, take the
 * snapshot of the figure and produce the text pyFigure.save writes to
 * that file. Writing the file is I/O and is not part of the model: the
 * method returns the path and the contents instead.
 */
module Figurine {
  import opened Text
  import opened Model
  import opened Emitter

  const Extension: string := ".py"

  /** Python's name[-3:]: the last three characters, or all of a shorter name. */
  function LastThree(name: string): (t: string)
    ensures |t| == if |name| < 3 then |name| else 3
    ensures EndsWith(name, t)
  {
    if |name| >= 3 then name[|name| - 3..] else name
  }

  /** The file saveFigurine writes to: '.py' is appended unless the name already ends with it. */
  function NormaliseFilename(filename: string): (r: string)
    ensures EndsWith(r, Extension)
    ensures EndsWith(filename, Extension) ==> r == filename
    ensures !EndsWith(filename, Extension) ==> r == filename + Extension
  {
    var r := if LastThree(filename) != Extension then filename + Extension else filename;
    assert (filename + Extension)[|filename|..] == Extension;
    r
  }

  /** Normalising a normalised name changes nothing. */
  lemma NormaliseIdempotent(filename: string)
    ensures NormaliseFilename(NormaliseFilename(filename)) == NormaliseFilename(filename)
  {
  }

  /**
   * saveFigurine: the normalised path, the pyFigure built from the figure
   * (which the source returns) and the text written to the path.
   */
  method SaveFigurine(fig: FigureSource, filename: string) returns (pyfig: Figure, path: string, contents: string)
    ensures path == NormaliseFilename(filename)
    ensures pyfig == FigureOf(fig) && |pyfig.axes| == |fig.axes|
    ensures contents == FileText(pyfig)
    ensures StartsWith(contents, Preamble + FigureLine) && EndsWith(contents, ShowLine)
  {
    path := filename;
    if LastThree(path) != Extension {
      path := path + Extension;
    }
    pyfig := NewFigure(fig);
    contents := GetFileString(pyfig);
  }
}
