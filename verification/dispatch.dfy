/**
 * The `export` entry points of the two report exporters: write the report when a report path
 * is given, then hand the graph to the ONNX or the Caffe exporter, chosen by the extension of
 * the model path and, failing that, by the framework the graph was read from.
 *
 * The ONNX and Caffe exporters are foreign code: the model says only which one is called.
 */
module Dispatch {
  import opened Failures
  import opened Views
  import TrtJson
  import Ascend

  /** The framework a graph was built from (NetworkFramework). */
  datatype Framework = Caffe | Onnx | OtherFramework

  /** The exporter the graph is handed to. */
  datatype Exporter = CaffeExporter | OnnxExporter

  // ---------------------------------------------------------------------------------
  // os.path.splitext on POSIX paths.

  /** The position of the last `c` in `p`, or -1 when there is none. */
  function LastIndexOf(p: string, c: char): (r: int)
    ensures -1 <= r < |p|
    ensures r >= 0 ==> p[r] == c
    ensures forall i :: r < i < |p| ==> p[i] != c
  {
    if |p| == 0 then -1
    else if p[|p| - 1] == c then |p| - 1
    else LastIndexOf(p[..|p| - 1], c)
  }

  /** Whether `p[lo..hi]` holds only dots. */
  predicate AllDots(p: string, lo: int, hi: int)
    requires 0 <= lo && hi <= |p|
  {
    forall i :: lo <= i < hi ==> p[i] == '.'
  }

  /**
   * The root and the extension of a path: the extension runs from the last dot of the last
   * path component, unless everything before that dot in the component is dots too (a
   * hidden file such as `.onnx` has no extension).
   */
  function SplitExt(p: string): (r: (string, string))
    ensures r.0 + r.1 == p
    ensures r.1 == [] || r.1[0] == '.'
    ensures forall i :: 0 < i < |r.1| ==> r.1[i] != '.' && r.1[i] != '/'
  {
    var sep, dot := LastIndexOf(p, '/'), LastIndexOf(p, '.');
    if dot > sep && !AllDots(p, sep + 1, dot) then (p[..dot], p[dot..]) else (p, [])
  }

  /** Whether the last component of `root` holds a character other than a dot. */
  predicate Named(root: string) {
    exists i :: 0 <= i < |root| && root[i] != '.' && root[i] != '/'
      && forall j :: i < j < |root| ==> root[j] != '/'
  }

  /** Whether `ext` is a dot followed by neither dots nor slashes. */
  predicate Extension(ext: string) {
    |ext| > 0 && ext[0] == '.' && forall i :: 0 < i < |ext| ==> ext[i] != '.' && ext[i] != '/'
  }

  /** A named root followed by an extension splits back into the two. */
  lemma SplitExtOf(root: string, ext: string)
    requires Named(root) && Extension(ext)
    ensures SplitExt(root + ext) == (root, ext)
  {
    var p := root + ext;
    var i :| 0 <= i < |root| && root[i] != '.' && root[i] != '/'
      && forall j :: i < j < |root| ==> root[j] != '/';
    var sep, dot := LastIndexOf(p, '/'), LastIndexOf(p, '.');
    assert p[|root|] == '.';
    assert dot == |root| by {
      forall j | |root| < j < |p|
        ensures p[j] != '.'
      {
        assert p[j] == ext[j - |root|];
      }
    }
    assert sep < i by {
      forall j | i <= j < |p|
        ensures p[j] != '/'
      {
        if j >= |root| {
          assert p[j] == ext[j - |root|];
        }
      }
    }
    assert p[i] != '.';
    assert p[..dot] == root && p[dot..] == ext;
  }

  /** A path without a named root has no extension. */
  lemma HiddenFileHasNoExtension()
    ensures SplitExt(".onnx") == (".onnx", "")
    ensures SplitExt("models/.onnx") == ("models/.onnx", "")
  {
    var p := "models/.onnx";
    assert p[6] == '/';
    assert LastIndexOf(p, '/') == 6;
    assert AllDots(p, 7, 7);
  }

  // ---------------------------------------------------------------------------------
  // Choosing the exporter.

  /**
   * The model path's extension decides first (`.onnx`, then `.prototxt` or `.caffemodel`),
   * then the framework the graph was built from; otherwise nothing is exported.
   */
  function ChooseExporter(ext: string, builtFrom: Framework): (r: Option<Exporter>)
    ensures r == Some(OnnxExporter)
      <==> ext == ".onnx" || (ext != ".prototxt" && ext != ".caffemodel" && builtFrom.Onnx?)
    ensures r == Some(CaffeExporter)
      <==> ext == ".prototxt" || ext == ".caffemodel" || (ext != ".onnx" && builtFrom.Caffe?)
    ensures r.None? <==> ext != ".onnx" && ext != ".prototxt" && ext != ".caffemodel" && builtFrom.OtherFramework?
  {
    if ext == ".onnx" then Some(OnnxExporter)
    else if ext in {".prototxt", ".caffemodel"} then Some(CaffeExporter)
    else if builtFrom.Caffe? then Some(CaffeExporter)
    else if builtFrom.Onnx? then Some(OnnxExporter)
    else None
  }

  /** The exporter chosen for a model path. */
  function ExporterFor(filePath: string, builtFrom: Framework): Option<Exporter> {
    ChooseExporter(SplitExt(filePath).1, builtFrom)
  }

  /** An explicit extension wins over the framework the graph came from. */
  lemma ExtensionWins(root: string, builtFrom: Framework)
    requires Named(root)
    ensures ExporterFor(root + ".onnx", builtFrom) == Some(OnnxExporter)
    ensures ExporterFor(root + ".prototxt", builtFrom) == Some(CaffeExporter)
    ensures ExporterFor(root + ".caffemodel", builtFrom) == Some(CaffeExporter)
  {
    SplitExtOf(root, ".onnx");
    SplitExtOf(root, ".prototxt");
    SplitExtOf(root, ".caffemodel");
  }

  /** A hidden file named `.onnx` is exported in the format the graph came from. */
  lemma HiddenFileFollowsFramework()
    ensures ExporterFor(".onnx", Caffe) == Some(CaffeExporter)
    ensures ExporterFor(".onnx", OtherFramework) == None
  {
    HiddenFileHasNoExtension();
  }

  // ---------------------------------------------------------------------------------
  // TensorRTExporter_JSON.export.

  /** What the TensorRT JSON export produces: the range map, when written, and the exporter. */
  datatype TrtExported = TrtExported(ranges: Option<map<string, real>>, exporter: Option<Exporter>)

  /**
   * The range map is computed when a report path is given. The weight file is then written
   * next to the report path; with no report path its directory is that of None, a
   * TypeError. The `intended` reading writes the weight file only when there is a report
   * path.
   */
  function TrtExportWith(filePath: string, order: seq<OpView>, graphInputs: set<string>,
                         configPath: Option<string>, builtFrom: Framework, intended: bool): (r: Result<TrtExported>)
    ensures configPath.None? ==> (r.Ok? <==> intended)
    ensures configPath.None? && r.Fail? ==> r.error == TypeError
    ensures configPath.Some? ==> (r.Ok? <==> TrtJson.Ranges(order, graphInputs).Ok?)
    ensures configPath.Some? && r.Fail? ==> r == TrtJson.Ranges(order, graphInputs).PropagateFailure()
    ensures r.Ok? ==> r.value.exporter == ExporterFor(filePath, builtFrom)
    ensures r.Ok? ==> (r.value.ranges.Some? <==> configPath.Some?)
    ensures r.Ok? && configPath.Some? ==> r.value.ranges == Some(TrtJson.Ranges(order, graphInputs).value)
  {
    if configPath.None? then
      if intended then Ok(TrtExported(None, ExporterFor(filePath, builtFrom))) else Fail(TypeError)
    else
      var ranges :- TrtJson.Ranges(order, graphInputs);
      Ok(TrtExported(Some(ranges), ExporterFor(filePath, builtFrom)))
  }

  function TrtExport(filePath: string, order: seq<OpView>, graphInputs: set<string>,
                     configPath: Option<string>, builtFrom: Framework): Result<TrtExported> {
    TrtExportWith(filePath, order, graphInputs, configPath, builtFrom, false)
  }

  /**
   * As written, the export without a report path always fails, even for a path whose
   * extension names an exporter.
   */
  lemma TrtExportNeedsConfigPath(filePath: string, order: seq<OpView>, graphInputs: set<string>, builtFrom: Framework)
    ensures TrtExport(filePath, order, graphInputs, None, builtFrom) == Fail(TypeError)
  {
  }

  /**
   * With the weight file written only beside a report path, the export without one hands a
   * `.onnx` path to the ONNX exporter and writes no ranges.
   */
  lemma IntendedTrtExportWithoutReport(root: string, order: seq<OpView>, graphInputs: set<string>, builtFrom: Framework)
    requires Named(root)
    ensures TrtExportWith(root + ".onnx", order, graphInputs, None, builtFrom, true)
      == Ok(TrtExported(None, Some(OnnxExporter)))
  {
    ExtensionWins(root, builtFrom);
  }

  /** With a report path, the export to a `.onnx` path hands the graph to the ONNX exporter. */
  lemma TrtExportToOnnx(root: string, order: seq<OpView>, graphInputs: set<string>, configPath: string,
                        builtFrom: Framework)
    requires Named(root) && TrtJson.Ranges(order, graphInputs).Ok?
    ensures TrtExport(root + ".onnx", order, graphInputs, Some(configPath), builtFrom)
      == Ok(TrtExported(Some(TrtJson.Ranges(order, graphInputs).value), Some(OnnxExporter)))
  {
    ExtensionWins(root, builtFrom);
  }

  // ---------------------------------------------------------------------------------
  // AscendExporter.export.

  /** The record file sits beside the report path, with its extension replaced by `.txt`. */
  function ReportPath(configPath: string): (r: string)
    ensures |r| >= 4 && r[|r| - 4..] == ".txt"
    ensures r[..|r| - 4] <= configPath
  {
    SplitExt(configPath).0 + ".txt"
  }

  /** A named report path keeps its root and changes its extension. */
  lemma ReportPathOf(root: string, ext: string)
    requires Named(root) && Extension(ext)
    ensures ReportPath(root + ext) == root + ".txt"
  {
    SplitExtOf(root, ext);
  }

  /** What the Ascend export produces: the record file and its records, when written, and the exporter. */
  datatype AscendExported = AscendExported(report: Option<(string, seq<seq<Ascend.Line>>)>, exporter: Option<Exporter>)

  function AscendExport(filePath: string, order: seq<OpView>, configPath: Option<string>, builtFrom: Framework)
    : (r: Result<AscendExported>)
    ensures configPath.None? ==> r == Ok(AscendExported(None, ExporterFor(filePath, builtFrom)))
    ensures configPath.Some? ==> (r.Ok? <==> Ascend.Records(order).Ok?)
    ensures r.Ok? && configPath.Some?
      ==> r.value == AscendExported(Some((ReportPath(configPath.value), Ascend.Records(order).value)),
                                    ExporterFor(filePath, builtFrom))
  {
    if configPath.None? then Ok(AscendExported(None, ExporterFor(filePath, builtFrom)))
    else
      var records :- Ascend.Records(order);
      Ok(AscendExported(Some((ReportPath(configPath.value), records)), ExporterFor(filePath, builtFrom)))
  }

  /**
   * A report path `root.ext` puts the records in `root.txt`, and the model path still picks
   * the exporter.
   */
  lemma AscendExportBesideReport(root: string, ext: string, order: seq<OpView>, builtFrom: Framework)
    requires Named(root) && Extension(ext) && Ascend.Records(order).Ok?
    ensures AscendExport(root + ".prototxt", order, Some(root + ext), builtFrom)
      == Ok(AscendExported(Some((root + ".txt", Ascend.Records(order).value)), Some(CaffeExporter)))
  {
    ReportPathOf(root, ext);
    ExtensionWins(root, builtFrom);
  }
}
