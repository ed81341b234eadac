/**
 * export_charts.py: for one folder, export every chart that has a real title,
 * named from the chart-numbering lookup when the chart is listed there and
 * from its id and title otherwise, retrying each export; then the driver that
 * runs one such pass per configured format. Only the non-recursive pass the
 * driver uses is modelled.
 */
module ExportCharts {
  import opened Wrappers
  import opened Datawrapper
  import opened Filenames
  import opened Retry

  /** The title of the blank template charts the pass skips. */
  const Placeholder: string := "[ Insert title here ]"

  /** One row of the chart-numbering spreadsheet. */
  datatype LookupRow = LookupRow(chartId: ChartId, chartNumber: string)

  /** The index of the first row whose Chart ID is `id`, if any. */
  function FirstMatch(table: seq<LookupRow>, id: ChartId): (r: Option<nat>)
    ensures r.Some? ==> r.value < |table| && table[r.value].chartId == id
    ensures r.Some? ==> forall j :: 0 <= j < r.value ==> table[j].chartId != id
    ensures r.None? <==> forall j :: 0 <= j < |table| ==> table[j].chartId != id
  {
    if table == [] then None
    else if table[0].chartId == id then Some(0)
    else match FirstMatch(table[1..], id)
      case None => None
      case Some(k) => Some(k + 1)
  }

  /** The file name the pass gives a chart (without directory and extension). */
  function ChartFilename(table: seq<LookupRow>, id: ChartId, title: string): (r: string)
    ensures Sep !in r && ':' !in r
  {
    var filename := match FirstMatch(table, id)
      case Some(i) => table[i].chartNumber
      case None => id + "-" + Sanitise(title);
    Sanitise(filename)
  }

  /** A chart listed in the lookup is named after the first matching row's number. */
  lemma FilenameFromLookup(table: seq<LookupRow>, id: ChartId, title: string, i: nat)
    requires i < |table| && table[i].chartId == id
    requires forall j :: 0 <= j < i ==> table[j].chartId != id
    ensures ChartFilename(table, id, title) == Sanitise(table[i].chartNumber)
  {
    var m := FirstMatch(table, id);
    assert m.Some? && table[m.value].chartId == id;
  }

  /**
   * A chart missing from the lookup is named "{id}-{title}"; sanitising the
   * title first and the whole name again is the same as sanitising once.
   */
  lemma FilenameFallback(table: seq<LookupRow>, id: ChartId, title: string)
    requires forall j :: 0 <= j < |table| ==> table[j].chartId != id
    ensures ChartFilename(table, id, title) == Sanitise(id + "-" + title)
  {
    SanitiseAppend(id + "-", Sanitise(title));
    SanitiseIdempotent(title);
    SanitiseAppend(id + "-", title);
  }

  /** The call the pass makes for a titled chart, with the fixed and the forwarded arguments. */
  function ChartRequest(table: seq<LookupRow>, id: ChartId, title: string, path: string, output: string,
                        kwargs: map<string, bool>): ExportRequest
  {
    ExportRequest(id, None, Some("auto"), 0, output,
                  path + "/" + ChartFilename(table, id, title) + "." + output, false, kwargs)
  }

  /**
   * One chart: `get_chart(id)["title"]` raising ends the pass; the placeholder is
   * skipped; otherwise the export is attempted as the retry loop decides.
   */
  function ChartPass(svc: Service, table: seq<LookupRow>, id: ChartId, path: string, output: string,
                     maxRetries: int, kwargs: map<string, bool>): Pass
  {
    match TitleOf(svc, id)
    case None => Pass([], false)
    case Some(title) =>
      if title == Placeholder then Pass([], true)
      else
        var req := ChartRequest(table, id, title, path, output, kwargs);
        Pass(seq(Attempts(Responses(svc, id, output), maxRetries), _ => req), true)
  }

  function ChartsPass(svc: Service, table: seq<LookupRow>, charts: seq<ChartId>, path: string, output: string,
                      maxRetries: int, kwargs: map<string, bool>): Pass
  {
    if charts == [] then Pass([], true)
    else Then(ChartPass(svc, table, charts[0], path, output, maxRetries, kwargs),
              ChartsPass(svc, table, charts[1..], path, output, maxRetries, kwargs))
  }

  /**
   * A pass finishes exactly when every chart's title can be read: exhausted
   * retries raise nothing, and the loop goes on with the next chart.
   */
  lemma {:induction false} ChartsPassFinishes(svc: Service, table: seq<LookupRow>, charts: seq<ChartId>, path: string,
                                              output: string, maxRetries: int, kwargs: map<string, bool>)
    ensures ChartsPass(svc, table, charts, path, output, maxRetries, kwargs).ok
        <==> forall id | id in charts :: TitleOf(svc, id).Some?
  {
    if charts != [] {
      ChartsPassFinishes(svc, table, charts[1..], path, output, maxRetries, kwargs);
      assert forall x | x in charts :: x == charts[0] || x in charts[1..];
    }
  }

  /** The whole non-recursive pass over a folder; `get_folder` raising ends it at once. */
  function FolderPass(svc: Service, table: seq<LookupRow>, folder: Folder, path: string, output: string,
                      maxRetries: int, kwargs: map<string, bool>): Pass
  {
    match folder
    case Unreachable(_) => Pass([], false)
    case Folder(_, _, charts, _) => ChartsPass(svc, table, charts, path, output, maxRetries, kwargs)
  }

  /** The body of the loop over `folder["charts"]` for one chart. */
  method ExportChart(svc: Service, table: seq<LookupRow>, id: ChartId, path: string, output: string,
                     maxRetries: int, kwargs: map<string, bool>)
    returns (sent: seq<ExportRequest>, ok: bool)
    ensures Pass(sent, ok) == ChartPass(svc, table, id, path, output, maxRetries, kwargs)
  {
    sent := [];
    var chartTitle := TitleOf(svc, id);
    if chartTitle.None? {
      // get_chart failed or returned no "title": the exception leaves the pass
      ok := false;
      return;
    }
    ok := true;
    var title := chartTitle.value;
    if title != Placeholder {
      var filename: string;
      var row := FirstMatch(table, id);
      if row.Some? {
        filename := table[row.value].chartNumber;
      } else {
        var titleClean := Sanitise(title);
        filename := id + "-" + titleClean;
      }
      filename := Sanitise(filename);
      var req := ExportRequest(id, None, Some("auto"), 0, output, path + "/" + filename + "." + output, false, kwargs);
      assert req == ChartRequest(table, id, title, path, output, kwargs);
      var exported;
      sent, exported := ExportWithRetries(req, Responses(svc, id, output), maxRetries);
      assert sent == seq(Attempts(Responses(svc, id, output), maxRetries), _ => req);
    }
  }

  /**
   * `export_charts(dw, folder_id, path, output, max_retries, recursive=False, **kwargs)`:
   * the export calls it makes, and whether it returned (true) or raised (false).
   */
  method ExportFolder(svc: Service, table: seq<LookupRow>, folder: Folder, path: string, output: string,
                      maxRetries: int := DefaultMaxRetries, kwargs: map<string, bool> := map[])
    returns (requests: seq<ExportRequest>, ok: bool)
    ensures Pass(requests, ok) == FolderPass(svc, table, folder, path, output, maxRetries, kwargs)
  {
    requests := [];
    if folder.Unreachable? {
      ok := false;
      return;
    }
    var charts := folder.charts;
    var i := 0;
    while i < |charts|
      invariant 0 <= i <= |charts|
      invariant ChartsPass(svc, table, charts, path, output, maxRetries, kwargs)
             == Then(Pass(requests, true), ChartsPass(svc, table, charts[i..], path, output, maxRetries, kwargs))
    {
      var id := charts[i];
      assert charts[i..][1..] == charts[i + 1..];
      var rest := ChartsPass(svc, table, charts[i + 1..], path, output, maxRetries, kwargs);
      var sent, chartOk := ExportChart(svc, table, id, path, output, maxRetries, kwargs);
      ThenAssociative(Pass(requests, true), Pass(sent, chartOk), rest);
      requests := requests + sent;
      if !chartOk {
        ok := false;
        return;
      }
      i := i + 1;
    }
    assert requests + [] == requests;
    ok := true;
  }

  /** Every call the pass makes is for one of the folder's titled, non-placeholder charts, with its own name. */
  lemma {:induction false} ChartsPassRequests(svc: Service, table: seq<LookupRow>, charts: seq<ChartId>, path: string,
                                              output: string, maxRetries: int, kwargs: map<string, bool>)
    ensures forall r | r in ChartsPass(svc, table, charts, path, output, maxRetries, kwargs).requests ::
      r.chartId in charts && TitleOf(svc, r.chartId).Some? && TitleOf(svc, r.chartId).value != Placeholder
      && r == ChartRequest(table, r.chartId, TitleOf(svc, r.chartId).value, path, output, kwargs)
  {
    if charts != [] {
      ChartsPassRequests(svc, table, charts[1..], path, output, maxRetries, kwargs);
      assert forall x | x in charts[1..] :: x in charts;
    }
  }

  /**
   * Every export call of a folder pass uses width None, height "auto", no border,
   * the pass's format and forwarded arguments, and the path
   * `path + "/" + filename + "." + output` with the chart's resolved file name.
   */
  lemma RequestShape(svc: Service, table: seq<LookupRow>, folder: Folder, path: string, output: string,
                     maxRetries: int, kwargs: map<string, bool>, r: ExportRequest)
    requires r in FolderPass(svc, table, folder, path, output, maxRetries, kwargs).requests
    ensures folder.Folder? && r.chartId in folder.charts
    ensures r.width == None && r.height == Some("auto") && r.borderWidth == 0 && !r.display
    ensures r.output == output && r.kwargs == kwargs
    ensures TitleOf(svc, r.chartId).Some? && TitleOf(svc, r.chartId).value != Placeholder
    ensures r.filepath == path + "/" + ChartFilename(table, r.chartId, TitleOf(svc, r.chartId).value) + "." + output
  {
    ChartsPassRequests(svc, table, folder.charts, path, output, maxRetries, kwargs);
  }

  /** A chart titled with the placeholder is never exported. */
  lemma PlaceholderNeverRequested(svc: Service, table: seq<LookupRow>, folder: Folder, path: string, output: string,
                                  maxRetries: int, kwargs: map<string, bool>, id: ChartId)
    requires TitleOf(svc, id) == Some(Placeholder)
    ensures forall r | r in FolderPass(svc, table, folder, path, output, maxRetries, kwargs).requests :: r.chartId != id
  {
    if folder.Folder? {
      ChartsPassRequests(svc, table, folder.charts, path, output, maxRetries, kwargs);
    }
  }

  /** A pass that completes makes at least one call for every titled chart, when retries are allowed. */
  lemma {:induction false} TitledChartRequested(svc: Service, table: seq<LookupRow>, charts: seq<ChartId>, path: string,
                                                output: string, maxRetries: int, kwargs: map<string, bool>, id: ChartId)
    requires ChartsPass(svc, table, charts, path, output, maxRetries, kwargs).ok
    requires id in charts && maxRetries >= 1
    requires TitleOf(svc, id).Some? && TitleOf(svc, id).value != Placeholder
    ensures ChartRequest(table, id, TitleOf(svc, id).value, path, output, kwargs)
            in ChartsPass(svc, table, charts, path, output, maxRetries, kwargs).requests
  {
    var first := ChartPass(svc, table, charts[0], path, output, maxRetries, kwargs);
    if charts[0] == id {
      assert Attempts(Responses(svc, id, output), maxRetries) >= 1;
      assert first.requests[0] == ChartRequest(table, id, TitleOf(svc, id).value, path, output, kwargs);
    } else {
      TitledChartRequested(svc, table, charts[1..], path, output, maxRetries, kwargs, id);
    }
  }

  /** The formats the driver exports, in order, with the `plain` argument each forwards. */
  const ExportFormats: seq<(string, bool)> := [("svg", true), ("png", false)]

  function FormatsPass(svc: Service, table: seq<LookupRow>, root: Folder, base: string,
                       formats: seq<(string, bool)>): Pass
  {
    if formats == [] then Pass([], true)
    else Then(FolderPass(svc, table, root, base, formats[0].0, DefaultMaxRetries, map["plain" := formats[0].1]),
              FormatsPass(svc, table, root, base, formats[1..]))
  }

  /** The svg pass with `plain=True`, then, unless it raised, the png pass with `plain=False`. */
  function DriverSpec(svc: Service, table: seq<LookupRow>, root: Folder, base: string): Pass {
    Then(FolderPass(svc, table, root, base, "svg", DefaultMaxRetries, map["plain" := true]),
         FolderPass(svc, table, root, base, "png", DefaultMaxRetries, map["plain" := false]))
  }

  /** The driver's loop over `export_formats`. */
  method ExportAllFormats(svc: Service, table: seq<LookupRow>, root: Folder, base: string)
    returns (requests: seq<ExportRequest>, ok: bool)
    ensures Pass(requests, ok) == DriverSpec(svc, table, root, base)
  {
    var formats := ExportFormats;
    assert FormatsPass(svc, table, root, base, formats) == DriverSpec(svc, table, root, base) by {
      var png := FolderPass(svc, table, root, base, "png", DefaultMaxRetries, map["plain" := false]);
      assert formats[0] == ("svg", true) && formats[1..][0] == ("png", false) && formats[1..][1..] == [];
      assert png.requests + [] == png.requests;
      assert FormatsPass(svc, table, root, base, formats[1..]) == png;
    }
    requests := [];
    var i := 0;
    while i < |formats|
      invariant 0 <= i <= |formats|
      invariant FormatsPass(svc, table, root, base, formats)
             == Then(Pass(requests, true), FormatsPass(svc, table, root, base, formats[i..]))
    {
      var (output, plain) := formats[i];
      assert formats[i..][1..] == formats[i + 1..];
      var rest := FormatsPass(svc, table, root, base, formats[i + 1..]);
      var sent, passOk := ExportFolder(svc, table, root, base, output, kwargs := map["plain" := plain]);
      ThenAssociative(Pass(requests, true), Pass(sent, passOk), rest);
      requests := requests + sent;
      if !passOk {
        ok := false;
        return;
      }
      i := i + 1;
    }
    assert requests + [] == requests;
    ok := true;
  }

  /** When the driver completes, every titled chart of the folder was requested as svg and as png. */
  lemma DriverExportsBothFormats(svc: Service, table: seq<LookupRow>, root: Folder, base: string, id: ChartId)
    requires DriverSpec(svc, table, root, base).ok
    requires root.Folder? && id in root.charts
    requires TitleOf(svc, id).Some? && TitleOf(svc, id).value != Placeholder
    ensures ChartRequest(table, id, TitleOf(svc, id).value, base, "svg", map["plain" := true])
            in DriverSpec(svc, table, root, base).requests
    ensures ChartRequest(table, id, TitleOf(svc, id).value, base, "png", map["plain" := false])
            in DriverSpec(svc, table, root, base).requests
  {
    TitledChartRequested(svc, table, root.charts, base, "svg", DefaultMaxRetries, map["plain" := true], id);
    TitledChartRequested(svc, table, root.charts, base, "png", DefaultMaxRetries, map["plain" := false], id);
  }
}
