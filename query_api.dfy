/**
 * query_api.py: an always-recursive svg export. Every folder, the first one
 * included, becomes a directory under its parent's; each chart is exported
 * as `{id}-{title}.svg` with the title sanitised, using the retry loop. The
 * recursive calls do not pass `max_retries`, so below the first folder the
 * default of five attempts applies.
 */
module QueryApi {
  import opened Wrappers
  import opened Datawrapper
  import opened Filenames
  import opened Retry

  /** What a traversal has done so far: export calls, directories that exist, and false once it raised. */
  datatype Run = Run(requests: seq<ExportRequest>, dirs: set<string>, ok: bool)

  /** `if not os.path.exists(p): os.makedirs(p)`, on the set of existing directories. */
  function MakeDirs(dirs: set<string>, p: string): (r: set<string>)
    ensures p in r && dirs <= r && r - dirs <= {p}
  {
    if p in dirs then dirs else dirs + {p}
  }

  /** Creating a directory that exists changes nothing. */
  lemma MakeDirsIdempotent(dirs: set<string>, p: string)
    ensures MakeDirs(MakeDirs(dirs, p), p) == MakeDirs(dirs, p)
  {
  }

  /** The call made for a chart titled `title` in directory `pathFolder`. */
  function SvgRequest(id: ChartId, title: string, pathFolder: string): ExportRequest {
    ExportRequest(id, Some(853), Some("auto"), 0, "svg",
                  pathFolder + "/" + id + "-" + Sanitise(title) + ".svg", false, map["plain" := true])
  }

  /** One chart: `get_chart(id)["title"]` raising ends the run; otherwise the export is retried. */
  function SvgChart(svc: Service, id: ChartId, pathFolder: string, maxRetries: int): Pass {
    match TitleOf(svc, id)
    case None => Pass([], false)
    case Some(title) =>
      var req := SvgRequest(id, title, pathFolder);
      Pass(seq(Attempts(Responses(svc, id, "svg"), maxRetries), _ => req), true)
  }

  /** The folder's own charts, in order, up to the first exception. */
  function SvgCharts(svc: Service, charts: seq<ChartId>, pathFolder: string, maxRetries: int): Pass {
    if charts == [] then Pass([], true)
    else Then(SvgChart(svc, charts[0], pathFolder, maxRetries), SvgCharts(svc, charts[1..], pathFolder, maxRetries))
  }

  /**
   * The folder's charts finish exactly when every title can be read, whatever
   * `max_retries` is: exhausted retries raise nothing.
   */
  lemma {:induction false} SvgChartsFinish(svc: Service, charts: seq<ChartId>, pathFolder: string, maxRetries: int)
    ensures SvgCharts(svc, charts, pathFolder, maxRetries).ok <==> forall id | id in charts :: TitleOf(svc, id).Some?
  {
    if charts != [] {
      SvgChartsFinish(svc, charts[1..], pathFolder, maxRetries);
      assert forall x | x in charts :: x == charts[0] || x in charts[1..];
    }
  }

  /** Prefixing calls made earlier to a run. */
  function After(earlier: seq<ExportRequest>, run: Run): Run {
    Run(earlier + run.requests, run.dirs, run.ok)
  }

  /** `export_charts(folder, base_path, max_retries)` starting with `dirs` existing. */
  function SvgFolder(svc: Service, folder: Folder, basePath: string, maxRetries: int, dirs: set<string>): Run {
    match folder
    case Unreachable(_) => Run([], dirs, false)
    case Folder(_, name, charts, children) =>
      var pathFolder := PathJoin(basePath, name);
      var made := MakeDirs(dirs, pathFolder);
      var own := SvgCharts(svc, charts, pathFolder, maxRetries);
      if !own.ok then Run(own.requests, made, false)
      else After(own.requests, SvgChildren(svc, children, pathFolder, made))
  }

  /** The children in order, each with the default number of retries, up to the first exception. */
  function SvgChildren(svc: Service, children: seq<Folder>, pathFolder: string, dirs: set<string>): Run {
    if children == [] then Run([], dirs, true)
    else
      var first := SvgFolder(svc, children[0], pathFolder, DefaultMaxRetries, dirs);
      if !first.ok then first
      else After(first.requests, SvgChildren(svc, children[1..], pathFolder, first.dirs))
  }

  /** The body of the loop over `folder["charts"]` for one chart. */
  method ExportSvgChart(svc: Service, id: ChartId, pathFolder: string, maxRetries: int)
    returns (sent: seq<ExportRequest>, ok: bool)
    ensures Pass(sent, ok) == SvgChart(svc, id, pathFolder, maxRetries)
  {
    var chartTitle := TitleOf(svc, id);
    if chartTitle.None? {
      // get_chart failed or returned no "title": the exception leaves every call
      sent, ok := [], false;
      return;
    }
    var title := chartTitle.value;
    title := RemoveChar(title, '/');
    title := RemoveChar(title, ':');
    var req := ExportRequest(id, Some(853), Some("auto"), 0, "svg",
                             pathFolder + "/" + id + "-" + title + ".svg", false, map["plain" := true]);
    var exported;
    sent, exported := ExportWithRetries(req, Responses(svc, id, "svg"), maxRetries);
    assert sent == seq(Attempts(Responses(svc, id, "svg"), maxRetries), _ => req);
    ok := true;
  }

  /** The loop over `folder["charts"]`. */
  method ExportSvgCharts(svc: Service, charts: seq<ChartId>, pathFolder: string, maxRetries: int)
    returns (requests: seq<ExportRequest>, ok: bool)
    ensures Pass(requests, ok) == SvgCharts(svc, charts, pathFolder, maxRetries)
  {
    requests := [];
    var i := 0;
    while i < |charts|
      invariant 0 <= i <= |charts|
      invariant SvgCharts(svc, charts, pathFolder, maxRetries)
             == Then(Pass(requests, true), SvgCharts(svc, charts[i..], pathFolder, maxRetries))
    {
      assert charts[i..][1..] == charts[i + 1..];
      var rest := SvgCharts(svc, charts[i + 1..], pathFolder, maxRetries);
      var sent, chartOk := ExportSvgChart(svc, charts[i], pathFolder, maxRetries);
      ThenAssociative(Pass(requests, true), Pass(sent, chartOk), rest);
      requests := requests + sent;
      if !chartOk {
        ok := false;
        return;
      }
      i := i + 1;
    }
    assert requests + [] == requests;
    ok := true;
  }

  /**
   * `export_charts(BASE_FOLDER_ID, BASE_PATH, max_retries=5)` with the file
   * system's directories passed in and out: the calls it makes, the directories
   * that exist afterwards, and whether it returned (true) or raised (false).
   */
  method ExportSvgs(svc: Service, folder: Folder, basePath: string, dirs: set<string>,
                    maxRetries: int := DefaultMaxRetries)
    returns (requests: seq<ExportRequest>, dirsAfter: set<string>, ok: bool)
    ensures Run(requests, dirsAfter, ok) == SvgFolder(svc, folder, basePath, maxRetries, dirs)
    decreases folder, 1
  {
    requests, dirsAfter := [], dirs;
    if folder.Unreachable? {
      // get_folder raised
      ok := false;
      return;
    }
    var pathFolder := PathJoin(basePath, folder.name);
    if pathFolder !in dirsAfter {
      dirsAfter := dirsAfter + {pathFolder};
    }
    var own, chartsOk := ExportSvgCharts(svc, folder.charts, pathFolder, maxRetries);
    requests := own;
    if !chartsOk {
      ok := false;
      return;
    }
    assert dirsAfter == MakeDirs(dirs, pathFolder);
    var sent, childDirs, childrenOk := ExportSvgChildren(svc, folder.children, pathFolder, dirsAfter);
    requests, dirsAfter, ok := requests + sent, childDirs, childrenOk;
  }

  /** The loop over `folder["children"]`, each child called without `max_retries`. */
  method ExportSvgChildren(svc: Service, children: seq<Folder>, pathFolder: string, dirs: set<string>)
    returns (requests: seq<ExportRequest>, dirsAfter: set<string>, ok: bool)
    ensures Run(requests, dirsAfter, ok) == SvgChildren(svc, children, pathFolder, dirs)
    decreases children, 0
  {
    requests, dirsAfter := [], dirs;
    assert children[0..] == children;
    var j := 0;
    while j < |children|
      invariant 0 <= j <= |children|
      invariant SvgChildren(svc, children, pathFolder, dirs)
             == After(requests, SvgChildren(svc, children[j..], pathFolder, dirsAfter))
      decreases |children| - j
    {
      assert children[j..][1..] == children[j + 1..];
      var sent, childDirs, childOk := ExportSvgs(svc, children[j], pathFolder, dirsAfter);
      var rest := SvgChildren(svc, children[j + 1..], pathFolder, childDirs);
      assert (requests + sent) + rest.requests == requests + (sent + rest.requests);
      requests, dirsAfter := requests + sent, childDirs;
      if !childOk {
        ok := false;
        return;
      }
      j := j + 1;
    }
    assert requests + [] == requests;
    ok := true;
  }

  /** Every call of the run uses width 853, height "auto", no border, svg and `plain=True`. */
  lemma {:induction false} SvgRequestShape(svc: Service, folder: Folder, basePath: string, maxRetries: int, dirs: set<string>)
    ensures forall r | r in SvgFolder(svc, folder, basePath, maxRetries, dirs).requests ::
      r.width == Some(853) && r.height == Some("auto") && r.borderWidth == 0 && r.output == "svg"
      && r.kwargs == map["plain" := true] && !r.display
    decreases folder, 1
  {
    if folder.Folder? {
      var pathFolder := PathJoin(basePath, folder.name);
      OwnSvgRequests(svc, folder.charts, pathFolder, maxRetries);
      SvgChildrenShape(svc, folder.children, pathFolder, MakeDirs(dirs, pathFolder));
    }
  }

  lemma {:induction false} SvgChildrenShape(svc: Service, children: seq<Folder>, pathFolder: string, dirs: set<string>)
    ensures forall r | r in SvgChildren(svc, children, pathFolder, dirs).requests ::
      r.width == Some(853) && r.height == Some("auto") && r.borderWidth == 0 && r.output == "svg"
      && r.kwargs == map["plain" := true] && !r.display
    decreases children, 0
  {
    if children != [] {
      var first := SvgFolder(svc, children[0], pathFolder, DefaultMaxRetries, dirs);
      SvgRequestShape(svc, children[0], pathFolder, DefaultMaxRetries, dirs);
      SvgChildrenShape(svc, children[1..], pathFolder, first.dirs);
    }
  }

  /**
   * The folder's own charts are all requested, none skipped, each at
   * `pathFolder + "/" + id + "-" + sanitised title + ".svg"`, the id not sanitised.
   */
  lemma {:induction false} OwnSvgRequests(svc: Service, charts: seq<ChartId>, pathFolder: string, maxRetries: int)
    ensures forall r | r in SvgCharts(svc, charts, pathFolder, maxRetries).requests ::
      r.chartId in charts && TitleOf(svc, r.chartId).Some?
      && r == SvgRequest(r.chartId, TitleOf(svc, r.chartId).value, pathFolder)
    ensures SvgCharts(svc, charts, pathFolder, maxRetries).ok && maxRetries >= 1 ==>
      forall id | id in charts :: TitleOf(svc, id).Some?
        && SvgRequest(id, TitleOf(svc, id).value, pathFolder) in SvgCharts(svc, charts, pathFolder, maxRetries).requests
  {
    if charts != [] {
      OwnSvgRequests(svc, charts[1..], pathFolder, maxRetries);
      assert forall x | x in charts[1..] :: x in charts;
      assert forall x | x in charts :: x == charts[0] || x in charts[1..];
      var first := SvgChart(svc, charts[0], pathFolder, maxRetries);
      if first.ok && maxRetries >= 1 {
        assert first.requests[0] == SvgRequest(charts[0], TitleOf(svc, charts[0]).value, pathFolder);
      }
    }
  }

  /**
   * Every call below a folder writes inside that folder's own directory
   * `basePath/name` — the first folder included — so a chart's path names every
   * folder from the first one down to its own.
   */
  lemma {:induction false} SvgPathsUnderFolder(svc: Service, folder: Folder, basePath: string, maxRetries: int, dirs: set<string>)
    ensures forall r | r in SvgFolder(svc, folder, basePath, maxRetries, dirs).requests ::
      folder.Folder? && PathJoin(basePath, folder.name) + "/" <= r.filepath
    decreases folder, 1
  {
    if folder.Folder? {
      var pathFolder := PathJoin(basePath, folder.name);
      OwnSvgRequests(svc, folder.charts, pathFolder, maxRetries);
      SvgChildrenPaths(svc, folder.children, pathFolder, MakeDirs(dirs, pathFolder));
    }
  }

  lemma {:induction false} SvgChildrenPaths(svc: Service, children: seq<Folder>, pathFolder: string, dirs: set<string>)
    ensures forall r | r in SvgChildren(svc, children, pathFolder, dirs).requests :: pathFolder + "/" <= r.filepath
    decreases children, 0
  {
    if children != [] {
      var first := SvgFolder(svc, children[0], pathFolder, DefaultMaxRetries, dirs);
      SvgPathsUnderFolder(svc, children[0], pathFolder, DefaultMaxRetries, dirs);
      forall r | r in first.requests ensures pathFolder + "/" <= r.filepath {
        assert PathJoin(pathFolder, children[0].name) + "/" <= r.filepath;
      }
      SvgChildrenPaths(svc, children[1..], pathFolder, first.dirs);
    }
  }

  /** Directories only ever get created, and a processed folder's directory exists afterwards. */
  lemma {:induction false} SvgDirsCreated(svc: Service, folder: Folder, basePath: string, maxRetries: int, dirs: set<string>)
    ensures dirs <= SvgFolder(svc, folder, basePath, maxRetries, dirs).dirs
    ensures folder.Folder? ==> PathJoin(basePath, folder.name) in SvgFolder(svc, folder, basePath, maxRetries, dirs).dirs
    decreases folder, 1
  {
    if folder.Folder? {
      var pathFolder := PathJoin(basePath, folder.name);
      SvgChildrenDirs(svc, folder.children, pathFolder, MakeDirs(dirs, pathFolder));
    }
  }

  lemma {:induction false} SvgChildrenDirs(svc: Service, children: seq<Folder>, pathFolder: string, dirs: set<string>)
    ensures dirs <= SvgChildren(svc, children, pathFolder, dirs).dirs
    decreases children, 0
  {
    if children != [] {
      var first := SvgFolder(svc, children[0], pathFolder, DefaultMaxRetries, dirs);
      SvgDirsCreated(svc, children[0], pathFolder, DefaultMaxRetries, dirs);
      SvgChildrenDirs(svc, children[1..], pathFolder, first.dirs);
    }
  }

  /**
   * `max_retries` is not forwarded: whatever the first folder is given, whether
   * it finishes, the directories it leaves, and every call after those for its
   * own charts are the same. Everything below it uses the default.
   */
  lemma RetriesNotForwarded(svc: Service, folder: Folder, basePath: string, m1: int, m2: int, dirs: set<string>)
    requires folder.Folder?
    ensures var pathFolder := PathJoin(basePath, folder.name);
      var run1 := SvgFolder(svc, folder, basePath, m1, dirs);
      var run2 := SvgFolder(svc, folder, basePath, m2, dirs);
      var own1 := SvgCharts(svc, folder.charts, pathFolder, m1);
      var own2 := SvgCharts(svc, folder.charts, pathFolder, m2);
      && own1.ok == own2.ok
      && run1.ok == run2.ok
      && run1.dirs == run2.dirs
      && run1.requests[|own1.requests|..] == run2.requests[|own2.requests|..]
  {
    var pathFolder := PathJoin(basePath, folder.name);
    SvgChartsFinish(svc, folder.charts, pathFolder, m1);
    SvgChartsFinish(svc, folder.charts, pathFolder, m2);
    var own1 := SvgCharts(svc, folder.charts, pathFolder, m1);
    var own2 := SvgCharts(svc, folder.charts, pathFolder, m2);
    var run1 := SvgFolder(svc, folder, basePath, m1, dirs);
    var run2 := SvgFolder(svc, folder, basePath, m2, dirs);
    assert run1.requests[|own1.requests|..] == run2.requests[|own2.requests|..] by {
      if own1.ok {
        var kids := SvgChildren(svc, folder.children, pathFolder, MakeDirs(dirs, pathFolder));
        assert run1.requests == own1.requests + kids.requests;
        assert run2.requests == own2.requests + kids.requests;
        assert run1.requests[|own1.requests|..] == kids.requests;
        assert run2.requests[|own2.requests|..] == kids.requests;
      } else {
        assert run1.requests[|own1.requests|..] == [];
        assert run2.requests[|own2.requests|..] == [];
      }
    }
  }
}
