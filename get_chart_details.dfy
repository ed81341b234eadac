/**
 * get_chart_details.py: `get_charts` walks a folder tree in pre-order and
 * emits one metadata record per chart, with error placeholders where a call
 * fails. It never raises: a folder that cannot be fetched contributes nothing.
 */
module GetChartDetails {
  import opened Wrappers
  import opened Datawrapper
  import opened Filenames

  const TitleError: string := "Error retrieving title"
  const IframeError: string := "Error retrieving iframe code"
  const Untitled: string := "Untitled"

  /** One row of the metadata sheet. */
  datatype Record = Record(chartNumber: string, chartId: ChartId, chartTitle: string, iframeCode: string, folderPath: string)

  /** The folder's path: its name at the top, otherwise the parent's path joined with its name. */
  function CurrentPath(parentPath: string, name: string): (r: string)
    ensures parentPath == "" ==> r == name
    ensures parentPath != "" ==> parentPath + [Sep] <= r && r[|parentPath| + 1..] == name
  {
    if parentPath == "" then name else PathJoin(parentPath, name)
  }

  /** The record of one chart of a folder whose path is `path`. */
  function ChartRecord(svc: Service, id: ChartId, path: string): (r: Record)
    ensures r.chartId == id && r.chartNumber == "" && r.folderPath == path
    ensures id !in svc.charts ==> r.chartTitle == TitleError && r.iframeCode == IframeError
    ensures id in svc.charts ==> r.chartTitle == svc.charts[id].title.GetOr(Untitled)
    ensures id in svc.charts ==> r.iframeCode == if id in svc.iframes then svc.iframes[id] else IframeError
  {
    if id !in svc.charts then Record("", id, TitleError, IframeError, path)
    else
      var iframe := if id in svc.iframes then svc.iframes[id] else IframeError;
      Record("", id, svc.charts[id].title.GetOr(Untitled), iframe, path)
  }

  function ChartRecords(svc: Service, charts: seq<ChartId>, path: string): seq<Record> {
    seq(|charts|, i requires 0 <= i < |charts| => ChartRecord(svc, charts[i], path))
  }

  /** What `get_charts(dw, folder, parentPath, recursive)` returns. */
  function Collect(svc: Service, folder: Folder, parentPath: string, recursive: bool): seq<Record> {
    match folder
    case Unreachable(_) => []
    case Folder(_, name, charts, children) =>
      var path := CurrentPath(parentPath, name);
      ChartRecords(svc, charts, path) + (if recursive then CollectChildren(svc, children, path) else [])
  }

  /** The records of the children, in order, each collected recursively under `path`. */
  function CollectChildren(svc: Service, children: seq<Folder>, path: string): seq<Record> {
    if children == [] then []
    else Collect(svc, children[0], path, true) + CollectChildren(svc, children[1..], path)
  }

  lemma {:induction false} CollectChildrenSnoc(svc: Service, children: seq<Folder>, path: string, j: nat)
    requires j < |children|
    ensures CollectChildren(svc, children[..j + 1], path)
         == CollectChildren(svc, children[..j], path) + Collect(svc, children[j], path, true)
  {
    if j == 0 {
      assert children[..1][1..] == [];
    } else {
      var tail := children[1..];
      assert children[..j + 1][1..] == tail[..j];
      assert children[..j][1..] == tail[..j - 1];
      assert children[..j + 1][0] == children[..j][0] == children[0];
      CollectChildrenSnoc(svc, tail, path, j - 1);
      assert tail[j - 1] == children[j];
    }
  }

  /** The loop over a folder's own charts in `get_charts`: one record per chart, in order. */
  method FolderRecords(svc: Service, charts: seq<ChartId>, currentPath: string) returns (chartsData: seq<Record>)
    ensures chartsData == ChartRecords(svc, charts, currentPath)
  {
    chartsData := [];
    for i := 0 to |charts|
      invariant chartsData == ChartRecords(svc, charts[..i], currentPath)
    {
      var id := charts[i];
      var chartInfo: Record;
      if id in svc.charts {
        var chartDetails := svc.charts[id];
        var iframeCode: string;
        if id in svc.iframes {
          iframeCode := svc.iframes[id];
        } else {
          // get_iframe_code raised
          iframeCode := IframeError;
        }
        chartInfo := Record("", id, chartDetails.title.GetOr(Untitled), iframeCode, currentPath);
      } else {
        // get_chart raised
        chartInfo := Record("", id, TitleError, IframeError, currentPath);
      }
      assert chartInfo == ChartRecord(svc, charts[..i + 1][i], currentPath);
      chartsData := chartsData + [chartInfo];
    }
    assert charts[..|charts|] == charts;
  }

  /** `get_charts(dw, folder_id, dw_folder_path="", recursive=False)`. */
  method GetCharts(svc: Service, folder: Folder, dwFolderPath: string := "", recursive: bool := false)
    returns (chartsData: seq<Record>)
    ensures chartsData == Collect(svc, folder, dwFolderPath, recursive)
    decreases folder
  {
    chartsData := [];
    if folder.Unreachable? {
      // get_folder raised: the exception is printed and swallowed
      return;
    }
    var currentPath := if dwFolderPath != "" then PathJoin(dwFolderPath, folder.name) else folder.name;
    chartsData := FolderRecords(svc, folder.charts, currentPath);
    if recursive {
      var children := folder.children;
      ghost var own := chartsData;
      for j := 0 to |children|
        invariant chartsData == own + CollectChildren(svc, children[..j], currentPath)
      {
        var childCharts := GetCharts(svc, children[j], currentPath, true);
        CollectChildrenSnoc(svc, children, currentPath, j);
        chartsData := chartsData + childCharts;
      }
      assert children[..|children|] == children;
    }
  }

  /** The number of charts in a folder and, recursively, its children. */
  function TotalCharts(folder: Folder): nat {
    match folder
    case Unreachable(_) => 0
    case Folder(_, _, charts, children) => |charts| + TotalChildCharts(children)
  }

  function TotalChildCharts(children: seq<Folder>): nat {
    if children == [] then 0 else TotalCharts(children[0]) + TotalChildCharts(children[1..])
  }

  /** Exactly one record per chart is emitted, whether or not its details could be read. */
  lemma {:induction false} OneRecordPerChart(svc: Service, folder: Folder, parentPath: string)
    ensures |Collect(svc, folder, parentPath, true)| == TotalCharts(folder)
    ensures folder.Folder? ==> |Collect(svc, folder, parentPath, false)| == |folder.charts|
    decreases folder, 1
  {
    if folder.Folder? {
      OneRecordPerChildChart(svc, folder.children, CurrentPath(parentPath, folder.name));
    }
  }

  lemma {:induction false} OneRecordPerChildChart(svc: Service, children: seq<Folder>, path: string)
    ensures |CollectChildren(svc, children, path)| == TotalChildCharts(children)
    decreases children, 0
  {
    if children != [] {
      OneRecordPerChart(svc, children[0], path);
      OneRecordPerChildChart(svc, children[1..], path);
    }
  }

  /**
   * The first records are the folder's own charts, in folder order: each has
   * an empty chart number, the folder's path, and either the chart's title
   * ("Untitled" if it has none) and iframe code ("Error retrieving iframe code"
   * if that call failed), or both error texts if `get_chart` failed.
   */
  lemma OwnRecords(svc: Service, folder: Folder, parentPath: string, recursive: bool, i: nat)
    requires folder.Folder? && i < |folder.charts|
    ensures var r := Collect(svc, folder, parentPath, recursive)[i];
      var id := folder.charts[i];
      && r.chartId == id
      && r.chartNumber == ""
      && r.folderPath == (if parentPath == "" then folder.name else parentPath + "/" + folder.name)
      && (id !in svc.charts ==> r.chartTitle == TitleError && r.iframeCode == IframeError)
      && (id in svc.charts ==> r.chartTitle == svc.charts[id].title.GetOr(Untitled))
      && (id in svc.charts && id in svc.iframes ==> r.iframeCode == svc.iframes[id])
      && (id in svc.charts && id !in svc.iframes ==> r.iframeCode == IframeError)
  {
  }

  /** Every record, at any depth, has an empty chart number, for filling in by hand. */
  lemma {:induction false} ChartNumbersBlank(svc: Service, folder: Folder, parentPath: string, recursive: bool)
    ensures forall r | r in Collect(svc, folder, parentPath, recursive) :: r.chartNumber == ""
    decreases folder, 1
  {
    if folder.Folder? && recursive {
      ChildChartNumbersBlank(svc, folder.children, CurrentPath(parentPath, folder.name));
    }
  }

  lemma {:induction false} ChildChartNumbersBlank(svc: Service, children: seq<Folder>, path: string)
    ensures forall r | r in CollectChildren(svc, children, path) :: r.chartNumber == ""
    decreases children, 0
  {
    if children != [] {
      ChartNumbersBlank(svc, children[0], path, true);
      ChildChartNumbersBlank(svc, children[1..], path);
    }
  }

  /** Without `recursive`, only the folder's own charts are listed: no child is visited. */
  lemma NonRecursiveVisitsNoChild(svc: Service, folder: Folder, parentPath: string)
    ensures Collect(svc, folder, parentPath, false)
         == if folder.Folder? then ChartRecords(svc, folder.charts, CurrentPath(parentPath, folder.name)) else []
    ensures forall r | r in Collect(svc, folder, parentPath, false) :: folder.Folder? && r.chartId in folder.charts
  {
    if folder.Folder? {
      var own := ChartRecords(svc, folder.charts, CurrentPath(parentPath, folder.name));
      assert own + [] == own;
    }
  }

  /**
   * With `recursive`, the folder's own records come first, then each child's,
   * in child order; every record below the folder has a path that starts
   * with the folder's path followed by the separator.
   */
  lemma {:induction false} DescendantPathsPrefixed(svc: Service, folder: Folder, parentPath: string)
    requires parentPath != ""
    ensures forall r | r in Collect(svc, folder, parentPath, true) :: parentPath + [Sep] <= r.folderPath
    decreases folder, 1
  {
    if folder.Folder? {
      var path := CurrentPath(parentPath, folder.name);
      assert path == parentPath + [Sep] + folder.name;
      ChildPathsPrefixed(svc, folder.children, path);
      forall r | r in CollectChildren(svc, folder.children, path)
        ensures parentPath + [Sep] <= r.folderPath
      {
        assert path + [Sep] <= r.folderPath;
      }
    }
  }

  lemma {:induction false} ChildPathsPrefixed(svc: Service, children: seq<Folder>, path: string)
    requires path != ""
    ensures forall r | r in CollectChildren(svc, children, path) :: path + [Sep] <= r.folderPath
    decreases children, 0
  {
    if children != [] {
      DescendantPathsPrefixed(svc, children[0], path);
      ChildPathsPrefixed(svc, children[1..], path);
    }
  }
}
