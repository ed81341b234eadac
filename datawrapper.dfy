/**
 * The Datawrapper service as the scripts see it, replaced by plain data:
 * the folder tree a traversal reads, the chart details `get_chart` returns,
 * the embed codes the client library returns and, for every export attempt,
 * whether the call succeeded or raised. An export call is not performed: it
 * becomes an `ExportRequest` value in the output of the traversal.
 */
module Datawrapper {
  import opened Wrappers

  type ChartId = string

  /** A folder as `get_folder` returns it, or a folder id whose `get_folder` call raises. */
  datatype Folder =
    | Folder(id: nat, name: string, charts: seq<ChartId>, children: seq<Folder>)
    | Unreachable(id: nat)

  /** What `get_chart` returns: the chart's "title" entry, `None` when the key is absent. */
  datatype ChartDetails = ChartDetails(title: Option<string>)

  /** How one call to the library's `export_chart` ends. */
  datatype Outcome = Success | ReadTimeout | ValueError

  /**
   * The state of the service during one run.
   * - `charts`: a chart id missing here makes `get_chart` raise;
   * - `iframes`: the library's `get_iframe_code(responsive=True)` result, a missing id makes it raise;
   * - `exports`: for a chart id and output format, the outcomes of the successive export
   *   attempts; attempts beyond the listed ones time out.
   */
  datatype Service = Service(
    charts: map<ChartId, ChartDetails>,
    iframes: map<ChartId, string>,
    exports: map<(ChartId, string), seq<Outcome>>)

  /** One call of the library's `export_chart`, with every argument the scripts pass. */
  datatype ExportRequest = ExportRequest(
    chartId: ChartId,
    width: Option<int>,
    height: Option<string>,
    borderWidth: int,
    output: string,
    filepath: string,
    display: bool,
    kwargs: map<string, bool>)

  /** The successive outcomes the service gives to export attempts of `id` in format `output`. */
  function Responses(svc: Service, id: ChartId, output: string): seq<Outcome> {
    if (id, output) in svc.exports then svc.exports[(id, output)] else []
  }

  /** The title `get_chart(id)["title"]` yields, or `None` when that expression raises. */
  function TitleOf(svc: Service, id: ChartId): Option<string> {
    if id in svc.charts then svc.charts[id].title else None
  }
}
