# Datawrapper chart export scripts, modelled in Dafny

The repository is a set of scripts around the Datawrapper charting service.
`export_charts.py` exports every chart of a folder as svg and as png, named
from a chart-numbering spreadsheet. `query_api.py` exports a whole folder tree
as svg. `get_chart_details.py` lists the metadata of every chart of a folder;
`get_charts` can also walk the folder's sub-folders.
`utils.py` is a small hand-written client for the service's REST API.

The model keeps the scripts' decisions and replaces the service with plain data:

- `Datawrapper.Folder` is the folder tree: `Folder(id, name, charts, children)`,
  or `Unreachable(id)` for a folder whose `get_folder` call raises.
- `Datawrapper.Service` holds what the service returns. `charts` gives each chart's
  `get_chart` details; a missing id raises. `iframes` gives the library's iframe
  code; a missing id raises. `exports` gives, per chart id and format, the outcome of
  each successive export attempt: `Success`, `ReadTimeout` or `ValueError`.
  Every attempt beyond the listed outcomes times out.
- An export call is not performed. It becomes an `ExportRequest` value holding every
  argument the script passes, including the forwarded keyword arguments.
  A traversal returns the sequence of calls it made. It also returns whether it
  finished (`true`) or an exception escaped (`false`). When an exception escapes,
  the calls made before it are kept.
- The chart-numbering spreadsheet is a sequence of `(Chart ID, Chart number)` rows.
  The metadata sheet is a sequence of `Record`s.
- `query_api.py` creates directories on the file system. The model passes the set of
  existing directories in and returns the set afterwards.

Modules, one per source file, plus shared parts:
`Wrappers` (Option, Result), `Datawrapper` (the service as data), `Filenames`
(the `/`-and-`:` sanitising and path joining both exporters use), `Retry` (the
bounded retry loop both exporters use, the default of 5 retries, and `Pass`, the
calls a traversal made with whether it finished, sequenced by `Then`), `Utils`, `ExportCharts`,
`GetChartDetails`, `QueryApi`.

Each traversal is a method with loops. Its `ensures` ties its result to a
recursive specification function (`FolderPass`, `Collect`, `SvgFolder`). The
lemmas prove the scripts' rules about those functions.

Behaviour of the code worth knowing:

- The retry loop makes at most `max_retries` attempts, stopping at the first that
  returns, without waiting between them.
  It retries `ValueError` as well as `ReadTimeout`, and it never re-raises when the
  attempts run out. No backoff is modelled.
- Sanitising deletes only `/` and `:`. It does not strip other characters,
  whitespace or dots, and it does not truncate to 255 characters.
- A chart listed in the lookup is named after its chart number alone, not
  `"{number}-{title}"`.
- `query_api.py` adds every folder's name to the path, the first folder included.
- No script has a skip-folder rule or a publish step.
- The metadata dump does not skip placeholder charts.

## Model

| member | source | states |
|---|---|---|
| `Filenames.RemoveChar` | query_api.py:91-92 | deleting one character keeps exactly the other characters: none of the deleted one remains, and nothing new appears |
| `Filenames.RemoveCharCounts` | query_api.py:91-92 | every other character keeps its number of occurrences; the length drops by the number of deleted characters |
| `Filenames.Sanitise` | export_charts.py:103 | a sanitised name contains neither `/` nor `:` and keeps every other character of the input |
| `Filenames.SanitiseIdempotent` | export_charts.py:98-103 | sanitising a second time changes nothing |
| `Filenames.SanitiseAppend` | export_charts.py:97-103 | sanitising a concatenation is the concatenation of the sanitised parts |
| `Retry.FirstSuccess` | export_charts.py:105-118 | the index of the first `Success` among the listed outcomes: every earlier outcome is a failure |
| `Retry.ExportWithRetries` | export_charts.py:105-124 | the number of calls is min(first success + 1, max_retries), or 0 when max_retries <= 0; every call is the same request; every attempt but the last failed; it reports success exactly when a success came within the attempts; `ReadTimeout` and `ValueError` both lead to another attempt and nothing is raised |
| `Utils.ValidateApiToken` | utils.py:18-26 | fails, with the source's message, exactly when the token is unset or empty |
| `Utils.AuthorizationCarriesToken` | utils.py:42-45 | the Authorization header of a validated token is "Bearer " followed by exactly that token |
| `Utils.AuthorizationInjective` | utils.py:79-81 | different validated tokens give different Authorization headers |
| `Utils.Decimal` | utils.py:101 | a folder id renders as a non-empty string of decimal digits |
| `Utils.DecimalRoundTrip` | utils.py:101 | reading the rendered digits gives back the folder id |
| `Utils.FolderUrlInjective` | utils.py:91-101 | different folder ids are fetched from different URLs |
| `Utils.ChartUrlInjective` | utils.py:104-114 | different chart ids are fetched from different URLs, and no chart URL equals a folder URL |
| `Utils.RequestsAuthorised` | utils.py:29-49 | folder, chart and embed-code requests all carry the bearer header and the JSON content type, and no query parameters |
| `Utils.ChartSubresources` | utils.py:128 | the embed-code URL is the chart URL plus "/embed-codes", and the export URL is the chart URL plus "/export/{format}" |
| `Utils.ApiRequest` | utils.py:29-49 | a GET of base + endpoint with exactly the headers Authorization = "Bearer " + token and Content-Type = "application/json", and no query parameters |
| `Utils.GetFolder` | utils.py:91-101 | the URL is base + "/folders/" followed by decimal digits that read back as the folder id, with the bearer header |
| `Utils.GetChart` | utils.py:104-114 | the URL is base + "/charts/" followed by the chart id unchanged, with the bearer header |
| `Utils.GetEmbedCodes` | utils.py:128 | the URL is the chart's URL plus "/embed-codes", with the same headers |
| `Utils.Normalise` | utils.py:130-132 | a dict response is used as it is; a non-empty list is replaced by its first element; only an empty list leaves nothing to look a key up in |
| `Utils.ExportParams` | utils.py:68-77 | "width" is present iff a width is given, "height" iff a height is given, "borderWidth" iff the border is non-zero, and "plain"="true" iff plain; each holds its argument, and there are no other keys |
| `Utils.ExportChart` | utils.py:52-85 | the export request goes to base + "/charts/{id}/export/{format}" with only the bearer header, and its parameters follow the same key-by-key rule |
| `Utils.ExportChartDefaults` | utils.py:52 | with every default argument, the parameters are exactly {"height": "auto"} |
| `Utils.GetIframeCode` | utils.py:117-137 | raises only for an empty list; otherwise returns the "responsive" code when responsive, the "static" code when not, and "" when that key is missing |
| `Utils.ListAnswersLikeFirst` | utils.py:130-132 | a non-empty list response gives the same answer as its first element would on its own |
| `ExportCharts.FirstMatch` | export_charts.py:89-92 | finds the first lookup row whose Chart ID equals the chart id; it finds nothing exactly when no row matches |
| `ExportCharts.FilenameFromLookup` | export_charts.py:89-103 | when some row matches, the file name is the first matching row's Chart number with `/` and `:` removed |
| `ExportCharts.FilenameFallback` | export_charts.py:97-103 | when no row matches, the file name is "{id}-{title}" sanitised once, the same as sanitising the title and then the whole name |
| `ExportCharts.ChartFilename` | export_charts.py:89-103 | the resolved file name never contains `/` or `:` |
| `ExportCharts.ChartsPassFinishes` | export_charts.py:80-85 | a pass over the folder's charts finishes exactly when `get_chart` succeeds for every one of them |
| `ExportCharts.ExportChart` | export_charts.py:83-124 | one chart of the pass: a failing `get_chart` ends the pass; the placeholder title is skipped; otherwise the named request is retried |
| `ExportCharts.ExportFolder` | export_charts.py:76-124 | the calls of one pass are those of its charts in folder order, stopping at the first exception; an unreachable folder makes no call and raises |
| `ExportCharts.ChartsPassRequests` | export_charts.py:80-117 | every call of a pass is for a chart of the folder that has a title other than the placeholder, and is that chart's request |
| `ExportCharts.RequestShape` | export_charts.py:108-117 | every call uses width None, height "auto", border 0 and display False; it uses the pass's format and forwarded kwargs, and the path `path + "/" + filename + "." + output` with the chart's resolved file name |
| `ExportCharts.PlaceholderNeverRequested` | export_charts.py:85-86 | a chart titled "[ Insert title here ]" gets no export call |
| `ExportCharts.TitledChartRequested` | export_charts.py:81-118 | in a pass that finishes, with max_retries >= 1, every titled chart of the folder gets a call |
| `ExportCharts.ExportAllFormats` | export_charts.py:145-157 | the driver makes the svg pass with plain=True, then, unless that pass raised, the png pass with plain=False, each with 5 retries |
| `ExportCharts.DriverExportsBothFormats` | export_charts.py:150-157 | a driver run that finishes requests every titled chart as svg (plain) and as png (not plain) |
| `GetChartDetails.CurrentPath` | get_chart_details.py:53 | at the top (empty parent path) the path is the folder name; otherwise it is the parent path, the separator, then the name |
| `GetChartDetails.ChartRecord` | get_chart_details.py:59-89 | a record has the chart's id, a blank Chart number and the folder path; a failed `get_chart` gives both error texts; otherwise the title ("Untitled" if absent) and the iframe code, or its error text if only that call failed |
| `GetChartDetails.FolderRecords` | get_chart_details.py:58-89 | the loop over a folder's own charts emits exactly one record per chart, in order, each that chart's record |
| `GetChartDetails.GetCharts` | get_chart_details.py:27-103 | the records are the folder's own records, in chart order, followed, when recursive, by each child's records in child order; an unreachable folder yields none and nothing is raised |
| `GetChartDetails.OneRecordPerChart` | get_chart_details.py:59-98 | exactly one record per chart: the folder's count without recursion, the whole tree's count with it |
| `GetChartDetails.OneRecordPerChildChart` | get_chart_details.py:90-98 | the children together give one record per chart in their subtrees |
| `GetChartDetails.OwnRecords` | get_chart_details.py:53-89 | record i is chart i of the folder. Its path is the folder name at the top, otherwise the parent path joined with the name. A failed `get_chart` gives both error texts. Otherwise the record keeps the title ("Untitled" if absent) and the iframe code, or "Error retrieving iframe code" if only that call failed |
| `GetChartDetails.ChartNumbersBlank` | get_chart_details.py:70-87 | every record's Chart number is the empty string |
| `GetChartDetails.ChildChartNumbersBlank` | get_chart_details.py:90-98 | the same holds for every record collected from the children |
| `GetChartDetails.NonRecursiveVisitsNoChild` | get_chart_details.py:90-98 | without recursive, the result is only the folder's own records and mentions only the folder's charts |
| `GetChartDetails.DescendantPathsPrefixed` | get_chart_details.py:53 | every record below a non-empty parent path has a path starting with that path and the separator |
| `GetChartDetails.ChildPathsPrefixed` | get_chart_details.py:90-98 | every record collected from a folder's children has a path starting with the folder's path and the separator |
| `QueryApi.MakeDirs` | query_api.py:79-80 | after creating, the directory exists, every existing directory remains, and nothing else is added |
| `QueryApi.MakeDirsIdempotent` | query_api.py:79-80 | creating an existing directory again changes nothing |
| `QueryApi.ExportSvgChart` | query_api.py:84-113 | one chart: a failing `get_chart` raises; otherwise the title loses `/` and `:` and the request is retried |
| `QueryApi.ExportSvgCharts` | query_api.py:82-113 | the folder's charts in order, with no placeholder skip, stopping at the first exception |
| `QueryApi.ExportSvgs` | query_api.py:52-122 | the directory `base/name` is created. Then the folder's charts are exported, then each child in order, with the default max_retries. The run stops at the first exception, and the directories are threaded through |
| `QueryApi.SvgRequestShape` | query_api.py:97-106 | every call in the tree uses width 853, height "auto", border 0, output "svg", plain=True and display False |
| `QueryApi.SvgChildrenShape` | query_api.py:115-120 | the same holds for every call made by the children |
| `QueryApi.OwnSvgRequests` | query_api.py:83-106 | each call for the folder's own charts is at `path_folder + "/" + id + "-" + sanitised title + ".svg"` (the id is not sanitised). If the charts finish and max_retries >= 1, every chart gets such a call |
| `QueryApi.SvgPathsUnderFolder` | query_api.py:74-77 | every call below a folder writes inside `base/name`, the first folder included |
| `QueryApi.SvgChildrenPaths` | query_api.py:115-120 | every call made by a folder's children writes inside that folder's directory |
| `QueryApi.SvgDirsCreated` | query_api.py:74-80 | existing directories remain, and a visited folder's directory exists afterwards |
| `QueryApi.SvgChildrenDirs` | query_api.py:115-120 | the children never remove a directory |
| `QueryApi.SvgChartsFinish` | query_api.py:82-86 | the folder's own charts finish exactly when `get_chart` succeeds for every one of them |
| `QueryApi.ExportSvgChildren` | query_api.py:115-120 | the children are exported in order, each as a whole tree with the default max_retries, stopping at the first exception, with the directories threaded through |
| `QueryApi.RetriesNotForwarded` | query_api.py:115-120 | max_retries is not forwarded: for any folder, two runs that differ only in max_retries agree on whether the own charts finish, on whether the whole run finishes, on the directories, and on every call made by the children |

## Left out

- HTTP, the `datawrapper` client library, response bodies and writing exported bytes to files: foreign calls and I/O. Their results are inputs (`Service`, `EmbedResponse`) and their calls are outputs (`ExportRequest`, `HttpGet`).
- Reading the chart-numbering spreadsheet and writing the metadata sheet with pandas: spreadsheet I/O. The lookup is a sequence of rows and the sheet a sequence of records.
- Environment variables, `os.getlogin`, the hard-coded base paths and folder ids: configuration. The token is a parameter, with `None` for an unset variable.
- Every `print`: console output only.
- The recursive branch of `export_charts.py` (lines 127-139). Its call omits the required `dw` and `output` arguments, so it would raise a TypeError. It also grows `path` by the folder's name once per child. The driver never sets `recursive`, so only the non-recursive pass is modelled.
- `export_charts.py` chart numbers that are blank or numeric cells: they would make the `.replace` at line 103 raise. Chart numbers are strings.
- A `null` title from `get_chart`: a title is either a string or missing.
- Exceptions from `export_chart` other than `ReadTimeout` and `ValueError`, such as HTTP errors: the outcome of an attempt is one of those three.
- `get_charts` folder-level exceptions after some records were collected: with charts and children as data (not dicts that may lack an "id"), the only folder-level failure is an unreachable folder, which yields no records.
- The top-level block of `get_chart_details.py` (token check, the non-recursive call, the spreadsheet): configuration and I/O.
- `os.path.join` edge cases: an empty first part, a trailing separator, an absolute second part, and the platform separator. Paths are joined with one `/`.
- `os.makedirs` creating missing parent directories: the set of directories records only the folder's own directory.
- `make_api_request`'s `raise_for_status` and JSON decoding: `get_iframe_code` is modelled from the decoded response. A response that is neither a list nor a dict is not modelled.
- Forwarded keyword arguments of `export_charts` in `export_charts.py` (`**kwargs`): modelled as a map from names to booleans, because the only one any caller passes is `plain`. Other keyword arguments and their types are not modelled.
- Negative folder ids: `get_folder` takes any int, but the service issues only non-negative ids, so folder ids are `nat` and render as plain decimal digits with no sign.
- Network timing and nondeterminism: the outcome of an export attempt depends only on the chart, the format and the attempt's position.
