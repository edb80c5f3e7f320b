/** The Spring backend's task controller: it turns the service's results into HTTP responses.
    The list response echoes the paging it was asked for; a missing task is a 404; a delete
    always answers 200 with the number of tasks removed. */
module TaskController {
  import opened Wrappers
  import TaskService
  import Text

  /** A value of a JSON response map. */
  datatype Json = JTasks(tasks: seq<TaskService.Task>) | JInt(n: int)

  /** An HTTP response: the status and, for 200, its body. */
  datatype Response<T> = Ok200(body: T) | NotFound404

  const ListKeys: set<string> := {"data", "total", "page", "limit", "totalPages"}

  /** `Page.getTotalPages` for a page size of at least one: the fewest pages holding `total`
      rows. */
  function TotalPages(total: int, size: int): (pages: int)
    requires total >= 0 && size >= 1
    ensures pages >= 0
    ensures pages * size >= total
    ensures pages > 0 ==> (pages - 1) * size < total
  {
    var q := (total + size - 1) / size;
    var rem := (total + size - 1) % size;
    assert total + size - 1 == q * size + rem;
    assert (q - 1) * size == q * size - size;
    q
  }

  /** A table with no rows has no pages; one row more than a whole number of pages needs one
      page more. */
  lemma TotalPagesExamples(size: int)
    requires size >= 1
    ensures TotalPages(0, size) == 0
    ensures TotalPages(size, size) == 1
    ensures TotalPages(size + 1, size) == 2
  {
    PagesBetween(0, size, 0);
    PagesBetween(size, size, 1);
    assert (2 - 1) * size < size + 1 <= 2 * size;
    PagesBetween(size + 1, size, 2);
  }

  /** `total` rows fill exactly `k` pages when they overflow `k - 1` pages and fit in `k`. */
  lemma PagesBetween(total: int, size: int, k: int)
    requires total >= 0 && size >= 1 && k >= 0
    requires (k - 1) * size < total <= k * size
    ensures TotalPages(total, size) == k
  {
    var p := TotalPages(total, size);
    if p < k {
      Text.MulMonotone(p, k - 1, size);
    } else if p > k {
      Text.MulMonotone(k, p - 1, size);
    }
  }

  /** The page reported: the first for a missing or non-positive request, else the request. */
  function ReportedPage(page: Option<int>): (p: int)
    ensures page.Some? && page.value >= 1 ==> p == page.value
    ensures !(page.Some? && page.value >= 1) ==> p == 1
  {
    if page.None? || page.value < 1 then 1 else page.value
  }

  /** The limit reported: the page's size for a missing or non-positive request, else the
      request. */
  function ReportedLimit(limit: Option<int>, result: TaskService.PageResult): (l: int)
    ensures limit.Some? && limit.value >= 1 ==> l == limit.value
    ensures !(limit.Some? && limit.value >= 1) ==> l == result.size
  {
    if limit.None? || limit.value < 1 then result.size else limit.value
  }

  /** `getTasks`: the five keys of the list response. */
  function GetTasks(page: Option<int>, limit: Option<int>, result: TaskService.PageResult): (r: Response<map<string, Json>>)
    requires result.total >= 0 && result.size >= 1
    ensures r.Ok200? && r.body.Keys == ListKeys
    ensures r.body["data"] == JTasks(result.content) && r.body["total"] == JInt(result.total)
    ensures r.body["page"] == JInt(ReportedPage(page)) && r.body["limit"] == JInt(ReportedLimit(limit, result))
    ensures r.body["totalPages"] == JInt(TotalPages(result.total, result.size))
  {
    Ok200(map["data" := JTasks(result.content), "total" := JInt(result.total), "page" := JInt(ReportedPage(page)),
              "limit" := JInt(ReportedLimit(limit, result)), "totalPages" := JInt(TotalPages(result.total, result.size))])
  }

  /** For a page the service built, the response reports the page and the limit the service used:
      the page's index plus one and its size, whatever was asked for. */
  lemma ResponseEchoesServicePaging(page: Option<int>, limit: Option<int>, rows: seq<TaskService.Task>, total: int)
    requires total >= 0
    ensures var p := TaskService.NormalizePage(page);
      var l := TaskService.NormalizeLimit(limit);
      var result := TaskService.PageResult(rows, p - 1, l, total);
      var body := GetTasks(page, limit, result).body;
      body["page"] == JInt(result.pageIndex + 1) && body["limit"] == JInt(result.size)
      && body["totalPages"] == JInt(TotalPages(total, l))
  {
  }

  /** `getTask` and `updateTask`: the task, or 404 when the service found none. */
  function FoundOr404(found: Option<TaskService.Task>): (r: Response<TaskService.Task>)
    ensures r.NotFound404? <==> found.None?
    ensures r.Ok200? ==> r.body == found.value
  {
    match found
    case None => NotFound404
    case Some(t) => Ok200(t)
  }

  /** `deleteTask`: always 200, with `affected` 1 when a task was removed and 0 otherwise. */
  function DeleteTask(removed: bool): (r: Response<map<string, Json>>)
    ensures r.Ok200? && r.body.Keys == {"affected"}
    ensures r.body["affected"] == JInt(1) <==> removed
    ensures r.body["affected"] == JInt(0) <==> !removed
  {
    Ok200(map["affected" := JInt(if removed then 1 else 0)])
  }
}
