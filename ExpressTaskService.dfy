/** The Express backend's task service: paging arithmetic and the search filter of `findAll`, and
    the writes of `create`, `update` and the two deletes over the tasks table, taken here as a
    map from id to task. */
module ExpressTaskService {
  import opened Wrappers
  import opened Text
  import opened Js

  /** A row of the tasks table. */
  datatype Task = Task(id: string, text: string, day: string, reminder: bool)

  /** The tasks table by primary key. */
  type Table = map<string, Task>

  // ---------------------------------------------------------------- findAll

  /** The paging and search of a list request; page and limit are numbers or missing. */
  datatype Query = Query(page: JsValue, limit: JsValue, search: JsValue)

  predicate NumberOrMissing(v: JsValue) {
    v.Num? || v == Undefined || v == Null
  }

  /** `query?.page || 1` and `query?.limit || 10`. */
  function NumberOr(v: JsValue, default: int): (n: int)
    requires NumberOrMissing(v)
    ensures Truthy(v) ==> n == v.n
    ensures !Truthy(v) ==> n == default
  {
    if Truthy(v) then v.n else default
  }

  /** `query?.search?.trim()` then `if (search)`: the trimmed text when it is not empty. */
  function SearchText(search: JsValue): (r: Option<string>)
    ensures r.Some? <==> search.Str? && JsTrim(search.s) != ""
    ensures r.Some? ==> r.value == JsTrim(search.s)
  {
    if search.Str? && JsTrim(search.s) != "" then Some(JsTrim(search.s)) else None
  }

  /** The `findAndCount` options: the `LIKE` pattern on text, if any, and take and skip; the
      order is always newest `createdAt` first. */
  datatype FindOptions = FindOptions(textLike: Option<string>, take: int, skip: int)

  /** Math.ceil(count / limit) for a non-zero limit. */
  function CeilDiv(count: int, limit: int): (r: int)
    requires count >= 0 && limit != 0
    ensures limit > 0 ==> (r - 1) * limit < count <= r * limit
    ensures limit < 0 ==> r * limit <= count < (r - 1) * limit
  {
    if limit > 0 then
      var q := (count + limit - 1) / limit;
      assert count + limit - 1 == q * limit + (count + limit - 1) % limit;
      assert (q - 1) * limit == q * limit - limit;
      q
    else
      var q := count / (-limit);
      assert count == q * (-limit) + count % (-limit);
      assert (-q - 1) * limit == q * (-limit) + (-limit);
      -q
  }

  /** The list response. */
  datatype PageResponse = PageResponse(data: seq<Task>, total: int, page: int, limit: int, totalPages: int)

  /** `findAll`'s request to the table. */
  function FindAllOptions(q: Query): (o: FindOptions)
    requires NumberOrMissing(q.page) && NumberOrMissing(q.limit)
    ensures o.take == NumberOr(q.limit, 10)
    ensures o.skip + o.take == NumberOr(q.page, 1) * o.take
    ensures o.textLike.Some? <==> SearchText(q.search).Some?
    ensures o.textLike.Some? ==> o.textLike.value == "%" + SearchText(q.search).value + "%"
  {
    var page := NumberOr(q.page, 1);
    var limit := NumberOr(q.limit, 10);
    var pattern := match SearchText(q.search) case Some(s) => Some("%" + s + "%") case None => None;
    FindOptions(pattern, limit, (page - 1) * limit)
  }

  /** `findAll`'s response, for the rows and the count the table answered with. The limit is
      never zero: a zero limit is falsy and becomes 10. */
  function FindAllResponse(q: Query, rows: seq<Task>, count: nat): (r: PageResponse)
    requires NumberOrMissing(q.page) && NumberOrMissing(q.limit)
    ensures r.data == rows && r.total == count
    ensures r.page == NumberOr(q.page, 1) && r.limit == NumberOr(q.limit, 10) && r.limit != 0
  {
    var page := NumberOr(q.page, 1);
    var limit := NumberOr(q.limit, 10);
    PageResponse(rows, count, page, limit, CeilDiv(count, limit))
  }

  /** With a positive limit, a page from 1 on starts before the end of the rows exactly when it
      is at most the reported number of pages. */
  lemma PagesCoverTheRows(q: Query, rows: seq<Task>, count: nat)
    requires NumberOrMissing(q.page) && NumberOrMissing(q.limit)
    requires NumberOr(q.page, 1) >= 1 && NumberOr(q.limit, 10) > 0
    ensures var o := FindAllOptions(q);
      o.skip < count <==> NumberOr(q.page, 1) <= FindAllResponse(q, rows, count).totalPages
  {
    var p := NumberOr(q.page, 1);
    var l := NumberOr(q.limit, 10);
    var t := CeilDiv(count, l);
    if p <= t {
      assert (p - 1) * l <= (t - 1) * l by { MulMonotone(p - 1, t - 1, l); }
    } else {
      assert t * l <= (p - 1) * l by { MulMonotone(t, p - 1, l); }
    }
  }

  /** A missing or empty request pages the first ten rows, newest first, unfiltered. */
  lemma DefaultRequest()
    ensures FindAllOptions(Query(Undefined, Undefined, Undefined)) == FindOptions(None, 10, 0)
    ensures FindAllOptions(Query(Num(0), Num(0), Str("  "))) == FindOptions(None, 10, 0)
  {
    assert JsTrim("  ") == "" by { TrimEmptyIff("  ", IsJsSpace); }
  }

  // ---------------------------------------------------------------- writes

  /** `create`: `save` inserts the task under its id, or overwrites the row with that id. */
  function Create(table: Table, dto: Task): (r: (Table, Task))
    ensures r.1 == dto && r.0.Keys == table.Keys + {dto.id} && r.0[dto.id] == dto
    ensures forall id :: id in table && id != dto.id ==> r.0[id] == table[id]
  {
    (table[dto.id := dto], dto)
  }

  /** `findOne`: the row with the id, if any. */
  function FindOne(table: Table, id: string): (r: Option<Task>)
    ensures r.Some? <==> id in table
    ensures r.Some? ==> r.value == table[id]
  {
    if id in table then Some(table[id]) else None
  }

  /** A created task is found under its id, and a removed one is not. */
  lemma CreateThenFindOne(table: Table, dto: Task, id: string)
    ensures FindOne(Create(table, dto).0, dto.id) == Some(dto)
    ensures FindOne(Remove(table, id).0, id) == None
    ensures id != dto.id ==> FindOne(Create(table, dto).0, id) == FindOne(table, id)
  {
  }

  /** An update's body: every field optional. */
  datatype UpdateDto = UpdateDto(id: Option<string>, text: Option<string>, day: Option<string>,
                                 reminder: Option<bool>)

  /** The row after an update writes text, day and reminder: a field the body leaves out keeps
      its value, and the id is never written. */
  function Patch(t: Task, dto: UpdateDto): (r: Task)
    ensures r.id == t.id
  {
    Task(t.id, dto.text.GetOr(t.text), dto.day.GetOr(t.day), dto.reminder.GetOr(t.reminder))
  }

  /** `update` then `findOne`: the patched row, or `None` when no row has the id (and nothing is
      written). */
  function Update(table: Table, id: string, dto: UpdateDto): (r: (Table, Option<Task>))
    ensures r.0.Keys == table.Keys
    ensures forall other :: other in table && other != id ==> r.0[other] == table[other]
    ensures id in table ==> r.0[id] == Patch(table[id], dto)
    ensures r.1 == FindOne(r.0, id)
    ensures id !in table ==> r.0 == table
  {
    if id in table then
      var t := Patch(table[id], dto);
      (table[id := t], FindOne(table[id := t], id))
    else (table, FindOne(table, id))
  }

  /** Updating twice with the same body is updating once, and no update changes a row's id or
      the set of ids, even when the body carries another id. */
  lemma UpdateIsIdempotent(table: Table, id: string, dto: UpdateDto)
    requires forall k :: k in table ==> table[k].id == k
    ensures var once := Update(table, id, dto).0;
      Update(once, id, dto) == (once, Update(table, id, dto).1)
      && forall k :: k in once ==> once[k].id == k
  {
    var once := Update(table, id, dto).0;
    if id in table {
      assert Patch(Patch(table[id], dto), dto) == Patch(table[id], dto);
      assert once[id := Patch(once[id], dto)] == once;
    }
  }

  /** `remove`: delete by id; `affected` counts the rows removed. */
  function Remove(table: Table, id: string): (r: (Table, nat))
    ensures r.0 == table - {id}
    ensures r.1 == 1 <==> id in table
    ensures r.1 == 0 <==> id !in table
  {
    (table - {id}, if id in table then 1 else 0)
  }

  /** The ids of the rows whose text is `name`. */
  function Named(table: Table, name: string): set<string> {
    set id | id in table && table[id].text == name
  }

  /** `removeByName`: delete every row whose text is `name`; `affected` counts them. */
  function RemoveByName(table: Table, name: string): (r: (Table, nat))
    ensures r.0.Keys == table.Keys - Named(table, name)
    ensures forall id :: id in r.0 ==> r.0[id] == table[id] && r.0[id].text != name
    ensures r.1 == |Named(table, name)|
  {
    (map id | id in table && table[id].text != name :: table[id], |Named(table, name)|)
  }

  /** The rows removed and the rows kept add up to the rows there were. */
  lemma RemoveByNameCounts(table: Table, name: string)
    ensures var (kept, affected) := RemoveByName(table, name);
      affected + |kept.Keys| == |table.Keys|
  {
    var kept := RemoveByName(table, name).0;
    var named := Named(table, name);
    assert table.Keys == named + kept.Keys;
    assert named * kept.Keys == {};
    UnionSize(named, kept.Keys);
  }

  lemma UnionSize<T>(a: set<T>, b: set<T>)
    requires a * b == {}
    ensures |a + b| == |a| + |b|
  {
    if a != {} {
      var x :| x in a;
      UnionSize(a - {x}, b);
      assert (a - {x}) + b == (a + b) - {x};
    }
  }
}
