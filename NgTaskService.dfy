/** The Angular client's task service: where the task API lives, and the requests it sends.
    The API's address is resolved once, from the Electron process's environment, then from the
    page's query string, then from the build's environment file. */
module NgTaskService {
  import opened Wrappers
  import opened Text
  import opened Js
  import Seqs

  // ---------------------------------------------------------------- the query string

  /** A query string's name/value pairs, in order. */
  type Pairs = seq<(string, string)>

  /** One `name=value` segment: split at the first `=`; a segment without one is a name with an
      empty value. */
  function NameValue(segment: string): (pair: (string, string))
    ensures '=' !in segment ==> pair == (segment, "")
  {
    if '=' in segment then
      var i := Seqs.FirstIndex(segment, '=');
      (segment[..i], segment[i + 1..])
    else (segment, "")
  }

  /** The value of a hexadecimal digit, in either case. */
  function HexValue(c: char): (v: Option<nat>)
    ensures v.Some? ==> v.value < 16
  {
    if '0' <= c <= '9' then Some(c as int - '0' as int)
    else if 'a' <= c <= 'f' then Some(c as int - 'a' as int + 10)
    else if 'A' <= c <= 'F' then Some(c as int - 'A' as int + 10)
    else None
  }

  /** The upper-case hexadecimal digit for `n`. */
  function HexDigit(n: nat): (c: char)
    requires n < 16
    ensures HexValue(c) == Some(n)
  {
    if n < 10 then (n + '0' as int) as char else (n - 10 + 'A' as int) as char
  }

  /** The character an escape `%XX` at the head of `s` stands for, when XX names an ASCII byte. */
  function EscapeAt(s: string): (r: Option<char>)
    ensures r.Some? ==> |s| >= 3 && s[0] == '%' && (r.value as int) < 0x80
  {
    if |s| >= 3 && s[0] == '%' && HexValue(s[1]).Some? && HexValue(s[2]).Some? && HexValue(s[1]).value < 8 then
      Some((HexValue(s[1]).value * 16 + HexValue(s[2]).value) as char)
    else None
  }

  /** A name or a value as the application/x-www-form-urlencoded parser of the URL Standard
      reads it: `+` is a space and a `%XX` escape is the byte XX; any other `%` stays as it is. */
  function FormDecode(s: string): (r: string)
    ensures |r| <= |s|
    ensures '%' !in s && '+' !in s ==> r == s
    decreases |s|
  {
    if s == [] then []
    else if s[0] == '+' then [' '] + FormDecode(s[1..])
    else if EscapeAt(s).Some? then [EscapeAt(s).value] + FormDecode(s[3..])
    else
      assert forall c :: c in s[1..] ==> c in s;
      [s[0]] + FormDecode(s[1..])
  }

  /** The pairs of the segments, skipping empty segments, each name and value form-decoded. */
  function Decode(segments: seq<string>): Pairs {
    if segments == [] then []
    else if segments[0] == "" then Decode(segments[1..])
    else
      var (name, value) := NameValue(segments[0]);
      [(FormDecode(name), FormDecode(value))] + Decode(segments[1..])
  }

  /** `new URLSearchParams(search)`: a leading `?` is dropped and the rest split at `&`. */
  function ParsePairs(search: string): Pairs {
    var body := if |search| > 0 && search[0] == '?' then search[1..] else search;
    Decode(Split(body, '&'))
  }

  /** `get(name)`: the value of the first pair with the name, `None` for null. */
  function Lookup(pairs: Pairs, name: string): (r: Option<string>)
    ensures r.Some? <==> exists i :: 0 <= i < |pairs| && pairs[i].0 == name
    ensures r.Some? ==> exists i :: 0 <= i < |pairs| && pairs[i] == (name, r.value)
  {
    if pairs == [] then None
    else if pairs[0].0 == name then Some(pairs[0].1)
    else
      var r := Lookup(pairs[1..], name);
      assert forall i :: 0 < i < |pairs| ==> pairs[i] == pairs[1..][i - 1];
      r
  }

  /** The characters the form serializer writes as they are. */
  predicate FormSafe(c: char) {
    'a' <= c <= 'z' || 'A' <= c <= 'Z' || '0' <= c <= '9' || c == '*' || c == '-' || c == '.' || c == '_'
  }

  /** The escape `%XX` of an ASCII character. */
  function Escape(c: char): (e: string)
    requires (c as int) < 0x80
    ensures |e| == 3 && e[0] == '%' && HexValue(e[1]).Some? && HexValue(e[2]).Some?
  {
    ['%', HexDigit(c as int / 16), HexDigit(c as int % 16)]
  }

  /** An escape reads back as its character, whatever follows it. */
  lemma EscapeReadsBack(c: char, rest: string)
    requires (c as int) < 0x80
    ensures EscapeAt(Escape(c) + rest) == Some(c)
  {
    assert (Escape(c) + rest)[..3] == Escape(c);
  }

  /** One character as the form serializer of the URL Standard writes it: a safe character as it
      is, a space as `+`, any other ASCII character as its escape. A character beyond ASCII is
      written as it is, which the parser reads back as that character, as it does the UTF-8
      escapes the serializer writes. */
  function EncodeChar(c: char): (e: string)
    ensures '&' !in e && '=' !in e && '#' !in e
    ensures FormSafe(c) ==> e == [c]
  {
    if FormSafe(c) || (c as int) >= 0x80 then [c]
    else if c == ' ' then ['+']
    else Escape(c)
  }

  /** A name or a value as the form serializer writes it, character by character. */
  function FormEncode(s: string): (r: string)
    ensures '&' !in r && '=' !in r && '#' !in r
    decreases |s|
  {
    if s == [] then [] else EncodeChar(s[0]) + FormEncode(s[1..])
  }

  /** A text of safe characters is written as it is. */
  lemma {:induction false} FormEncodeSafe(s: string)
    requires forall i :: 0 <= i < |s| ==> FormSafe(s[i])
    ensures FormEncode(s) == s
    decreases |s|
  {
    if s != [] {
      FormEncodeSafe(s[1..]);
    }
  }

  /** Whatever the text, the parser reads back what the serializer wrote. */
  lemma {:induction false} FormRoundTrip(s: string)
    ensures FormDecode(FormEncode(s)) == s
    decreases |s|
  {
    if s != [] {
      var rest := FormEncode(s[1..]);
      FormRoundTrip(s[1..]);
      if FormSafe(s[0]) || (s[0] as int) >= 0x80 {
        var w := [s[0]] + rest;
        assert w[0] == s[0] && w[1..] == rest;
        assert EscapeAt(w).None?;
      } else if s[0] == ' ' {
        var w := ['+'] + rest;
        assert w[1..] == rest;
      } else {
        var w := Escape(s[0]) + rest;
        EscapeReadsBack(s[0], rest);
        assert w[3..] == rest;
        assert w[0] == '%';
      }
    }
  }

  /** `+` reads as a space, an escape in either case as its character, and a `%` that starts no
      escape as itself. */
  lemma FormDecodeExamples()
    ensures FormDecode("a+b") == "a b"
    ensures FormDecode("%3A") == ":" && FormDecode("%2f") == "/"
    ensures FormDecode("%zz") == "%zz"
  {
  }

  /** A query string written from pairs by the form serializer, as a link would carry it. */
  function Encode(pairs: Pairs): string {
    "?" + Join(Segments(pairs), "&")
  }

  function Segments(pairs: Pairs): (segments: seq<string>)
    ensures |segments| == |pairs|
    ensures forall k :: 0 <= k < |pairs| ==> segments[k] == FormEncode(pairs[k].0) + "=" + FormEncode(pairs[k].1)
  {
    seq(|pairs|, k requires 0 <= k < |pairs| => FormEncode(pairs[k].0) + "=" + FormEncode(pairs[k].1))
  }

  lemma NameValueOfPair(name: string, value: string)
    requires '=' !in name
    ensures NameValue(name + "=" + value) == (name, value)
  {
    var s := name + "=" + value;
    assert s[|name|] == '=';
    var i := Seqs.FirstIndex(s, '=');
    assert forall j :: 0 <= j < |name| ==> s[j] == name[j];
    assert i == |name|;
    assert s[..i] == name && s[i + 1..] == value;
  }

  /** Reading the written segments gives back every pair, whatever its characters. */
  lemma {:induction false} DecodeSegments(pairs: Pairs)
    ensures Decode(Segments(pairs)) == pairs
    decreases |pairs|
  {
    if pairs != [] {
      var segs := Segments(pairs);
      assert segs[0] == FormEncode(pairs[0].0) + "=" + FormEncode(pairs[0].1);
      assert segs[0] != "" by { assert |segs[0]| >= 1; }
      NameValueOfPair(FormEncode(pairs[0].0), FormEncode(pairs[0].1));
      FormRoundTrip(pairs[0].0);
      FormRoundTrip(pairs[0].1);
      assert segs[1..] == Segments(pairs[1..]);
      DecodeSegments(pairs[1..]);
    }
  }

  /** Reading back a query written from pairs gives the pairs, so `get` finds the first value
      written under the name. */
  lemma QueryRoundTrip(pairs: Pairs)
    ensures ParsePairs(Encode(pairs)) == pairs
  {
    var segs := Segments(pairs);
    assert Encode(pairs)[0] == '?' && Encode(pairs)[1..] == Join(segs, "&");
    if pairs == [] {
      assert Encode(pairs) == "?";
      assert "?"[1..] == "";
      assert Split("", '&') == [""];
      assert Decode([""]) == Decode([]);
    } else {
      forall k | 0 <= k < |segs| ensures '&' !in segs[k] {
        assert segs[k] == FormEncode(pairs[k].0) + "=" + FormEncode(pairs[k].1);
      }
      SplitJoin(segs, '&');
      DecodeSegments(pairs);
    }
  }

  // ---------------------------------------------------------------- the API address

  /** What `resolveTaskApiUrl` can see: the Electron process's environment (`None` in a plain
      browser), the page's `location.search` (`None` when unavailable) and the URL compiled into
      the environment file. */
  datatype Globals = Globals(env: Option<map<string, string>>, search: Option<string>, compiled: string)

  /** An environment variable that is a non-empty string. */
  function EnvText(env: Option<map<string, string>>, name: string): (r: Option<string>)
    ensures r.Some? <==> env.Some? && name in env.value && env.value[name] != ""
    ensures r.Some? ==> r.value == env.value[name]
  {
    if env.Some? && name in env.value && env.value[name] != "" then Some(env.value[name]) else None
  }

  /** The `taskApiUrl` query parameter, when the query string is non-empty and the parameter's
      value is non-empty. */
  function QueryUrl(search: Option<string>): (r: Option<string>)
    ensures r.Some? ==> r.value != ""
  {
    if search.Some? && search.value != "" then
      match Lookup(ParsePairs(search.value), "taskApiUrl")
      case Some(v) => if v != "" then Some(v) else None
      case None => None
    else None
  }

  /** `resolveTaskApiUrl`. */
  function ResolveTaskApiUrl(g: Globals): (url: string)
    ensures g.compiled != "" ==> url != ""
  {
    match EnvText(g.env, "TASK_API_URL")
    case Some(u) => u
    case None =>
      match EnvText(g.env, "PORT")
      case Some(port) => "http://localhost:" + port + "/tasks"
      case None =>
        match QueryUrl(g.search)
        case Some(u) => u
        case None => g.compiled
  }

  /** The four sources in order: a non-empty `TASK_API_URL`, then a non-empty `PORT`, then a
      non-empty `taskApiUrl` query parameter, then the compiled URL. */
  lemma ResolutionOrder(g: Globals)
    ensures EnvText(g.env, "TASK_API_URL").Some? ==> ResolveTaskApiUrl(g) == g.env.value["TASK_API_URL"]
    ensures EnvText(g.env, "TASK_API_URL").None? && EnvText(g.env, "PORT").Some? ==>
      ResolveTaskApiUrl(g) == "http://localhost:" + g.env.value["PORT"] + "/tasks"
    ensures EnvText(g.env, "TASK_API_URL").None? && EnvText(g.env, "PORT").None? && QueryUrl(g.search).Some? ==>
      ResolveTaskApiUrl(g) == QueryUrl(g.search).value
    ensures EnvText(g.env, "TASK_API_URL").None? && EnvText(g.env, "PORT").None? && QueryUrl(g.search).None? ==>
      ResolveTaskApiUrl(g) == g.compiled
  {
  }

  /** A link `index.html?taskApiUrl=<url>` written by the form serializer reaches a client
      without environment overrides and points it at that URL, whatever its characters. */
  lemma QueryOverrideIsUsed(url: string, compiled: string)
    requires url != ""
    ensures ResolveTaskApiUrl(Globals(None, Some(Encode([("taskApiUrl", url)])), compiled)) == url
  {
    QueryRoundTrip([("taskApiUrl", url)]);
    QueryValueIsUsed(Encode([("taskApiUrl", url)]), url, compiled);
  }

  /** A query holding only a non-empty `taskApiUrl` decides the address when the environment
      has no override. */
  lemma QueryValueIsUsed(search: string, url: string, compiled: string)
    requires ParsePairs(search) == [("taskApiUrl", url)] && url != ""
    ensures ResolveTaskApiUrl(Globals(None, Some(search), compiled)) == url
  {
    assert ParsePairs("") == [] by {
      assert Split("", '&') == [""];
      assert Decode([""]) == Decode([]);
    }
  }

  /** One parameter written without escapes parses back as written. */
  lemma ParsedAsWritten(name: string, value: string)
    requires name != "" && '&' !in name && '=' !in name && '%' !in name && '+' !in name
    requires '&' !in value && '%' !in value && '+' !in value
    ensures ParsePairs("?" + name + "=" + value) == [(name, value)]
  {
    var body := name + "=" + value;
    assert ("?" + name + "=" + value)[1..] == body;
    assert '&' !in body;
    SplitWithout(body, '&');
    NameValueOfPair(name, value);
    assert body != "" && body[|name|] == '=';
    assert Decode([body]) == [(FormDecode(name), FormDecode(value))] + Decode([]);
  }

  /** A link written as `?taskApiUrl=<url>` with no `%`, `+` or `&` in the URL, as in the
      comment of task.service.ts, points the client at that URL as it is written. */
  lemma QueryOverrideAsWritten(url: string, compiled: string)
    requires url != "" && '&' !in url && '%' !in url && '+' !in url
    ensures ResolveTaskApiUrl(Globals(None, Some("?" + "taskApiUrl" + "=" + url), compiled)) == url
  {
    var name := "taskApiUrl";
    OverrideNameIsPlain(name);
    ParsedAsWritten(name, url);
    QueryValueIsUsed("?" + name + "=" + url, url, compiled);
  }

  lemma OverrideNameIsPlain(name: string)
    requires name == "taskApiUrl"
    ensures name != "" && '&' !in name && '=' !in name && '%' !in name && '+' !in name
  {
    assert forall i :: 0 <= i < |name| ==> 'a' <= name[i] <= 'z' || 'A' <= name[i] <= 'Z';
  }

  // ---------------------------------------------------------------- requests

  /** The optional paging and search of `getTasks`; a missing object has every field undefined. */
  datatype TaskQuery = TaskQuery(page: JsValue, limit: JsValue, search: JsValue)

  /** `HttpParams.set`: a new name goes last; a present one keeps its place and takes the value. */
  function Set(params: Pairs, name: string, value: string): Pairs {
    if params == [] then [(name, value)]
    else if params[0].0 == name then [(name, value)] + params[1..]
    else [params[0]] + Set(params[1..], name, value)
  }

  /** `getTasks`' parameters: page, limit and search, each set only when it is truthy. */
  function TaskParams(q: TaskQuery): Pairs {
    var p0: Pairs := [];
    var p1 := if Truthy(q.page) then Set(p0, "page", Render(q.page)) else p0;
    var p2 := if Truthy(q.limit) then Set(p1, "limit", Render(q.limit)) else p1;
    if Truthy(q.search) then Set(p2, "search", Render(q.search)) else p2
  }

  /** The value of a field in the parameters. */
  function FieldParam(v: JsValue): Option<string> {
    if Truthy(v) then Some(Render(v)) else None
  }

  /** Setting a name the parameters lack appends it. */
  lemma {:induction false} SetNew(params: Pairs, name: string, value: string)
    requires forall k :: 0 <= k < |params| ==> params[k].0 != name
    ensures Set(params, name, value) == params + [(name, value)]
    decreases |params|
  {
    if params != [] {
      SetNew(params[1..], name, value);
      assert [params[0]] + params[1..] == params;
    }
  }

  /** The pair for a field, present only when the field is truthy. */
  function FieldPair(name: string, v: JsValue): Pairs {
    if Truthy(v) then [(name, Render(v))] else []
  }

  /** Each parameter is sent exactly when its field is truthy, with the field's text, and they
      come in the order page, limit, search. */
  lemma TaskParamsAreTheTruthyFields(q: TaskQuery)
    ensures TaskParams(q) == FieldPair("page", q.page) + FieldPair("limit", q.limit) + FieldPair("search", q.search)
    ensures Lookup(TaskParams(q), "page") == FieldParam(q.page)
    ensures Lookup(TaskParams(q), "limit") == FieldParam(q.limit)
    ensures Lookup(TaskParams(q), "search") == FieldParam(q.search)
  {
    var p1 := FieldPair("page", q.page);
    var p2 := p1 + FieldPair("limit", q.limit);
    var p3 := p2 + FieldPair("search", q.search);
    assert p1 == if Truthy(q.page) then Set([], "page", Render(q.page)) else [];
    if Truthy(q.limit) {
      SetNew(p1, "limit", Render(q.limit));
    }
    assert p2 == if Truthy(q.limit) then Set(p1, "limit", Render(q.limit)) else p1;
    if Truthy(q.search) {
      SetNew(p2, "search", Render(q.search));
    }
    assert p3 == if Truthy(q.search) then Set(p2, "search", Render(q.search)) else p2;
  }

  /** A backend reading the query `getTasks` sends, written by the form serializer, finds page 0,
      an empty search and a missing field all absent, and every other field with its text. */
  lemma ParamsReachTheBackend(q: TaskQuery)
    ensures var sent := ParsePairs(Encode(TaskParams(q)));
      Lookup(sent, "page") == FieldParam(q.page) && Lookup(sent, "limit") == FieldParam(q.limit)
      && Lookup(sent, "search") == FieldParam(q.search)
  {
    TaskParamsAreTheTruthyFields(q);
    QueryRoundTrip(TaskParams(q));
  }

  /** A number's text needs no escape: `page=2&limit=10` is sent as it reads. */
  lemma RenderedNumberIsPlain(v: JsValue)
    ensures v.Num? ==> FormEncode(Render(v)) == Render(v)
  {
    if v.Num? {
      IntToStringChars(v.n);
      var t := Render(v);
      assert forall i :: 0 <= i < |t| ==> t[i] in t;
      FormEncodeSafe(t);
    }
  }

  lemma IntToStringChars(i: int)
    ensures forall c :: c in IntToString(i) ==> c == '-' || '0' <= c <= '9'
  {
    if i < 0 {
      NatToStringChars(-i);
    } else {
      NatToStringChars(i);
    }
  }

  lemma {:induction false} NatToStringChars(n: nat)
    ensures forall c :: c in NatToString(n) ==> '0' <= c <= '9'
    decreases n
  {
    if n >= 10 {
      NatToStringChars(n / 10);
    }
  }

  /** `deleteTask` and `updateTaskReminder`: the task's own address. */
  function ItemUrl(base: string, id: JsValue): string {
    base + "/" + Render(id)
  }

  /** `addTask`: the create address. */
  function CreateUrl(base: string): string {
    base + "/create"
  }

  /** Every request goes below the one resolved base, and a task's own address is the create
      address exactly when the id reads "create". */
  lemma EndpointsShareTheBase(base: string, id: JsValue)
    ensures StartsWith(ItemUrl(base, id), base + "/") && StartsWith(CreateUrl(base), base + "/")
    ensures ItemUrl(base, id) == CreateUrl(base) <==> Render(id) == "create"
  {
    var dir := base + "/";
    assert CreateUrl(base) == dir + "create";
    assert StartsWith(dir + Render(id), dir) && StartsWith(dir + "create", dir);
    PrefixCancels(dir, Render(id), "create");
  }
}
