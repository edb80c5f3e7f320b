/** The Spring backend's error responses: which handler an exception reaches, the status it
    gets, and the JSON body, an insertion-ordered map filled by successive puts. The body names
    the root of the exception's cause chain and, under the dev profile, a short stack trace. */
module GlobalExceptionHandler {
  import opened Wrappers
  import opened Text
  import Seqs

  // ---------------------------------------------------------------- throwables

  /** A throwable: its class name, its message (`None` for null), what `getCause()` returns
      (`None` for null, possibly the throwable itself) and the text of its stack frames. */
  datatype Throwable = Throwable(className: string, message: Option<string>, cause: Option<nat>,
                                 stack: seq<string>)

  /** The throwables reachable from the one being handled, by identity. */
  type Heap = map<nat, Throwable>

  /** Every cause is itself a throwable of the heap. */
  predicate Closed(h: Heap) {
    forall id :: id in h && h[id].cause.Some? ==> h[id].cause.value in h
  }

  /** One turn of the `rootCause` loop at `cur`: it moves to the cause while there is one that
      is not `cur` itself. */
  function NextCause(h: Heap, cur: nat): (next: Option<nat>)
    requires Closed(h) && cur in h
    ensures next.Some? ==> next.value in h && next.value != cur
  {
    var c := h[cur].cause;
    if c.Some? && c.value != cur then c else None
  }

  /** Where the `rootCause` loop as written stands after `n` turns; once it stops it stays. */
  function WalkAsWritten(h: Heap, t: nat, n: nat): (r: nat)
    requires Closed(h) && t in h
    ensures r in h
    decreases n
  {
    if n == 0 then t
    else match NextCause(h, t)
      case None => t
      case Some(c) => WalkAsWritten(h, c, n - 1)
  }

  /** `rootCause` with the cycle guard it lacks: the walk also stops at a cause already visited.
      `seen` holds the throwables visited so far, `cur` among them. */
  function RootFrom(h: Heap, cur: nat, seen: set<nat>): (r: nat)
    requires Closed(h) && cur in h && cur in seen && seen <= h.Keys
    ensures r in h
    decreases |h.Keys - seen|
  {
    match NextCause(h, cur)
    case None => cur
    case Some(c) =>
      if c in seen then cur
      else
        assert h.Keys - (seen + {c}) == (h.Keys - seen) - {c};
        RootFrom(h, c, seen + {c})
  }

  /** The root cause of `t`. */
  function RootCauseOf(h: Heap, t: nat): (r: nat)
    requires Closed(h) && t in h
    ensures r in h
  {
    RootFrom(h, t, {t})
  }

  /** `rootCause`, with the visited set that keeps it finite. */
  method RootCause(h: Heap, t: nat) returns (root: nat)
    requires Closed(h) && t in h
    ensures root == RootCauseOf(h, t)
  {
    root := t;
    var seen := {t};
    while NextCause(h, root).Some? && NextCause(h, root).value !in seen
      invariant root in h && root in seen && seen <= h.Keys
      invariant RootFrom(h, root, seen) == RootCauseOf(h, t)
      decreases |h.Keys - seen|
    {
      var c := NextCause(h, root).value;
      assert h.Keys - (seen + {c}) == (h.Keys - seen) - {c};
      root := c;
      seen := seen + {c};
    }
  }

  /** The walk never returns to a throwable it visited before the current one. */
  lemma {:induction false} RootFromIsCurrentOrNew(h: Heap, cur: nat, seen: set<nat>)
    requires Closed(h) && cur in h && cur in seen && seen <= h.Keys
    ensures RootFrom(h, cur, seen) == cur || RootFrom(h, cur, seen) !in seen
    decreases |h.Keys - seen|
  {
    match NextCause(h, cur)
    case None =>
    case Some(c) =>
      if c !in seen {
        assert h.Keys - (seen + {c}) == (h.Keys - seen) - {c};
        RootFromIsCurrentOrNew(h, c, seen + {c});
      }
  }

  /** A throwable is its own root exactly when it has no cause other than itself. */
  lemma RootIsSelfIff(h: Heap, t: nat)
    requires Closed(h) && t in h
    ensures RootCauseOf(h, t) == t <==> NextCause(h, t).None?
  {
    if NextCause(h, t).Some? {
      var c := NextCause(h, t).value;
      assert c !in {t} && {t} + {c} == {t, c};
      assert RootCauseOf(h, t) == RootFrom(h, c, {t, c});
      RootFromIsCurrentOrNew(h, c, {t, c});
    }
  }

  lemma {:induction false} WalkAdd(h: Heap, t: nat, a: nat, b: nat)
    requires Closed(h) && t in h
    ensures WalkAsWritten(h, t, a + b) == WalkAsWritten(h, WalkAsWritten(h, t, a), b)
    decreases a
  {
    if a > 0 {
      match NextCause(h, t)
      case None =>
        WalkStopped(h, t, b);
        WalkStopped(h, t, a + b);
      case Some(c) =>
        WalkAdd(h, c, a - 1, b);
    }
  }

  lemma {:induction false} WalkStopped(h: Heap, t: nat, n: nat)
    requires Closed(h) && t in h && NextCause(h, t).None?
    ensures WalkAsWritten(h, t, n) == t
  {
  }

  lemma WalkStep(h: Heap, t: nat, m: nat)
    requires Closed(h) && t in h && NextCause(h, WalkAsWritten(h, t, m)).Some?
    ensures WalkAsWritten(h, t, m + 1) == NextCause(h, WalkAsWritten(h, t, m)).value
  {
    WalkAdd(h, t, m, 1);
  }

  /** `n` is the first turn at which the loop as written stops. */
  predicate StopsFirstAt(h: Heap, t: nat, n: nat)
    requires Closed(h) && t in h
  {
    NextCause(h, WalkAsWritten(h, t, n)).None?
    && forall m :: 0 <= m < n ==> NextCause(h, WalkAsWritten(h, t, m)).Some?
  }

  /** Before a walk that ends stops, it visits no throwable twice: a repeat would make it go
      round for ever. */
  lemma WalkDistinct(h: Heap, t: nat, n: nat, i: nat, j: nat)
    requires Closed(h) && t in h && StopsFirstAt(h, t, n) && i < j <= n
    ensures WalkAsWritten(h, t, i) != WalkAsWritten(h, t, j)
  {
    var m := n - (j - i);
    WalkAdd(h, t, i, m - i);
    WalkAdd(h, t, j, m - i);
    assert NextCause(h, WalkAsWritten(h, t, m)).Some?;
  }

  /** The throwables the walk as written visits in its first `k + 1` positions. */
  function Visited(h: Heap, t: nat, k: nat): set<nat>
    requires Closed(h) && t in h
  {
    set m | 0 <= m <= k :: WalkAsWritten(h, t, m)
  }

  lemma {:induction false} RootFromFollowsWalk(h: Heap, t: nat, n: nat, k: nat)
    requires Closed(h) && t in h && StopsFirstAt(h, t, n) && k <= n
    ensures Visited(h, t, k) <= h.Keys && WalkAsWritten(h, t, k) in Visited(h, t, k)
    ensures RootFrom(h, WalkAsWritten(h, t, k), Visited(h, t, k)) == WalkAsWritten(h, t, n)
    decreases n - k
  {
    var cur := WalkAsWritten(h, t, k);
    var seen := Visited(h, t, k);
    assert cur in seen;
    if k < n {
      WalkStep(h, t, k);
      var c := WalkAsWritten(h, t, k + 1);
      assert NextCause(h, cur) == Some(c);
      assert c !in seen by {
        forall m | 0 <= m <= k ensures WalkAsWritten(h, t, m) != c {
          WalkDistinct(h, t, n, m, k + 1);
        }
      }
      assert Visited(h, t, k + 1) == seen + {c};
      RootFromFollowsWalk(h, t, n, k + 1);
    }
  }

  /** Whenever the loop as written ends, the guarded walk returns the same throwable. */
  lemma RootCauseAgreesWhenLoopEnds(h: Heap, t: nat, n: nat)
    requires Closed(h) && t in h && StopsFirstAt(h, t, n)
    ensures RootCauseOf(h, t) == WalkAsWritten(h, t, n)
    ensures NextCause(h, RootCauseOf(h, t)).None?
  {
    RootFromFollowsWalk(h, t, n, 0);
    assert Visited(h, t, 0) == {t};
  }

  /** Two throwables that are each other's cause, which `initCause` allows. */
  function MutualCauses(): (h: Heap)
    ensures Closed(h)
  {
    map[0 := Throwable("A", None, Some(1), []), 1 := Throwable("B", None, Some(0), [])]
  }

  lemma {:induction false} MutualWalkStaysOnCycle(t: nat, n: nat)
    requires t == 0 || t == 1
    ensures WalkAsWritten(MutualCauses(), t, n) == 0 || WalkAsWritten(MutualCauses(), t, n) == 1
    decreases n
  {
    if n > 0 {
      MutualWalkStaysOnCycle(1 - t, n - 1);
    }
  }

  /** The loop as written never ends on a cycle of two causes: after every number of turns its
      condition still holds. */
  lemma MutualCausesNeverStop(n: nat)
    ensures NextCause(MutualCauses(), WalkAsWritten(MutualCauses(), 0, n)).Some?
  {
    MutualWalkStaysOnCycle(0, n);
  }

  /** The guarded walk ends on that cycle, at the cause. */
  lemma MutualCausesRoot()
    ensures RootCauseOf(MutualCauses(), 0) == 1
  {
    var h := MutualCauses();
    assert NextCause(h, 0) == Some(1);
    assert NextCause(h, 1) == Some(0);
    assert RootFrom(h, 1, {0, 1}) == 1;
  }

  // ---------------------------------------------------------------- stack trace

  /** The line one printed frame becomes. */
  function Line(frame: string): string {
    "at " + frame + "\n"
  }

  /** The lines of the frames given, in order. */
  function FrameLines(frames: seq<string>): string {
    if frames == [] then "" else FrameLines(frames[..|frames| - 1]) + Line(frames[|frames| - 1])
  }

  /** How many frames `shortStackTrace` prints. */
  function TraceLimit(count: nat, maxLines: int): (limit: nat)
    ensures limit <= count
    ensures maxLines <= 0 ==> limit == 0
    ensures maxLines >= 0 ==> limit == if maxLines < count then maxLines else count
  {
    var m := if maxLines < 0 then 0 else maxLines;
    if count < m then count else m
  }

  /** What follows the printed frames: nothing, or how many were left out. */
  function TraceSuffix(count: nat, limit: nat): string {
    if count > limit then "... " + NatToString(count - limit) + " more" else ""
  }

  lemma SuffixIsOneLine(count: nat, limit: nat)
    ensures '\n' !in TraceSuffix(count, limit)
  {
    if count > limit {
      var digits := NatToString(count - limit);
      assert forall i :: 0 <= i < |digits| ==> digits[i] != '\n';
      assert '\n' !in "... " && '\n' !in " more";
    }
  }

  /** The text `shortStackTrace` builds. */
  function ShortTrace(frames: seq<string>, maxLines: int): string {
    var limit := TraceLimit(|frames|, maxLines);
    FrameLines(frames[..limit]) + TraceSuffix(|frames|, limit)
  }

  /** `shortStackTrace`. */
  method ShortStackTrace(frames: seq<string>, maxLines: int) returns (trace: string)
    ensures trace == ShortTrace(frames, maxLines)
  {
    var limit := TraceLimit(|frames|, maxLines);
    trace := "";
    var i := 0;
    while i < limit
      invariant 0 <= i <= limit
      invariant trace == FrameLines(frames[..i])
    {
      assert frames[..i + 1][..i] == frames[..i];
      trace := trace + Line(frames[i]);
      i := i + 1;
    }
    trace := trace + TraceSuffix(|frames|, limit);
  }

  /** The line each printed frame becomes. */
  function AtLines(frames: seq<string>): (lines: seq<string>)
    ensures |lines| == |frames|
    ensures forall i :: 0 <= i < |frames| ==> lines[i] == "at " + frames[i]
  {
    seq(|frames|, i requires 0 <= i < |frames| => "at " + frames[i])
  }

  /** The last frame's line comes last. */
  lemma AtLinesSnoc(frames: seq<string>)
    requires frames != []
    ensures AtLines(frames) == AtLines(frames[..|frames| - 1]) + ["at " + frames[|frames| - 1]]
  {
  }

  /** A frame's line splits off as one `at` line before whatever follows it. */
  lemma LineSplits(frame: string, suffix: string)
    requires '\n' !in frame
    ensures Split(Line(frame) + suffix, '\n') == ["at " + frame] + Split(suffix, '\n')
  {
    var line := "at " + frame;
    assert '\n' !in line by {
      assert forall i :: 0 <= i < 3 ==> line[i] == "at "[i];
    }
    assert Line(frame) + suffix == line + ['\n'] + suffix;
    SplitAtSeparator(line, '\n', suffix);
  }

  lemma {:induction false} SplitFrameLines(frames: seq<string>, suffix: string)
    requires forall i :: 0 <= i < |frames| ==> '\n' !in frames[i]
    ensures Split(FrameLines(frames) + suffix, '\n') == AtLines(frames) + Split(suffix, '\n')
    decreases |frames|
  {
    if frames != [] {
      var last := frames[|frames| - 1];
      var rest := frames[..|frames| - 1];
      var tail := Line(last) + suffix;
      calc {
        Split(FrameLines(frames) + suffix, '\n');
      == { assert FrameLines(frames) + suffix == FrameLines(rest) + tail; }
        Split(FrameLines(rest) + tail, '\n');
      == { SplitFrameLines(rest, tail); }
        AtLines(rest) + Split(tail, '\n');
      == { LineSplits(last, suffix); }
        AtLines(rest) + (["at " + last] + Split(suffix, '\n'));
      == { AtLinesSnoc(frames); }
        AtLines(frames) + Split(suffix, '\n');
      }
    } else {
      assert FrameLines(frames) + suffix == suffix;
    }
  }

  /** Read back line by line, the trace holds one `at <frame>` line for each of the first
      `min(len, max(0, maxLines))` frames, in order, then one last line that is empty when
      nothing was cut and `... N more` otherwise, with N the number of frames left out. */
  lemma ShortTraceLines(frames: seq<string>, maxLines: int)
    requires forall i :: 0 <= i < |frames| ==> '\n' !in frames[i]
    ensures var limit := TraceLimit(|frames|, maxLines);
      Split(ShortTrace(frames, maxLines), '\n')
        == AtLines(frames[..limit]) + [if |frames| > limit then "... " + NatToString(|frames| - limit) + " more" else ""]
  {
    var limit := TraceLimit(|frames|, maxLines);
    var suffix := TraceSuffix(|frames|, limit);
    SplitFrameLines(frames[..limit], suffix);
    SuffixIsOneLine(|frames|, limit);
    SplitWithout(suffix, '\n');
  }

  // ---------------------------------------------------------------- dev profile

  /** What `isDevProfile` finds: no environment, one whose profiles cannot be read, or the
      active profiles. */
  datatype Environment = NoEnvironment | Unreadable | Active(profiles: seq<string>)

  /** `isDevProfile`. */
  method IsDevProfile(env: Environment) returns (dev: bool)
    ensures dev <==> env.Active? && exists i :: 0 <= i < |env.profiles| && EqualsIgnoreCase("dev", env.profiles[i])
  {
    if !env.Active? {
      return false;
    }
    var i := 0;
    while i < |env.profiles|
      invariant 0 <= i <= |env.profiles|
      invariant forall k :: 0 <= k < i ==> !EqualsIgnoreCase("dev", env.profiles[k])
    {
      if EqualsIgnoreCase("dev", env.profiles[i]) {
        return true;
      }
      i := i + 1;
    }
    return false;
  }

  // ---------------------------------------------------------------- the body

  /** A JSON value of the body. */
  datatype Value = Text(text: string) | Number(number: int) | Null

  /** A `LinkedHashMap` of the body, as its entries in insertion order. */
  type Body = seq<(string, Value)>

  function Keys(body: Body): (keys: seq<string>)
    ensures |keys| == |body|
    ensures forall i :: 0 <= i < |body| ==> keys[i] == body[i].0
  {
    seq(|body|, i requires 0 <= i < |body| => body[i].0)
  }

  /** `get`: the value of the first entry with the key. */
  function Get(body: Body, key: string): Option<Value> {
    if body == [] then None
    else if body[0].0 == key then Some(body[0].1)
    else Get(body[1..], key)
  }

  /** A lookup in two bodies one after the other finds the first body's entry when it has the
      key, and the second body's otherwise. */
  lemma {:induction false} GetAppend(a: Body, b: Body, key: string)
    ensures Get(a + b, key) == if key in Keys(a) then Get(a, key) else Get(b, key)
    decreases |a|
  {
    if a != [] {
      assert (a + b)[1..] == a[1..] + b;
      assert Keys(a) == [a[0].0] + Keys(a[1..]);
      GetAppend(a[1..], b, key);
    } else {
      assert a + b == b;
    }
  }

  /** `put`: a new key goes last; a key already present keeps its place and takes the new value. */
  function Put(body: Body, key: string, value: Value): Body {
    if body == [] then [(key, value)]
    else if body[0].0 == key then [(key, value)] + body[1..]
    else [body[0]] + Put(body[1..], key, value)
  }

  /** What a put does to the keys and to each lookup. */
  lemma PutSpec(body: Body, key: string, value: Value)
    ensures Keys(Put(body, key, value)) == if key in Keys(body) then Keys(body) else Keys(body) + [key]
    ensures Get(Put(body, key, value), key) == Some(value)
    ensures forall k :: k != key ==> Get(Put(body, key, value), k) == Get(body, k)
  {
    PutKeys(body, key, value);
    PutGet(body, key, value, key);
    forall k | k != key ensures Get(Put(body, key, value), k) == Get(body, k) {
      PutGet(body, key, value, k);
    }
  }

  lemma {:induction false} PutKeys(body: Body, key: string, value: Value)
    ensures Keys(Put(body, key, value)) == if key in Keys(body) then Keys(body) else Keys(body) + [key]
    decreases |body|
  {
    if body != [] && body[0].0 != key {
      PutKeys(body[1..], key, value);
      assert Keys(body) == [body[0].0] + Keys(body[1..]);
      assert Keys(Put(body, key, value)) == [body[0].0] + Keys(Put(body[1..], key, value));
    }
  }

  lemma {:induction false} PutGet(body: Body, key: string, value: Value, k: string)
    ensures Get(Put(body, key, value), k) == if k == key then Some(value) else Get(body, k)
    decreases |body|
  {
    if body != [] && body[0].0 != key {
      PutGet(body[1..], key, value, k);
    }
  }

  /** Putting a key the body lacks appends one entry. */
  lemma {:induction false} PutNewKey(body: Body, key: string, value: Value)
    requires key !in Keys(body)
    ensures Put(body, key, value) == body + [(key, value)]
    decreases |body|
  {
    if body != [] {
      assert body[0].0 == Keys(body)[0];
      assert Keys(body[1..]) == Keys(body)[1..];
      PutNewKey(body[1..], key, value);
      assert body == [body[0]] + body[1..];
    }
  }

  /** `putAll`: the entries put one after another, in the map's iteration order. */
  function PutAll(body: Body, entries: Body): Body
    decreases |entries|
  {
    if entries == [] then body else PutAll(Put(body, entries[0].0, entries[0].1), entries[1..])
  }

  /** Putting entries whose keys are distinct and new appends them in order. */
  lemma {:induction false} PutAllNewKeys(body: Body, entries: Body)
    requires Seqs.NoDuplicates(Keys(entries))
    requires forall i :: 0 <= i < |entries| ==> entries[i].0 !in Keys(body)
    ensures PutAll(body, entries) == body + entries
    decreases |entries|
  {
    if entries != [] {
      PutNewKey(body, entries[0].0, entries[0].1);
      var next := body + [entries[0]];
      assert Keys(next) == Keys(body) + [entries[0].0];
      forall i | 0 <= i < |entries[1..]| ensures entries[1..][i].0 !in Keys(next) {
        assert entries[1..][i].0 == Keys(entries)[i + 1] && entries[0].0 == Keys(entries)[0];
      }
      assert Seqs.NoDuplicates(Keys(entries[1..])) by {
        assert Keys(entries[1..]) == Keys(entries)[1..];
      }
      PutAllNewKeys(next, entries[1..]);
      assert next + entries[1..] == body + entries;
    }
  }

  /** Which handler an exception reaches. */
  datatype Handled =
    | DataAccess                                                   // DataAccessException
    | DatabaseOperation(errorCode: string, operation: string)      // DatabaseOperationException
    | DatabaseInitialization(errorCode: string, databasePath: string) // DatabaseInitializationException
    | IllegalArgument                                              // IllegalArgumentException
    | Other                                                        // any other exception

  /** The HTTP status each handler answers with. */
  function Status(k: Handled): (status: int)
    ensures status == 400 <==> k == IllegalArgument
    ensures status == 500 <==> k != IllegalArgument
  {
    if k == IllegalArgument then 400 else 500
  }

  /** The `error` label each handler puts in the body. */
  function ErrorLabel(k: Handled): string {
    match k
    case DataAccess => "Database error"
    case DatabaseOperation(_, _) => "Database operation failed"
    case DatabaseInitialization(_, _) => "Database initialization failed"
    case IllegalArgument => "Bad request"
    case Other => "Internal server error"
  }

  /** The extra entries of the two database handlers. */
  function Extra(k: Handled): Body {
    match k
    case DatabaseOperation(code, operation) => [("errorCode", Text(code)), ("operation", Text(operation))]
    case DatabaseInitialization(code, path) => [("errorCode", Text(code)), ("databasePath", Text(path))]
    case _ => []
  }

  function MessageValue(m: Option<string>): Value {
    match m
    case None => Null
    case Some(s) => Text(s)
  }

  /** The seven keys every body starts with, in order. */
  const BaseKeys: seq<string> := ["timestamp", "status", "error", "path", "method", "exception", "message"]

  /** The seven entries every body starts with, in order. */
  function BaseEntries(k: Handled, h: Heap, ex: nat, path: string, httpMethod: string, timestamp: string): Body
    requires ex in h
  {
    [("timestamp", Text(timestamp)), ("status", Number(Status(k))), ("error", Text(ErrorLabel(k))),
     ("path", Text(path)), ("method", Text(httpMethod)), ("exception", Text(h[ex].className)),
     ("message", MessageValue(h[ex].message))]
  }

  /** The root cause's entries, present only when the root is not the exception itself. */
  function RootEntries(h: Heap, ex: nat): Body
    requires Closed(h) && ex in h
  {
    var root := RootCauseOf(h, ex);
    if root != ex then [("rootCause", Text(h[root].className)), ("rootMessage", MessageValue(h[root].message))]
    else []
  }

  /** Some active profile is "dev", ignoring case. */
  predicate DevActive(env: Environment) {
    env.Active? && exists i :: 0 <= i < |env.profiles| && EqualsIgnoreCase("dev", env.profiles[i])
  }

  /** The trace entry, present only under the dev profile; at most 25 frames are printed. */
  function TraceEntries(h: Heap, ex: nat, env: Environment): Body
    requires ex in h
  {
    if DevActive(env) then [("trace", Text(ShortTrace(h[ex].stack, 25)))] else []
  }

  /** The keys of the extras are neither base keys nor the keys added after them. */
  lemma ExtraKeysAreOwn(k: Handled)
    ensures forall key :: key in Keys(Extra(k)) ==> key in ["errorCode", "operation", "databasePath"]
    ensures Seqs.NoDuplicates(Keys(Extra(k)))
  {
  }

  /** A put of a key the body lacks, with the keys it leaves. */
  method PutNew(body: Body, key: string, value: Value) returns (r: Body)
    requires key !in Keys(body)
    ensures r == body + [(key, value)] && Keys(r) == Keys(body) + [key]
  {
    PutNewKey(body, key, value);
    r := Put(body, key, value);
  }

  /** Each base key differs from the ones before it. */
  lemma BaseKeyIsNew(n: nat)
    requires n < |BaseKeys|
    ensures BaseKeys[n] !in BaseKeys[..n]
  {
    var keys := BaseKeys;
    if n == 5 {
      assert keys[5][0] == 'e';
      assert forall i :: 0 <= i < 5 ==> keys[i][0] != 'e' || |keys[i]| != 9;
    } else if n == 6 {
      assert keys[6][0] == 'm' && keys[6][1] == 'e' && keys[6][2] == 's';
      assert forall i :: 0 <= i < 6 ==> keys[i][0] != 'm' || |keys[i]| != 7;
    }
  }

  /** The seven puts every body starts with. */
  method BaseBody(k: Handled, h: Heap, ex: nat, path: string, httpMethod: string, timestamp: string)
    returns (body: Body)
    requires ex in h
    ensures body == BaseEntries(k, h, ex, path, httpMethod, timestamp) && Keys(body) == BaseKeys
  {
    BaseKeyIsNew(0);
    body := PutNew([], "timestamp", Text(timestamp));
    BaseKeyIsNew(1);
    body := PutNew(body, "status", Number(Status(k)));
    BaseKeyIsNew(2);
    assert Keys(body) == BaseKeys[..2];
    body := PutNew(body, "error", Text(ErrorLabel(k)));
    assert Keys(body) == BaseKeys[..3];
    BaseKeyIsNew(3);
    body := PutNew(body, "path", Text(path));
    assert Keys(body) == BaseKeys[..4];
    BaseKeyIsNew(4);
    body := PutNew(body, "method", Text(httpMethod));
    assert Keys(body) == BaseKeys[..5];
    BaseKeyIsNew(5);
    body := PutNew(body, "exception", Text(h[ex].className));
    assert Keys(body) == BaseKeys[..6];
    BaseKeyIsNew(6);
    body := PutNew(body, "message", MessageValue(h[ex].message));
  }

  /** The keys put after the extras are new: the root cause's two, then the trace's. */
  lemma LaterKeysAreNew(k: Handled)
    ensures var keys := BaseKeys + Keys(Extra(k));
      "rootCause" !in keys && "rootMessage" !in keys + ["rootCause"]
      && "trace" !in keys && "trace" !in keys + ["rootCause", "rootMessage"]
  {
    ExtraKeysAreOwn(k);
    var keys := BaseKeys + Keys(Extra(k));
    forall i | 0 <= i < |keys| ensures keys[i] != "rootCause" && keys[i] != "rootMessage" && keys[i] != "trace" {
      if i >= |BaseKeys| {
        assert keys[i] in Keys(Extra(k));
      }
    }
  }

  /** The body before the trace: the base entries, `putAll` of the extras, and the root cause
      when it is not `ex` itself. The trace key is still free. */
  method BodyWithCause(k: Handled, h: Heap, ex: nat, path: string, httpMethod: string, timestamp: string)
    returns (body: Body)
    requires Closed(h) && ex in h
    ensures body == BaseEntries(k, h, ex, path, httpMethod, timestamp) + Extra(k) + RootEntries(h, ex)
    ensures "trace" !in Keys(body)
  {
    body := BaseBody(k, h, ex, path, httpMethod, timestamp);
    var extra := Extra(k);
    ExtraKeysAreOwn(k);
    if extra != [] {
      PutAllNewKeys(body, extra);
      body := PutAll(body, extra);
    }
    assert Keys(body) == BaseKeys + Keys(extra);
    LaterKeysAreNew(k);
    var root := RootCause(h, ex);
    if root != ex {
      body := PutNew(body, "rootCause", Text(h[root].className));
      body := PutNew(body, "rootMessage", MessageValue(h[root].message));
    }
  }

  /** The handlers and `buildErrorResponse`: exception `ex` of heap `h`, reaching handler `k`, for
      request `path` and `httpMethod` at `timestamp`. The body's entries come in insertion
      order: the seven base entries, the handler's extras, the root cause when it is not `ex`
      itself, and the trace under the dev profile. */
  method HandleException(k: Handled, h: Heap, ex: nat, path: string, httpMethod: string, timestamp: string,
                         env: Environment)
    returns (status: int, body: Body)
    requires Closed(h) && ex in h
    ensures status == Status(k)
    ensures body == BaseEntries(k, h, ex, path, httpMethod, timestamp) + Extra(k) + RootEntries(h, ex)
                    + TraceEntries(h, ex, env)
  {
    status := Status(k);
    body := BodyWithCause(k, h, ex, path, httpMethod, timestamp);
    var dev := IsDevProfile(env);
    if dev {
      var trace := ShortStackTrace(h[ex].stack, 25);
      body := PutNew(body, "trace", Text(trace));
    }
  }
}
