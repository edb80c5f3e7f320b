/** `checkIfPortIsOpen`: after a fixed warm-up, every attempt probes each URL in order and stops
    at the first ok response; attempts are separated by a delay; when every attempt has failed the
    loading window is closed and the call fails. HTTP and timers are inputs: `probe(attempt, i)` is
    what fetching `urls[i]` yields on that attempt, and the waits are recorded as events. Every
    `logToFile` call goes to the backend folder and is returned in order. */
module BackendProbe {
  import opened Text

  /** What one probe yields: a response with its status and body text, or an error thrown by
      `fetch` or by reading the body, with its `String(error)` text. */
  datatype ProbeOutcome = Response(status: int, body: string) | NetworkError(description: string)

  /** `response.ok`: a status in 200-299. */
  predicate IsOk(o: ProbeOutcome) {
    o.Response? && 200 <= o.status <= 299
  }

  /** What the loop does, in order. */
  datatype Event =
    | Warmup(ms: nat)                              // the wait before the first attempt
    | Probe(attempt: nat, index: nat, url: string) // one fetch of urls[index]
    | Delay(ms: nat)                               // the wait between two attempts
    | CloseLoading                                 // `loadingWindow.close()` on failure

  datatype ProbeResult = Ready | Failed(message: string)

  const WarmupMs: nat := 5000
  const DefaultMaxAttempts: int := 20
  const DefaultTimeoutMs: nat := 1000

  type Prober = (nat, nat) -> ProbeOutcome

  /** One `logToFile` call: the log type and the message. */
  datatype LogWrite = LogWrite(logType: string, message: string)

  /** The log written once after the warm-up; `${urls}` joins the URLs with commas. */
  function CheckingPorts(urls: seq<string>): LogWrite {
    LogWrite("info", "Checking if ports are open: " + Join(urls, ","))
  }

  /** The logs of one probe of `url` on attempt `attempt`. */
  function ProbeLogs(attempt: nat, url: string, o: ProbeOutcome): seq<LogWrite> {
    [LogWrite("info", "Attempt " + IntToString(attempt) + ": Checking port: " + url)]
    + match o
      case Response(status, body) =>
        [LogWrite("info", body)]
        + if IsOk(o) then [LogWrite("info", "Server is ready: " + body)]
          else [LogWrite("warning", "Server responded with status: " + IntToString(status))]
      case NetworkError(d) => [LogWrite("error", "Attempt " + IntToString(attempt) + ": " + d)]
  }

  /** A probe logs the attempt and the URL first; a response then logs its body and either the
      ready message, exactly when it is ok, or its status as a warning; a thrown error is logged
      as an error with the attempt. */
  lemma ProbeLogsShape(attempt: nat, url: string, o: ProbeOutcome)
    ensures var logs := ProbeLogs(attempt, url, o);
      |logs| >= 2 && logs[0] == LogWrite("info", "Attempt " + IntToString(attempt) + ": Checking port: " + url)
      && (o.Response? ==>
            |logs| == 3 && logs[1] == LogWrite("info", o.body)
            && (logs[2] == LogWrite("info", "Server is ready: " + o.body) <==> IsOk(o))
            && (!IsOk(o) ==> logs[2] == LogWrite("warning", "Server responded with status: " + IntToString(o.status))))
      && (o.NetworkError? ==> |logs| == 2 && logs[1] == LogWrite("error", "Attempt " + IntToString(attempt) + ": " + o.description))
  {
    var logs := ProbeLogs(attempt, url, o);
    if o.Response? && !IsOk(o) {
      assert logs[2].logType == "warning";
    }
  }

  /** The logs a trace of events implies: those of each probe, in order. */
  function LogsOf(events: seq<Event>, probe: Prober): seq<LogWrite> {
    if events == [] then []
    else (if events[0].Probe? then ProbeLogs(events[0].attempt, events[0].url, probe(events[0].attempt, events[0].index))
          else [])
         + LogsOf(events[1..], probe)
  }

  lemma {:induction false} LogsOfConcat(a: seq<Event>, b: seq<Event>, probe: Prober)
    ensures LogsOf(a + b, probe) == LogsOf(a, probe) + LogsOf(b, probe)
    decreases |a|
  {
    if a != [] {
      assert (a + b)[1..] == a[1..] + b;
      LogsOfConcat(a[1..], b, probe);
    } else {
      assert a + b == b;
    }
  }

  /** The events of the attempts from (`attempt`, `i`) on, and whether some probe was ok. */
  datatype Run = Run(events: seq<Event>, ready: bool)

  function AttemptsLeft(maxAttempts: int, attempt: nat): nat {
    if attempt <= maxAttempts then maxAttempts - attempt + 1 else 0
  }

  /** The loop from attempt `attempt`, URL `i` on. */
  function ProbeFrom(urls: seq<string>, maxAttempts: int, timeout: nat, probe: Prober,
                     attempt: nat, i: nat): Run
    requires i <= |urls|
    decreases AttemptsLeft(maxAttempts, attempt), |urls| - i
  {
    if attempt > maxAttempts then Run([], false)
    else if i < |urls| then
      var e := Probe(attempt, i, urls[i]);
      if IsOk(probe(attempt, i)) then Run([e], true)
      else
        var rest := ProbeFrom(urls, maxAttempts, timeout, probe, attempt, i + 1);
        Run([e] + rest.events, rest.ready)
    else
      var rest := ProbeFrom(urls, maxAttempts, timeout, probe, attempt + 1, 0);
      Run((if attempt < maxAttempts then [Delay(timeout)] else []) + rest.events, rest.ready)
  }

  function FailureMessage(maxAttempts: int): string {
    "Failed to connect to the server after " + IntToString(maxAttempts) + " attempts"
  }

  /** The whole call: warm-up, the attempts, and on failure the closing of the loading window. */
  function CheckSpec(urls: seq<string>, hasLoadingWindow: bool, maxAttempts: int, timeout: nat,
                     probe: Prober): (ProbeResult, seq<Event>)
  {
    var run := ProbeFrom(urls, maxAttempts, timeout, probe, 1, 0);
    if run.ready then (Ready, [Warmup(WarmupMs)] + run.events)
    else (Failed(FailureMessage(maxAttempts)),
          [Warmup(WarmupMs)] + run.events + (if hasLoadingWindow then [CloseLoading] else []))
  }

  /** One attempt: probes each URL in order, recording the probe and its logs, and stops at the
      first ok response. `whole` is the run of the whole loop, of which `events` is done. */
  method ProbeEach(urls: seq<string>, maxAttempts: int, timeout: nat, probe: Prober, attempt: nat,
                   ghost whole: Run, events: seq<Event>, logs: seq<LogWrite>)
    returns (next: seq<Event>, nextLogs: seq<LogWrite>, ready: bool)
    requires attempt <= maxAttempts
    requires whole.events == events + ProbeFrom(urls, maxAttempts, timeout, probe, attempt, 0).events
    requires whole.ready == ProbeFrom(urls, maxAttempts, timeout, probe, attempt, 0).ready
    requires logs == [CheckingPorts(urls)] + LogsOf(events, probe)
    ensures nextLogs == [CheckingPorts(urls)] + LogsOf(next, probe)
    ensures ready ==> whole.events == next && whole.ready
    ensures !ready ==>
      whole.events == next + ProbeFrom(urls, maxAttempts, timeout, probe, attempt, |urls|).events
      && whole.ready == ProbeFrom(urls, maxAttempts, timeout, probe, attempt, |urls|).ready
  {
    next, nextLogs := events, logs;
    var i := 0;
    while i < |urls|
      invariant 0 <= i <= |urls|
      invariant whole.events == next + ProbeFrom(urls, maxAttempts, timeout, probe, attempt, i).events
      invariant whole.ready == ProbeFrom(urls, maxAttempts, timeout, probe, attempt, i).ready
      invariant nextLogs == [CheckingPorts(urls)] + LogsOf(next, probe)
    {
      var e := Probe(attempt, i, urls[i]);
      LogsAfterEvent(next, e, probe);
      ProbeStep(urls, maxAttempts, timeout, probe, attempt, i, next);
      next := next + [e];
      nextLogs := nextLogs + ProbeLogs(attempt, urls[i], probe(attempt, i));
      if IsOk(probe(attempt, i)) {
        return next, nextLogs, true;
      }
      i := i + 1;
    }
    ready := false;
  }

  /** One probe of the loop, after the events `done`: an ok response ends the run there, any
      other outcome leaves the rest of the loop to run. */
  lemma ProbeStep(urls: seq<string>, maxAttempts: int, timeout: nat, probe: Prober, attempt: nat, i: nat,
                  done: seq<Event>)
    requires attempt <= maxAttempts && i < |urls|
    ensures var run := ProbeFrom(urls, maxAttempts, timeout, probe, attempt, i);
      var e := Probe(attempt, i, urls[i]);
      if IsOk(probe(attempt, i)) then done + run.events == done + [e] && run.ready
      else
        var rest := ProbeFrom(urls, maxAttempts, timeout, probe, attempt, i + 1);
        done + run.events == (done + [e]) + rest.events && run.ready == rest.ready
  {
    var e := Probe(attempt, i, urls[i]);
    var rest := ProbeFrom(urls, maxAttempts, timeout, probe, attempt, i + 1);
    assert ProbeFrom(urls, maxAttempts, timeout, probe, attempt, i)
      == if IsOk(probe(attempt, i)) then Run([e], true) else Run([e] + rest.events, rest.ready);
  }

  /** The end of an attempt, after the events `done`: a delay when another attempt follows, then
      the next attempt. */
  lemma NextAttempt(urls: seq<string>, maxAttempts: int, timeout: nat, probe: Prober, attempt: nat,
                    done: seq<Event>)
    requires attempt <= maxAttempts
    ensures var run := ProbeFrom(urls, maxAttempts, timeout, probe, attempt, |urls|);
      var rest := ProbeFrom(urls, maxAttempts, timeout, probe, attempt + 1, 0);
      var d: seq<Event> := if attempt < maxAttempts then [Delay(timeout)] else [];
      done + run.events == (done + d) + rest.events && run.ready == rest.ready
  {
  }

  /** `checkIfPortIsOpen`. */
  method CheckIfPortIsOpen(urls: seq<string>, hasLoadingWindow: bool, maxAttempts: int, timeout: nat,
                           probe: Prober) returns (result: ProbeResult, trace: seq<Event>, logs: seq<LogWrite>)
    ensures (result, trace) == CheckSpec(urls, hasLoadingWindow, maxAttempts, timeout, probe)
    ensures logs == [CheckingPorts(urls)] + LogsOf(trace, probe)
  {
    ghost var whole := ProbeFrom(urls, maxAttempts, timeout, probe, 1, 0);
    var events: seq<Event> := [];
    logs := [CheckingPorts(urls)];
    var attempt: nat := 1;
    while attempt <= maxAttempts
      invariant 1 <= attempt
      invariant whole.events == events + ProbeFrom(urls, maxAttempts, timeout, probe, attempt, 0).events
      invariant whole.ready == ProbeFrom(urls, maxAttempts, timeout, probe, attempt, 0).ready
      invariant logs == [CheckingPorts(urls)] + LogsOf(events, probe)
      decreases AttemptsLeft(maxAttempts, attempt)
    {
      var ready;
      events, logs, ready := ProbeEach(urls, maxAttempts, timeout, probe, attempt, whole, events, logs);
      if ready {
        trace := [Warmup(WarmupMs)] + events;
        WarmupLogsNothing(events, [], probe);
        assert trace == [Warmup(WarmupMs)] + events + [];
        result := Ready;
        return;
      }
      NextAttempt(urls, maxAttempts, timeout, probe, attempt, events);
      if attempt < maxAttempts {
        LogsAfterEvent(events, Delay(timeout), probe);
        events := events + [Delay(timeout)];
      } else {
        assert events + [] == events;
      }
      attempt := attempt + 1;
    }
    assert whole.events == events && !whole.ready;
    var close: seq<Event> := if hasLoadingWindow then [CloseLoading] else [];
    trace := [Warmup(WarmupMs)] + events + close;
    WarmupLogsNothing(events, close, probe);
    result := Failed(FailureMessage(maxAttempts));
  }

  /** One more event adds the logs of its probe, if it is one. */
  lemma LogsAfterEvent(events: seq<Event>, e: Event, probe: Prober)
    ensures LogsOf(events + [e], probe) == LogsOf(events, probe)
      + (if e.Probe? then ProbeLogs(e.attempt, e.url, probe(e.attempt, e.index)) else [])
  {
    LogsOfConcat(events, [e], probe);
    assert [e][1..] == [];
  }

  /** The warm-up before the attempts and the closing after them log nothing. */
  lemma WarmupLogsNothing(events: seq<Event>, c: seq<Event>, probe: Prober)
    requires c == [] || c == [CloseLoading]
    ensures LogsOf([Warmup(WarmupMs)] + events + c, probe) == LogsOf(events, probe)
  {
    var w: seq<Event> := [Warmup(WarmupMs)];
    assert LogsOf(w, probe) == LogsOf([], probe);
    LogsOfConcat(w, events, probe);
    assert c != [] ==> LogsOf(c, probe) == LogsOf([], probe);
    LogsOfConcat(w + events, c, probe);
  }

  // ---------------------------------------------------------------- properties of the loop

  /** The (attempt, index) pairs probed, in order. */
  function Probes(events: seq<Event>): seq<(nat, nat)> {
    if events == [] then []
    else (if events[0].Probe? then [(events[0].attempt, events[0].index)] else []) + Probes(events[1..])
  }

  function CountDelays(events: seq<Event>): nat {
    if events == [] then 0 else (if events[0].Delay? then 1 else 0) + CountDelays(events[1..])
  }

  function CountCloses(events: seq<Event>): nat {
    if events == [] then 0 else (if events[0].CloseLoading? then 1 else 0) + CountCloses(events[1..])
  }

  lemma {:induction false} CountsOfConcat(a: seq<Event>, b: seq<Event>)
    ensures Probes(a + b) == Probes(a) + Probes(b)
    ensures CountDelays(a + b) == CountDelays(a) + CountDelays(b)
    ensures CountCloses(a + b) == CountCloses(a) + CountCloses(b)
    decreases |a|
  {
    if a != [] {
      assert (a + b)[1..] == a[1..] + b;
      CountsOfConcat(a[1..], b);
    } else {
      assert a + b == b;
    }
  }

  /** Every (attempt, index) pair from (`attempt`, `i`) on, in lexicographic order. */
  function Enumerate(n: nat, maxAttempts: int, attempt: nat, i: nat): seq<(nat, nat)>
    requires i <= n
    decreases AttemptsLeft(maxAttempts, attempt), n - i
  {
    if attempt > maxAttempts then []
    else if i < n then [(attempt, i)] + Enumerate(n, maxAttempts, attempt, i + 1)
    else Enumerate(n, maxAttempts, attempt + 1, 0)
  }

  /** The probes made are a prefix of the lexicographic enumeration of (attempt, url) pairs,
      and all of it when the loop failed. */
  lemma {:induction false} ProbesFollowEnumeration(urls: seq<string>, maxAttempts: int, timeout: nat,
                                                   probe: Prober, attempt: nat, i: nat)
    requires i <= |urls|
    ensures var run := ProbeFrom(urls, maxAttempts, timeout, probe, attempt, i);
      var p := Probes(run.events);
      var all := Enumerate(|urls|, maxAttempts, attempt, i);
      |p| <= |all| && p == all[..|p|] && (!run.ready ==> p == all)
    decreases AttemptsLeft(maxAttempts, attempt), |urls| - i
  {
    if attempt > maxAttempts {
    } else if i < |urls| {
      var e := Probe(attempt, i, urls[i]);
      assert Probes([e]) == [(attempt, i)];
      var all := Enumerate(|urls|, maxAttempts, attempt, i);
      if !IsOk(probe(attempt, i)) {
        var rest := ProbeFrom(urls, maxAttempts, timeout, probe, attempt, i + 1);
        assert ProbeFrom(urls, maxAttempts, timeout, probe, attempt, i) == Run([e] + rest.events, rest.ready);
        ProbesFollowEnumeration(urls, maxAttempts, timeout, probe, attempt, i + 1);
        CountsOfConcat([e], rest.events);
        var q := Probes(rest.events);
        var allRest := Enumerate(|urls|, maxAttempts, attempt, i + 1);
        assert all == [(attempt, i)] + allRest;
        assert ([(attempt, i)] + allRest)[..|q| + 1] == [(attempt, i)] + allRest[..|q|];
      } else {
        assert Probes(ProbeFrom(urls, maxAttempts, timeout, probe, attempt, i).events) == [(attempt, i)];
      }
    } else {
      var rest := ProbeFrom(urls, maxAttempts, timeout, probe, attempt + 1, 0);
      ProbesFollowEnumeration(urls, maxAttempts, timeout, probe, attempt + 1, 0);
      var d: seq<Event> := if attempt < maxAttempts then [Delay(timeout)] else [];
      assert ProbeFrom(urls, maxAttempts, timeout, probe, attempt, i) == Run(d + rest.events, rest.ready);
      CountsOfConcat(d, rest.events);
      assert Probes(d) == [];
    }
  }

  /** Of the probes `p`, every one but the last was not ok, and the last one was ok exactly when
      `ready`. */
  predicate StopsAtOk(p: seq<(nat, nat)>, probe: Prober, ready: bool) {
    (forall k :: 0 <= k < |p| - 1 ==> !IsOk(probe(p[k].0, p[k].1)))
    && (ready <==> |p| > 0 && IsOk(probe(p[|p| - 1].0, p[|p| - 1].1)))
  }

  /** A probe that was not ok, made before probes that stop at the first ok one, keeps that. */
  lemma StopsAtOkAfterFailure(x: (nat, nat), q: seq<(nat, nat)>, probe: Prober, ready: bool)
    requires !IsOk(probe(x.0, x.1)) && StopsAtOk(q, probe, ready)
    ensures StopsAtOk([x] + q, probe, ready)
  {
    var p := [x] + q;
    forall k | 0 <= k < |p| - 1 ensures !IsOk(probe(p[k].0, p[k].1)) {
      if k > 0 { assert p[k] == q[k - 1]; }
    }
    if |q| > 0 {
      assert p[|p| - 1] == q[|q| - 1];
    }
  }

  /** Every probe but the last was not ok, and the last one was ok exactly when the loop
      succeeded: the loop stops at the first ok response. */
  lemma {:induction false} StopsAtFirstOk(urls: seq<string>, maxAttempts: int, timeout: nat,
                                          probe: Prober, attempt: nat, i: nat)
    requires i <= |urls|
    ensures var run := ProbeFrom(urls, maxAttempts, timeout, probe, attempt, i);
      StopsAtOk(Probes(run.events), probe, run.ready)
    decreases AttemptsLeft(maxAttempts, attempt), |urls| - i
  {
    var run := ProbeFrom(urls, maxAttempts, timeout, probe, attempt, i);
    if attempt > maxAttempts {
    } else if i < |urls| {
      var e := Probe(attempt, i, urls[i]);
      assert Probes([e]) == [(attempt, i)];
      if !IsOk(probe(attempt, i)) {
        var rest := ProbeFrom(urls, maxAttempts, timeout, probe, attempt, i + 1);
        StopsAtFirstOk(urls, maxAttempts, timeout, probe, attempt, i + 1);
        FailedProbeFirst(e, (attempt, i), rest.events, probe, rest.ready);
      } else {
        assert Probes(run.events) == [(attempt, i)];
      }
    } else {
      var rest := ProbeFrom(urls, maxAttempts, timeout, probe, attempt + 1, 0);
      StopsAtFirstOk(urls, maxAttempts, timeout, probe, attempt + 1, 0);
      var d: seq<Event> := if attempt < maxAttempts then [Delay(timeout)] else [];
      assert Probes(d) == [];
      NoProbeFirst(d, rest.events, probe, rest.ready);
    }
  }

  lemma FailedProbeFirst(e: Event, x: (nat, nat), events: seq<Event>, probe: Prober, ready: bool)
    requires Probes([e]) == [x] && !IsOk(probe(x.0, x.1)) && StopsAtOk(Probes(events), probe, ready)
    ensures StopsAtOk(Probes([e] + events), probe, ready)
  {
    CountsOfConcat([e], events);
    StopsAtOkAfterFailure(x, Probes(events), probe, ready);
  }

  lemma NoProbeFirst(d: seq<Event>, events: seq<Event>, probe: Prober, ready: bool)
    requires Probes(d) == [] && StopsAtOk(Probes(events), probe, ready)
    ensures StopsAtOk(Probes(d + events), probe, ready)
  {
    CountsOfConcat(d, events);
    assert Probes(d + events) == Probes(events);
  }

  /** The loop succeeds exactly when some probe it would make is ok. */
  lemma {:induction false} ReadyIffSomeOk(urls: seq<string>, maxAttempts: int, timeout: nat,
                                          probe: Prober, attempt: nat, i: nat)
    requires i <= |urls|
    ensures ProbeFrom(urls, maxAttempts, timeout, probe, attempt, i).ready <==>
      exists a: nat, j: nat :: attempt <= a <= maxAttempts && j < |urls| && (a > attempt || j >= i)
        && IsOk(probe(a, j))
    decreases AttemptsLeft(maxAttempts, attempt), |urls| - i
  {
    if attempt > maxAttempts {
    } else if i < |urls| {
      if !IsOk(probe(attempt, i)) {
        ReadyIffSomeOk(urls, maxAttempts, timeout, probe, attempt, i + 1);
        if ProbeFrom(urls, maxAttempts, timeout, probe, attempt, i).ready {
          var a: nat, j: nat :| attempt <= a <= maxAttempts && j < |urls| && (a > attempt || j >= i + 1)
            && IsOk(probe(a, j));
          assert a > attempt || j >= i;
        } else {
          forall a: nat, j: nat | attempt <= a <= maxAttempts && j < |urls| && (a > attempt || j >= i)
            ensures !IsOk(probe(a, j))
          {
            if a == attempt && j == i {
            } else {
              assert a > attempt || j >= i + 1;
            }
          }
        }
      } else {
        assert attempt <= attempt <= maxAttempts && i < |urls| && IsOk(probe(attempt, i));
      }
    } else {
      ReadyIffSomeOk(urls, maxAttempts, timeout, probe, attempt + 1, 0);
      if ProbeFrom(urls, maxAttempts, timeout, probe, attempt, i).ready {
        var a: nat, j: nat :| attempt + 1 <= a <= maxAttempts && j < |urls| && (a > attempt + 1 || j >= 0)
          && IsOk(probe(a, j));
        assert a > attempt;
      } else {
        forall a: nat, j: nat | attempt <= a <= maxAttempts && j < |urls| && (a > attempt || j >= i)
          ensures !IsOk(probe(a, j))
        {
          assert a > attempt;
        }
      }
    }
  }

  /** A failed loop waited between consecutive attempts only: one delay fewer than the attempts
      left. */
  lemma {:induction false} DelaysWhenFailed(urls: seq<string>, maxAttempts: int, timeout: nat,
                                            probe: Prober, attempt: nat, i: nat)
    requires 1 <= attempt && i <= |urls|
    ensures var run := ProbeFrom(urls, maxAttempts, timeout, probe, attempt, i);
      !run.ready ==> CountDelays(run.events) == (if attempt <= maxAttempts then maxAttempts - attempt else 0)
    decreases AttemptsLeft(maxAttempts, attempt), |urls| - i
  {
    if attempt > maxAttempts {
    } else if i < |urls| {
      var e := Probe(attempt, i, urls[i]);
      if !IsOk(probe(attempt, i)) {
        var rest := ProbeFrom(urls, maxAttempts, timeout, probe, attempt, i + 1);
        assert ProbeFrom(urls, maxAttempts, timeout, probe, attempt, i) == Run([e] + rest.events, rest.ready);
        DelaysWhenFailed(urls, maxAttempts, timeout, probe, attempt, i + 1);
        CountsOfConcat([e], rest.events);
        assert CountDelays([e]) == 0;
      }
    } else {
      DelaysWhenFailed(urls, maxAttempts, timeout, probe, attempt + 1, 0);
      var d: seq<Event> := if attempt < maxAttempts then [Delay(timeout)] else [];
      var rest := ProbeFrom(urls, maxAttempts, timeout, probe, attempt + 1, 0);
      assert ProbeFrom(urls, maxAttempts, timeout, probe, attempt, i) == Run(d + rest.events, rest.ready);
      CountsOfConcat(d, rest.events);
      assert CountDelays(d) == (if attempt < maxAttempts then 1 else 0);
    }
  }

  /** A successful loop ended with the ok probe, and waited once per attempt before the one that
      succeeded. */
  lemma {:induction false} DelaysWhenReady(urls: seq<string>, maxAttempts: int, timeout: nat,
                                           probe: Prober, attempt: nat, i: nat)
    requires 1 <= attempt && i <= |urls|
    ensures var run := ProbeFrom(urls, maxAttempts, timeout, probe, attempt, i);
      run.ready ==> (run.events != [] && run.events[|run.events| - 1].Probe?
        && CountDelays(run.events) == run.events[|run.events| - 1].attempt - attempt)
    decreases AttemptsLeft(maxAttempts, attempt), |urls| - i
  {
    var run := ProbeFrom(urls, maxAttempts, timeout, probe, attempt, i);
    if attempt > maxAttempts {
      assert !run.ready;
    } else if i < |urls| {
      var e := Probe(attempt, i, urls[i]);
      assert CountDelays([e]) == 0;
      if IsOk(probe(attempt, i)) {
        assert run == Run([e], true);
      } else {
        var rest := ProbeFrom(urls, maxAttempts, timeout, probe, attempt, i + 1);
        assert run == Run([e] + rest.events, rest.ready);
        DelaysWhenReady(urls, maxAttempts, timeout, probe, attempt, i + 1);
        CountsOfConcat([e], rest.events);
        if rest.ready {
          LastOfConcat([e], rest.events);
        }
      }
    } else {
      var rest := ProbeFrom(urls, maxAttempts, timeout, probe, attempt + 1, 0);
      var d: seq<Event> := if attempt < maxAttempts then [Delay(timeout)] else [];
      assert run == Run(d + rest.events, rest.ready);
      DelaysWhenReady(urls, maxAttempts, timeout, probe, attempt + 1, 0);
      CountsOfConcat(d, rest.events);
      assert CountDelays(d) == (if attempt < maxAttempts then 1 else 0);
      if rest.ready {
        LastOfConcat(d, rest.events);
      }
    }
  }

  lemma LastOfConcat(a: seq<Event>, b: seq<Event>)
    requires b != []
    ensures a + b != [] && (a + b)[|a + b| - 1] == b[|b| - 1]
  {
  }

  lemma {:induction false} NoCloseInAttempts(urls: seq<string>, maxAttempts: int, timeout: nat,
                                             probe: Prober, attempt: nat, i: nat)
    requires i <= |urls|
    ensures CountCloses(ProbeFrom(urls, maxAttempts, timeout, probe, attempt, i).events) == 0
    decreases AttemptsLeft(maxAttempts, attempt), |urls| - i
  {
    if attempt > maxAttempts {
    } else if i < |urls| {
      var e := Probe(attempt, i, urls[i]);
      if !IsOk(probe(attempt, i)) {
        NoCloseInAttempts(urls, maxAttempts, timeout, probe, attempt, i + 1);
        CountsOfConcat([e], ProbeFrom(urls, maxAttempts, timeout, probe, attempt, i + 1).events);
      }
    } else {
      NoCloseInAttempts(urls, maxAttempts, timeout, probe, attempt + 1, 0);
      var d: seq<Event> := if attempt < maxAttempts then [Delay(timeout)] else [];
      CountsOfConcat(d, ProbeFrom(urls, maxAttempts, timeout, probe, attempt + 1, 0).events);
    }
  }

  /** The call succeeds exactly when some probe of some attempt is ok, and then it does not
      touch the loading window. */
  lemma CheckIfPortIsOpenReady(urls: seq<string>, hasLoadingWindow: bool, maxAttempts: int, timeout: nat,
                               probe: Prober)
    ensures CheckSpec(urls, hasLoadingWindow, maxAttempts, timeout, probe).0 == Ready <==>
      exists a: nat, j: nat :: 1 <= a <= maxAttempts && j < |urls| && IsOk(probe(a, j))
    ensures CheckSpec(urls, hasLoadingWindow, maxAttempts, timeout, probe).0 == Ready ==>
      CountCloses(CheckSpec(urls, hasLoadingWindow, maxAttempts, timeout, probe).1) == 0
  {
    var run := ProbeFrom(urls, maxAttempts, timeout, probe, 1, 0);
    ReadyIffSomeOk(urls, maxAttempts, timeout, probe, 1, 0);
    NoCloseInAttempts(urls, maxAttempts, timeout, probe, 1, 0);
    var w: seq<Event> := [Warmup(WarmupMs)];
    assert CountCloses(w) == 0;
    CountsOfConcat(w, run.events);
  }

  /** On exhaustion the call waited 5 s, probed every (attempt, url) pair, waited `maxAttempts - 1`
      times between attempts, closed the loading window exactly once when there is one, and
      failed with a message naming `maxAttempts`. */
  lemma CheckIfPortIsOpenFailure(urls: seq<string>, hasLoadingWindow: bool, maxAttempts: int, timeout: nat,
                                 probe: Prober)
    requires CheckSpec(urls, hasLoadingWindow, maxAttempts, timeout, probe).0 != Ready
    ensures var trace := CheckSpec(urls, hasLoadingWindow, maxAttempts, timeout, probe).1;
      trace[0] == Warmup(WarmupMs)
      && CheckSpec(urls, hasLoadingWindow, maxAttempts, timeout, probe).0 == Failed(FailureMessage(maxAttempts))
      && CountDelays(trace) == (if maxAttempts >= 1 then maxAttempts - 1 else 0)
      && Probes(trace) == Enumerate(|urls|, maxAttempts, 1, 0)
      && CountCloses(trace) == (if hasLoadingWindow then 1 else 0)
  {
    var run := ProbeFrom(urls, maxAttempts, timeout, probe, 1, 0);
    var c: seq<Event> := if hasLoadingWindow then [CloseLoading] else [];
    assert CheckSpec(urls, hasLoadingWindow, maxAttempts, timeout, probe)
      == (Failed(FailureMessage(maxAttempts)), [Warmup(WarmupMs)] + run.events + c);
    DelaysWhenFailed(urls, maxAttempts, timeout, probe, 1, 0);
    ProbesFollowEnumeration(urls, maxAttempts, timeout, probe, 1, 0);
    NoCloseInAttempts(urls, maxAttempts, timeout, probe, 1, 0);
    CountsAroundAttempts(run.events, c);
  }

  /** The warm-up before the attempts and the closing after them add no probe and no delay. */
  lemma CountsAroundAttempts(events: seq<Event>, c: seq<Event>)
    requires c == [] || c == [CloseLoading]
    ensures var t := [Warmup(WarmupMs)] + events + c;
      t[0] == Warmup(WarmupMs) && Probes(t) == Probes(events) && CountDelays(t) == CountDelays(events)
      && CountCloses(t) == CountCloses(events) + |c|
  {
    var w: seq<Event> := [Warmup(WarmupMs)];
    assert w[1..] == [];
    assert Probes(w) == [] && CountDelays(w) == 0 && CountCloses(w) == 0;
    CountsOfConcat(w, events);
    assert c != [] ==> c[1..] == [];
    assert Probes(c) == [] && CountDelays(c) == 0 && CountCloses(c) == |c|;
    CountsOfConcat(w + events, c);
  }
}
