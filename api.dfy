/** The HTTP handlers of the FastAPI application: request validation, the
    404 lookups, the health flag and the server-sent-event framing, over
    the run service. */
module Api {
  import opened Text
  import Runs

  /** A handler's answer: a body, or the `HTTPException` it raises. */
  datatype Response<T> = Ok(value: T) | HttpError(status: int, detail: string)

  /** The answer of the health check. */
  datatype Health = Health(status: string, timestamp: string, version: string, backend: string, github: string, portia: string)

  /** The fixed timestamp the health check reports. */
  const HEALTH_TIMESTAMP := "2024-01-01T00:00:00Z"

  /** `GET /health`. The GitHub flag only says whether any run exists. */
  method HealthCheck(svc: Runs.RunService, portiaEnabled: bool) returns (h: Health)
    ensures h.github == "connected" <==> svc.runs != map[]
    ensures h.github == "connected" || h.github == "idle"
    ensures h.portia == (if portiaEnabled then "enabled" else "disabled")
    ensures h.status == "healthy" && h.backend == "running" && h.version == "1.0.0"
    ensures h.timestamp == HEALTH_TIMESTAMP
  {
    var github := if svc.runs != map[] then "connected" else "idle";
    h := Health("healthy", HEALTH_TIMESTAMP, "1.0.0", "running", github, if portiaEnabled then "enabled" else "disabled");
  }

  /** A payload field that must be present and non-empty. */
  predicate Given(field: Option<string>) {
    field.Some? && field.value != ""
  }

  /** `POST /runs`: both `issueUrl` and `repo` must be given and non-empty;
      then a run is started under the fresh identifier, which is returned. */
  method CreateRun(svc: Runs.RunService, issueUrl: Option<string>, repo: Option<string>,
                   freshId: string, startedAt: string) returns (r: Response<string>)
    requires svc.Valid() && freshId !in svc.runs
    modifies svc
    ensures svc.Valid()
    ensures r.HttpError? <==> !Given(issueUrl) || !Given(repo)
    ensures r.HttpError? ==> r == HttpError(400, "issueUrl and repo are required") && unchanged(svc)
    ensures r.Ok? ==>
      (r.value == freshId && svc.order == old(svc.order) + [freshId]
       && svc.runs == old(svc.runs)[freshId := Runs.NewRun(freshId, issueUrl.value, repo.value, startedAt)]
       && svc.queues == old(svc.queues)[freshId := [Runs.StateChanged(Runs.Created, None)]]
       && svc.consumed == old(svc.consumed)[freshId := 0]
       && svc.tasks == old(svc.tasks)[freshId := Runs.NotStarted])
  {
    if !Given(issueUrl) || !Given(repo) {
      return HttpError(400, "issueUrl and repo are required");
    }
    svc.Start(freshId, issueUrl.value, repo.value, startedAt);
    r := Ok(freshId);
  }

  /** `GET /runs`: one summary per run, in the order the runs were created. */
  method ListRuns(svc: Runs.RunService) returns (summaries: seq<Runs.RunSummary>)
    requires svc.Valid()
    ensures |summaries| == |svc.order|
    ensures forall k :: 0 <= k < |summaries| ==>
      summaries[k].runId == svc.order[k] && summaries[k] == Runs.Summarize(svc.runs[svc.order[k]])
  {
    summaries := svc.ListRuns();
    forall k | 0 <= k < |summaries|
      ensures summaries[k].runId == svc.order[k]
    {
      assert svc.order[k] in svc.runs;
      assert Runs.Healthy(svc.order[k], svc.runs[svc.order[k]], svc.tasks[svc.order[k]],
                          svc.queues[svc.order[k]], svc.consumed[svc.order[k]]);
    }
  }

  /** `GET /runs/{id}`: the run record, or 404. */
  method GetRun(svc: Runs.RunService, id: string) returns (r: Response<Runs.Run>)
    ensures r.Ok? <==> id in svc.runs
    ensures r.Ok? ==> r.value == svc.runs[id]
    ensures r.HttpError? ==> r == HttpError(404, "Run not found")
  {
    var d := svc.Describe(id);
    match d {
      case Found(run) => r := Ok(run);
      case RunNotFound(_) => r := HttpError(404, "Run not found");
    }
  }

  /** `GET /runs/{id}/events` before streaming: 404 for an unknown run, and
      404 for a run without a queue (which a sound store never has). */
  method OpenEvents(svc: Runs.RunService, id: string) returns (r: Response<()>)
    requires svc.Valid()
    ensures r.Ok? <==> id in svc.runs
    ensures id !in svc.runs ==> r == HttpError(404, "Run not found")
  {
    if id !in svc.runs {
      return HttpError(404, "Run not found");
    }
    if id !in svc.queues {
      return HttpError(404, "Run events not found");
    }
    r := Ok(());
  }

  // ---------------------------------------------------------------------
  // Server-sent-event frames (section 9.2 of the WHATWG HTML Living Standard)

  /** One frame: an `event:` line, a `data:` line and the blank line that
      dispatches it. */
  function SseFrame(eventType: string, data: string): string {
    "event: " + eventType + "\ndata: " + data + "\n\n"
  }

  datatype FrameFields = FrameFields(eventType: string, data: string)

  /** Reads a frame back: exactly an `event: ` line, a `data: ` line and an
      empty line. */
  function ParseFrame(frame: string): (r: Option<FrameFields>)
    ensures r.Some? ==> '\n' !in r.value.eventType && '\n' !in r.value.data
  {
    var lines := Split(frame, '\n');
    if |lines| == 4 && lines[2] == "" && lines[3] == ""
       && "event: " <= lines[0] && "data: " <= lines[1]
    then Some(FrameFields(lines[0][7..], lines[1][6..]))
    else None
  }

  lemma FrameLines(eventType: string, data: string)
    requires '\n' !in eventType && '\n' !in data
    ensures Split(SseFrame(eventType, data), '\n') == ["event: " + eventType, "data: " + data, "", ""]
  {
    var l0 := "event: " + eventType;
    var l1 := "data: " + data;
    assert SseFrame(eventType, data) == l0 + ['\n'] + (l1 + ['\n'] + ([] + ['\n'] + []));
    SplitCons(l0, '\n', l1 + ['\n'] + ([] + ['\n'] + []));
    SplitCons(l1, '\n', [] + ['\n'] + []);
    SplitCons([], '\n', []);
    assert Split([], '\n') == [[]];
  }

  /** A frame reads back as the event type and data it was built from, as
      long as neither holds a line break. */
  lemma FrameRoundTrip(eventType: string, data: string)
    requires '\n' !in eventType && '\n' !in data
    ensures ParseFrame(SseFrame(eventType, data)) == Some(FrameFields(eventType, data))
  {
    FrameLines(eventType, data);
    assert ("event: " + eventType)[7..] == eventType;
    assert ("data: " + data)[6..] == data;
  }

  /** Every text that reads as a frame is exactly the frame of what it reads as. */
  lemma FrameUnique(frame: string)
    requires ParseFrame(frame).Some?
    ensures frame == SseFrame(ParseFrame(frame).value.eventType, ParseFrame(frame).value.data)
  {
    var lines := Split(frame, '\n');
    JoinSplit(frame, '\n');
    var f := ParseFrame(frame).value;
    assert lines[0] == "event: " + f.eventType;
    assert lines[1] == "data: " + f.data;
    assert lines[3..] == [lines[3]];
    assert lines[2..][1..] == lines[3..];
    assert Join(lines[2..], '\n') == lines[2] + ['\n'] + lines[3];
    assert lines[1..][1..] == lines[2..];
    assert Join(lines[1..], '\n') == lines[1] + ['\n'] + Join(lines[2..], '\n');
  }

  /** What the event generator sends next. */
  datatype Pulled = EventFrame(frame: string) | Keepalive(frame: string)

  /** One turn of the event generator of `GET /runs/{id}/events`: the next
      unconsumed event as a frame (its data encoded by `encode`, standing
      for `json.dumps`), or a keepalive frame when none arrives in time.
      Unlike `RunService.stream`, the generator never stops, not even after
      a `finished` event. */
  method PullFrame(svc: Runs.RunService, id: string, encode: Runs.Event -> string, stampJson: string)
    returns (p: Pulled)
    requires svc.Valid() && id in svc.runs
    modifies svc
    ensures svc.Valid()
    ensures svc.runs == old(svc.runs) && svc.queues == old(svc.queues) && svc.tasks == old(svc.tasks)
    ensures svc.order == old(svc.order)
    ensures old(svc.consumed[id]) <= |svc.queues[id]|
    ensures p.Keepalive? <==> old(svc.consumed[id]) == |svc.queues[id]|
    ensures p.Keepalive? ==> p.frame == SseFrame("keepalive", stampJson) && svc.consumed == old(svc.consumed)
    ensures p.EventFrame? ==>
      var e := svc.queues[id][old(svc.consumed[id])];
      p.frame == SseFrame(Runs.EventType(e), encode(e))
      && svc.consumed == old(svc.consumed)[id := old(svc.consumed[id]) + 1]
  {
    var taken := svc.consumed[id];
    var q := svc.queues[id];
    assert Runs.Healthy(id, svc.runs[id], svc.tasks[id], q, taken);
    if taken == |q| {
      return Keepalive(SseFrame("keepalive", stampJson));
    }
    Runs.StoreConsume(svc.runs, svc.queues, svc.consumed, svc.tasks, svc.order, id, taken + 1);
    svc.consumed := svc.consumed[id := taken + 1];
    p := EventFrame(SseFrame(Runs.EventType(q[taken]), encode(q[taken])));
  }

  /** `POST /runs/{id}/approve`: a missing `gate` or `decision` is a 400,
      checked before the 404 for an unknown run; a missing `note` becomes
      the empty text; a gate or decision the service refuses raises a
      `ValueError` that the application does not catch, so the client sees
      a 500. */
  method ApproveRun(svc: Runs.RunService, id: string, gate: Option<string>, decision: Option<string>,
                    note: Option<Option<string>>) returns (r: Response<string>)
    requires svc.Valid()
    modifies svc
    ensures svc.Valid()
    ensures gate.None? || decision.None? ==> r == HttpError(400, "gate and decision are required") && unchanged(svc)
    ensures gate.Some? && decision.Some? && id !in old(svc.runs) ==> r == HttpError(404, "Run not found") && unchanged(svc)
    ensures r.Ok? <==> gate.Some? && decision.Some? && id in old(svc.runs)
                       && Runs.IsGateName(gate.value)
                       && (decision.value == "approve" || decision.value == "reject")
    ensures r.Ok? ==>
      (r.value == "success"
       && var n := if note.Some? then note.value else Some("");
          var run := old(svc.runs[id]);
          && svc.runs == old(svc.runs)[id := run.(approvals := run.approvals[gate.value := Runs.Approval(decision.value, n)])]
          && svc.queues == old(svc.queues)[id := old(svc.queues[id]) + [Runs.ApprovalRecorded(gate.value, decision.value, n)]])
    ensures gate.Some? && decision.Some? && id in old(svc.runs) && !r.Ok? ==>
      r == HttpError(500, "Internal Server Error") && svc.runs == old(svc.runs) && svc.queues == old(svc.queues)
    ensures svc.consumed == old(svc.consumed) && svc.tasks == old(svc.tasks) && svc.order == old(svc.order)
  {
    if gate.None? || decision.None? {
      return HttpError(400, "gate and decision are required");
    }
    if id !in svc.runs {
      return HttpError(404, "Run not found");
    }
    var n := if note.Some? then note.value else Some("");
    var outcome := svc.Approve(id, gate.value, decision.value, n);
    if outcome.Recorded? {
      r := Ok("success");
    } else {
      r := HttpError(500, "Internal Server Error");
    }
  }
}
