/** Pending app-server requests decorate the threads they wait on
    (agent/internal/monitor/events.go, pendingRequestSnapshotLocked and decoratePendingRequestsLocked). */
module Decorate {
  import opened Wrappers
  import opened Decimal
  import opened Model
  import opened Sorting

  type ClientId = nat

  /** One entry of the request table: the request shown, and where its answer must go. */
  datatype PendingControl = PendingControl(request: PendingRequest, client: ClientId, appServerId: string)

  type RequestTable = map<string, PendingControl>

  predicate NamesThread(table: RequestTable, key: string, threadId: string) {
    key in table && table[key].request.threadId == threadId
  }

  function RequestThreads(table: RequestTable): set<string> {
    set key | key in table :: table[key].request.threadId
  }

  /** Go ranges over the table in any order and the last request of a thread prevails,
      so an iteration order amounts to choosing one pending request for each thread named. */
  ghost predicate IsChoice(choice: map<string, PendingRequest>, table: RequestTable) {
    && choice.Keys == RequestThreads(table)
    && (forall id :: id in choice ==> exists key :: NamesThread(table, key, id) && table[key].request == choice[id])
  }

  function WaitingState(kind: RequestKind): State {
    match kind
    case Approval => WaitingApproval
    case Input => WaitingInput
  }

  function DecorateThread(thread: Thread, request: PendingRequest): Thread {
    thread.(
    turnId := request.turnId, requestId := request.id, attentionType := Some(request.kind),
    controllable := request.controllable, stateSource := AppServerRequest, stateConfidence := Exact,
    updatedAt := request.createdAt, state := WaitingState(request.kind))
  }

  /** A thread that bears a request, in all its fields: it waits for an approval or an input as the request says. */
  predicate Bears(t: Thread, r: PendingRequest) {
    && t.requestId == r.id && t.turnId == r.turnId && t.attentionType == Some(r.kind)
        && t.controllable == r.controllable
    && t.stateSource == AppServerRequest && t.stateConfidence == Exact && t.updatedAt == r.createdAt
    && (r.kind == Approval ==> t.state == WaitingApproval)
    && (r.kind == Input ==> t.state == WaitingInput)
  }

  /** All but what the request says stays. */
  lemma DecoratedBears(was: Thread, r: PendingRequest)
    ensures var t := DecorateThread(was, r);
            && Bears(t, r)
            && t.(requestId := was.requestId, turnId := was.turnId, attentionType := was.attentionType,
                  controllable := was.controllable, stateSource := was.stateSource,
                      stateConfidence := was.stateConfidence,
                  updatedAt := was.updatedAt, state := was.state) == was
  {
  }

  function RequestThread(id: string): Thread {
    BlankThread(id).(rootThreadId := id, threadRole := RootRole)
  }

  /** A thread nothing else knows is a root without a name. */
  lemma RequestOnlyThread(id: string)
    ensures var t := RequestThread(id);
            && t.id == id && t.rootThreadId == id && t.threadRole == RootRole && t.parentThreadId == ""
            && t.name == "" && t.preview == "" && t.cwd == "" && t.lastTurnStatus == NoTurn && !t.loaded
  {
  }

  function DecoratedMap(m: map<string, Thread>, choice: map<string, PendingRequest>): map<string, Thread> {
    map id | id in m.Keys + choice.Keys ::
      if id in choice then DecorateThread(if id in m then m[id] else RequestThread(id), choice[id]) else m[id]
  }

  lemma NoRequests(m: map<string, Thread>)
    ensures DecoratedMap(m, map[]) == m
  {
  }

  lemma DecorateOneMore(m: map<string, Thread>, choice: map<string, PendingRequest>, request: PendingRequest)
    ensures var id, before := request.threadId, DecoratedMap(m, choice);
            DecoratedMap(m, choice[id := request]) ==
            before[id := DecorateThread(if id in before then before[id] else RequestThread(id), request)]
  {
  }

  /** The body of the pass: find or append the thread, then write through the index. */
  method VisitRequest(input: seq<Thread>, index: map<string, int>, request: PendingRequest,
                      ghost m: map<string, Thread>, ghost choice: map<string, PendingRequest>)
    returns (threads: seq<Thread>, byId: map<string, int>)
    requires Indexed(input, index, DecoratedMap(m, choice))
    ensures Indexed(threads, byId, DecoratedMap(m, choice[request.threadId := request]))
  {
    threads, byId := Rewrite(input, index, RequestThread(request.threadId), (t: Thread) => DecorateThread(t, request),
                             DecoratedMap(m, choice));
    DecorateOneMore(m, choice, request);
  }

  method DecoratePendingRequests(input: seq<Thread>, table: RequestTable, ghost m: map<string, Thread>)
    returns (threads: seq<Thread>, ghost choice: map<string, PendingRequest>)
    requires Enumerates(input, m)
    ensures IsChoice(choice, table)
    ensures Enumerates(threads, DecoratedMap(m, choice))
  {
    threads := input;
    var byId := IndexById(threads, m);
    choice := map[];
    NoRequests(m);
    var todo := table.Keys;
    while todo != {}
      invariant todo <= table.Keys
      invariant IsChoice(choice, table - todo)
      invariant Indexed(threads, byId, DecoratedMap(m, choice))
    {
      var key :| key in todo;
      ChooseOneMore(table, todo, choice, key);
      threads, byId := VisitRequest(threads, byId, table[key].request, m, choice);
      choice := choice[table[key].request.threadId := table[key].request];
      todo := todo - {key};
    }
    assert table - {} == table;
    IndexedEnumerates(threads, byId, DecoratedMap(m, choice));
  }

  lemma ChooseOneMore(table: RequestTable, todo: set<string>, choice: map<string, PendingRequest>, key: string)
    requires todo <= table.Keys && key in todo && IsChoice(choice, table - todo)
    ensures var request := table[key].request;
            IsChoice(choice[request.threadId := request], table - (todo - {key}))
  {
    var request := table[key].request;
    var done, more := table - todo, table - (todo - {key});
    var next := choice[request.threadId := request];
    assert more.Keys == done.Keys + {key};
    assert RequestThreads(more) == RequestThreads(done) + {request.threadId};
    forall id | id in next ensures exists k :: NamesThread(more, k, id) && more[k].request == next[id] {
      if id == request.threadId {
        assert NamesThread(more, key, id);
      } else {
        var k :| NamesThread(done, k, id) && done[k].request == choice[id];
        assert NamesThread(more, k, id);
      }
    }
  }

  ghost predicate AtMostOnePerThread(table: RequestTable) {
    forall j, k :: j in table && k in table && table[j].request.threadId == table[k].request.threadId ==> j == k
  }

  /** With at most one request per thread, iteration order has no influence. */
  lemma ChoiceIsForced(table: RequestTable, c: map<string, PendingRequest>, d: map<string, PendingRequest>)
    requires AtMostOnePerThread(table) && IsChoice(c, table) && IsChoice(d, table)
    ensures c == d
  {
    forall id | id in c ensures c[id] == d[id] {
      var j :| NamesThread(table, j, id) && table[j].request == c[id];
      var k :| NamesThread(table, k, id) && table[k].request == d[id];
    }
  }

  /** Any one entry of the table can be the one that prevails on its thread. */
  lemma ChoiceThrough(table: RequestTable, key: string) returns (choice: map<string, PendingRequest>)
    requires key in table
    ensures IsChoice(choice, table) && choice[table[key].request.threadId] == table[key].request
  {
    choice := ChoiceExists(table);
    var id := table[key].request.threadId;
    assert NamesThread(table, key, id);
    choice := choice[id := table[key].request];
  }

  lemma ChoiceExists(table: RequestTable) returns (choice: map<string, PendingRequest>)
    ensures IsChoice(choice, table)
  {
    choice := map[];
    var todo := table.Keys;
    while todo != {}
      invariant todo <= table.Keys && IsChoice(choice, table - todo)
    {
      var key :| key in todo;
      ChooseOneMore(table, todo, choice, key);
      choice := choice[table[key].request.threadId := table[key].request];
      todo := todo - {key};
    }
    assert table - {} == table;
  }

  // ---- The request list shown in snapshots ----

  /** The list shows every entry of the table once, oldest first. */
  ghost predicate Lists(requests: seq<PendingRequest>, table: RequestTable) {
    && |requests| == |table|
    && Distinct((r: PendingRequest) => r.id, requests)
    && (forall r :: r in requests ==> r.id in table && table[r.id].request == r)
    && (forall i, j :: 0 <= i < j < |requests| ==> requests[i].createdAt <= requests[j].createdAt)
  }

  function CreationTime(r: PendingRequest): int {
    r.createdAt
  }

  lemma OldestFirst(requests: seq<PendingRequest>)
    ensures SortedBy(CreationTime, requests) <==>
            forall i, j :: 0 <= i < j < |requests| ==> requests[i].createdAt <= requests[j].createdAt
  {
    if SortedBy(CreationTime, requests) {
      forall i, j | 0 <= i < j < |requests| ensures requests[i].createdAt <= requests[j].createdAt {
        assert CreationTime(requests[i]) <= CreationTime(requests[j]);
      }
    }
  }

  method PendingRequestSnapshot(table: RequestTable) returns (requests: seq<PendingRequest>)
    requires forall key :: key in table ==> table[key].request.id == key
    ensures Lists(requests, table)
  {
    requests := [];
    var todo := table.Keys;
    while todo != {}
      invariant todo <= table.Keys && |requests| + |todo| == |table|
      invariant Distinct((r: PendingRequest) => r.id, requests)
      invariant forall r :: r in requests ==> r.id in table.Keys - todo && table[r.id].request == r
    {
      var key :| key in todo;
      todo := todo - {key};
      requests := requests + [table[key].request];
    }
    SortHolds(CreationTime, (r: PendingRequest) => r.id, requests);
    forall r ensures r in SortBy(CreationTime, requests) <==> r in requests {
      SortMember(CreationTime, requests, r);
    }
    OldestFirst(SortBy(CreationTime, requests));
    requests := SortBy(CreationTime, requests);
  }

  // ---- Request ids ----

  /** `time.Time.UnixMilli`, rounding down. */
  function UnixMilli(now: int): int {
    now / 1_000_000
  }

  /** `req-<milliseconds>-<sequence>` */
  function NextRequestId(sequence: nat, now: int): string {
    "req-" + RenderInt(UnixMilli(now)) + "-" + Render(sequence)
  }

  lemma SuffixAfterDash(p: string, d: string, q: string, e: string)
    requires AllDigits(d) && AllDigits(e) && p + "-" + d == q + "-" + e
    ensures |d| <= |e|
  {
    var s := p + "-" + d;
    assert forall i :: |p| < i < |s| ==> IsDigit(s[i]);
    assert s[|s| - |e| - 1] == '-';
  }

  /** The sequence number can be read off the id, so no two numbers share one. */
  lemma RequestIdsAreUnique(j: nat, now: int, k: nat, later: int)
    ensures NextRequestId(j, now) == NextRequestId(k, later) ==> j == k
    ensures NextRequestId(j, now) != ""
  {
    var p, q := "req-" + RenderInt(UnixMilli(now)), "req-" + RenderInt(UnixMilli(later));
    if NextRequestId(j, now) == NextRequestId(k, later) {
      SuffixAfterDash(p, Render(j), q, Render(k));
      SuffixAfterDash(q, Render(k), p, Render(j));
      var s := NextRequestId(j, now);
      assert s[|s| - |Render(j)|..] == Render(j);
      assert s[|s| - |Render(k)|..] == Render(k);
      RenderInjective(j, k);
    }
  }

  /** A request id names the millisecond it was given out in, rounded down, and the number it was given. */
  lemma RequestIdReads(sequence: nat, now: int) returns (millis: string, number: string)
    ensures NextRequestId(sequence, now) == "req-" + millis + "-" + number
    ensures PyInt(number) == Some(sequence)
    ensures PyInt(millis).Some? && var m := PyInt(millis).value; 1_000_000 * m <= now < 1_000_000 * (m + 1)
  {
    hide PyInt, Render;
    millis, number := RenderInt(UnixMilli(now)), Render(sequence);
    DecimalRoundTrip(sequence);
    IntRoundTrip(UnixMilli(now));
  }
}
