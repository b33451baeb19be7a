/** Merging app-server and filesystem threads
    (agent/internal/monitor/monitor.go, mergeThreads and sortThreads). */
module Merge {
  import opened Wrappers
  import opened Model
  import opened Sorting

  // ---- sort.SliceStable on UpdatedAt, newest first ----

  function Newness(t: Thread): int {
    -t.updatedAt
  }

  function SortThreads(threads: seq<Thread>): seq<Thread> {
    SortBy(Newness, threads)
  }

  ghost predicate NewestFirst(threads: seq<Thread>) {
    forall i, j :: 0 <= i < j < |threads| ==> threads[i].updatedAt >= threads[j].updatedAt
  }

  lemma SortEnumerates(threads: seq<Thread>, m: map<string, Thread>)
    requires Enumerates(threads, m)
    ensures Enumerates(SortThreads(threads), m) && NewestFirst(SortThreads(threads))
  {
    SortHolds(Newness, (t: Thread) => t.id, threads);
    var sorted := SortThreads(threads);
    assert forall i, j :: 0 <= i < j < |sorted| ==> Newness(sorted[i]) <= Newness(sorted[j]);
    forall i | 0 <= i < |sorted| ensures sorted[i].id in m && m[sorted[i].id] == sorted[i] {
      SortMember(Newness, threads, sorted[i]);
    }
    forall id | id in m ensures m[id] in sorted && m[id].id == id {
      SortMember(Newness, threads, m[id]);
    }
  }

  // ---- What one thread becomes ----

  /** The last filesystem entry of an id wins. */
  function FilesystemAt(fs: seq<Thread>, id: string): (r: Option<Thread>)
    ensures r.Some? <==> id in Ids(fs)
    ensures r.Some? ==> r.value.id == id && r.value in fs
  {
    if fs == [] then None
    else
      var front, last := fs[..|fs| - 1], fs[|fs| - 1];
      assert fs == front + [last];
      if last.id == id then Some(last) else FilesystemAt(front, id)
  }

  function FillText(app: Thread, known: Thread): Thread {
    app.(
    sessionId := if app.sessionId == "" then known.sessionId else app.sessionId,
    parentThreadId := if app.parentThreadId == "" then known.parentThreadId else app.parentThreadId,
    agentNickname := if app.agentNickname == "" then known.agentNickname else app.agentNickname,
    agentRole := if app.agentRole == "" then known.agentRole else app.agentRole,
    name := if app.name == "" then known.name else app.name,
    cwd := if app.cwd == "" then known.cwd else app.cwd,
    source := if app.source == "" then known.source else app.source,
    cliVersion := if app.cliVersion == "" then known.cliVersion else app.cliVersion)
  }

  function FillState(app: Thread, known: Thread): Thread {
    if app.state == Unknown && known.state != Unknown then
      app.(state := known.state, stateSource := known.stateSource,
           stateConfidence := known.stateConfidence, updatedAt := known.updatedAt)
    else app
  }

  /** An app-server entry, completed from what was known about the same id. */
  function FillFrom(app: Thread, known: Thread): Thread {
    FillState(FillText(app, known), known)
  }

  /** What the merge holds for one id: None when neither source knows it. */
  function MergedAt(app: seq<Thread>, fs: seq<Thread>, id: string): (r: Option<Thread>)
    ensures r.Some? <==> id in Ids(app) || id in Ids(fs)
    ensures r.Some? ==> r.value.id == id
  {
    if app == [] then FilesystemAt(fs, id)
    else
      var front, last := app[..|app| - 1], app[|app| - 1];
      assert app == front + [last];
      var known := MergedAt(front, fs, id);
      if last.id != id then known
      else Some(if known.Some? then FillFrom(last, known.value) else last)
  }

  function MergedMap(app: seq<Thread>, fs: seq<Thread>): map<string, Thread> {
    map id | id in Ids(app) + Ids(fs) :: MergedAt(app, fs, id).value
  }

  /** The last app-server entry of an id whose state is known. */
  function LastKnown(app: seq<Thread>, id: string): (r: Option<Thread>)
    ensures r.Some? ==> r.value.id == id && r.value.state != Unknown
  {
    if app == [] then None
    else
      var last := app[|app| - 1];
      if last.id == id && last.state != Unknown then Some(last)
      else LastKnown(app[..|app| - 1], id)
  }

  function LastKnownState(app: seq<Thread>, id: string): Option<State> {
    match LastKnown(app, id) case None => None case Some(t) => Some(t.state)
  }

  /** A state, where it comes from, how sure it is and when it was set go together. */
  predicate SameState(t: Thread, u: Thread) {
    t.state == u.state && t.stateSource == u.stateSource && t.stateConfidence == u.stateConfidence
    && t.updatedAt == u.updatedAt
  }

  lemma SameStateIsReflexive()
    ensures forall t :: SameState(t, t)
  {
  }

  lemma StateChain(t: Thread, u: Thread)
    ensures SameState(t, u) ==> t.state == u.state && forall v :: SameState(u, v) ==> SameState(t, v)
    ensures forall v :: SameState(u, v) ==> u.state == v.state
  {
  }

  /** An unknown state gives way to a known one. */
  lemma FilledState(app: Thread, known: Thread)
    ensures app.state != Unknown ==> SameState(FillFrom(app, known), app)
    ensures app.state == Unknown && known.state != Unknown ==> SameState(FillFrom(app, known), known)
    ensures app.state == Unknown && known.state == Unknown ==> FillFrom(app, known).state == Unknown
  {
  }

  /** App state if known, else filesystem state, each with all that goes with it. */
  lemma {:induction false} MergedState(app: seq<Thread>, fs: seq<Thread>, id: string)
    requires MergedAt(app, fs, id).Some?
    ensures var t := MergedAt(app, fs, id).value;
            match LastKnown(app, id)
            case Some(known) => SameState(t, known)
            case None =>
              if FilesystemAt(fs, id).Some? && FilesystemAt(fs, id).value.state != Unknown then
                SameState(t, FilesystemAt(fs, id).value)
              else t.state == Unknown
  {
    hide FillFrom, SameState;
    SameStateIsReflexive();
    if app != [] {
      var front, last := app[..|app| - 1], app[|app| - 1];
      if MergedAt(front, fs, id).Some? {
        MergedState(front, fs, id);
        FilledState(last, MergedAt(front, fs, id).value);
        StateChain(MergedAt(app, fs, id).value, MergedAt(front, fs, id).value);
      } else {
        NoStateWithoutEntries(front, id);
      }
    }
  }

  // ---- What the other fields become ----

  /** The last entry of an id, in either list, that fills a text field in. */
  function LastText(app: seq<Thread>, fs: seq<Thread>, id: string, field: Thread -> string): string {
    if app == [] then
      match FilesystemAt(fs, id) case None => "" case Some(t) => field(t)
    else
      var last := app[|app| - 1];
      if last.id == id && field(last) != "" then field(last) else LastText(app[..|app| - 1], fs, id, field)
  }

  /** A field an app-server entry takes over from what was known, if it leaves it empty itself. */
  ghost predicate TakenOver(field: Thread -> string) {
    forall app, known :: field(FillFrom(app, known)) == if field(app) == "" then field(known) else field(app)
  }

  lemma StateLeavesText(app: Thread, known: Thread)
    ensures var t := FillState(app, known);
            && t.sessionId == app.sessionId && t.parentThreadId == app.parentThreadId
            && t.agentNickname == app.agentNickname && t.agentRole == app.agentRole && t.name == app.name
            && t.cwd == app.cwd && t.source == app.source && t.cliVersion == app.cliVersion
  {
  }

  /** Session, parent, nickname, role, name, directory, source and version are taken over. */
  lemma TakenOverFields()
    ensures TakenOver((t: Thread) => t.sessionId) && TakenOver((t: Thread) => t.parentThreadId)
    ensures TakenOver((t: Thread) => t.agentNickname) && TakenOver((t: Thread) => t.agentRole)
    ensures TakenOver((t: Thread) => t.name) && TakenOver((t: Thread) => t.cwd)
    ensures TakenOver((t: Thread) => t.source) && TakenOver((t: Thread) => t.cliVersion)
  {
    forall app, known {
      StateLeavesText(app, known);
    }
    hide FillState;
  }

  /** So each of them is the last one filled in. */
  lemma {:induction false} MergedText(app: seq<Thread>, fs: seq<Thread>, id: string, field: Thread -> string)
    requires TakenOver(field) && MergedAt(app, fs, id).Some?
    ensures field(MergedAt(app, fs, id).value) == LastText(app, fs, id, field)
  {
    if app != [] {
      var front, last := app[..|app| - 1], app[|app| - 1];
      if MergedAt(front, fs, id).Some? {
        MergedText(front, fs, id, field);
      } else {
        NoTextWithoutEntries(front, fs, id, field);
      }
    }
  }

  lemma {:induction false} NoTextWithoutEntries(app: seq<Thread>, fs: seq<Thread>, id: string, field: Thread -> string)
    requires MergedAt(app, fs, id) == None
    ensures LastText(app, fs, id, field) == ""
  {
    if app != [] {
      assert app == app[..|app| - 1] + [app[|app| - 1]];
      NoTextWithoutEntries(app[..|app| - 1], fs, id, field);
    }
  }

  /** The fields an entry keeps to itself. */
  predicate SameRest(t: Thread, u: Thread) {
    && t.id == u.id && t.turnId == u.turnId && t.lastTurnStatus == u.lastTurnStatus
    && t.preview == u.preview && t.loaded == u.loaded && t.controllable == u.controllable
    && t.requestId == u.requestId && t.attentionType == u.attentionType && t.lastHookEvent == u.lastHookEvent
    && t.threadRole == u.threadRole && t.rootThreadId == u.rootThreadId
  }

  lemma FilledRest(app: Thread, known: Thread)
    ensures SameRest(FillFrom(app, known), app) && SameRest(app, app)
  {
  }

  /** Those are as in the last entry of the app-server, or of the filesystem if that has none. */
  lemma {:induction false} MergedRest(app: seq<Thread>, fs: seq<Thread>, id: string)
    requires MergedAt(app, fs, id).Some?
    ensures SameRest(MergedAt(app, fs, id).value,
                     if id in Ids(app) then FilesystemAt(app, id).value else FilesystemAt(fs, id).value)
  {
    hide FillFrom, SameRest;
    if app == [] {
      FilledRest(FilesystemAt(fs, id).value, FilesystemAt(fs, id).value);
    } else {
      var front, last := app[..|app| - 1], app[|app| - 1];
      assert app == front + [last];
      FilesystemOfOneMore(front, last, id);
      if last.id != id {
        MergedRest(front, fs, id);
      } else if MergedAt(front, fs, id).Some? {
        FilledRest(last, MergedAt(front, fs, id).value);
      } else {
        FilledRest(last, last);
      }
    }
  }

  lemma FilesystemOfOneMore(front: seq<Thread>, last: Thread, id: string)
    ensures id in Ids(front + [last]) <==> id in Ids(front) || id == last.id
    ensures FilesystemAt(front + [last], id) == if last.id == id then Some(last) else FilesystemAt(front, id)
  {
    assert (front + [last])[..|front|] == front;
    assert forall t :: t in front + [last] <==> t in front || t == last;
  }

  lemma {:induction false} NoStateWithoutEntries(app: seq<Thread>, id: string)
    requires id !in Ids(app)
    ensures LastKnown(app, id) == None
  {
    if app != [] {
      var front, last := app[..|app| - 1], app[|app| - 1];
      assert last in app && last.id in Ids(app);
      assert forall t :: t in front ==> t in app;
      NoStateWithoutEntries(front, id);
    }
  }

  lemma MergedMapOfOneMore(app: seq<Thread>, fs: seq<Thread>, i: nat)
    requires i < |app|
    ensures MergedMap(app[..i + 1], fs) ==
            MergedMap(app[..i], fs)[app[i].id := MergedAt(app[..i + 1], fs, app[i].id).value]
  {
    var longer := app[..i + 1];
    assert longer[..|longer| - 1] == app[..i] && longer == app[..i] + [app[i]];
    forall id ensures id in Ids(longer) <==> id in Ids(app[..i]) || id == app[i].id {
      assert forall t :: t in longer <==> t in app[..i] || t == app[i];
    }
  }

  lemma FilesystemMapOfOneMore(fs: seq<Thread>, i: nat)
    requires i < |fs|
    ensures MergedMap([], fs[..i + 1]) == MergedMap([], fs[..i])[fs[i].id := fs[i]]
  {
    var longer := fs[..i + 1];
    assert longer[..|longer| - 1] == fs[..i] && longer == fs[..i] + [fs[i]];
    forall id ensures id in Ids(longer) <==> id in Ids(fs[..i]) || id == fs[i].id {
      assert forall t :: t in longer <==> t in fs[..i] || t == fs[i];
    }
  }

  /** The two passes over an index map, then the map's values in iteration order, sorted. */
  method MergeThreads(app: seq<Thread>, fs: seq<Thread>) returns (result: seq<Thread>)
    ensures Enumerates(result, MergedMap(app, fs))
    ensures NewestFirst(result)
  {
    var byId: map<string, Thread> := map[];
    for i := 0 to |fs|
      invariant byId == MergedMap([], fs[..i])
    {
      FilesystemMapOfOneMore(fs, i);
      byId := byId[fs[i].id := fs[i]];
    }
    assert fs[..|fs|] == fs && app[..0] == [];
    for i := 0 to |app|
      invariant byId == MergedMap(app[..i], fs)
    {
      var thread := app[i];
      MergedMapOfOneMore(app, fs, i);
      assert app[..i + 1][..i] == app[..i];
      if thread.id in byId {
        thread := FillFrom(thread, byId[thread.id]);
      }
      byId := byId[thread.id := thread];
    }
    assert app[..|app|] == app;
    result := ValuesInSomeOrder(byId);
    SortEnumerates(result, byId);
    result := SortThreads(result);
  }

  /** Ranging over a Go map: every value once, in an order the language leaves open. */
  method ValuesInSomeOrder(byId: map<string, Thread>) returns (result: seq<Thread>)
    requires forall id :: id in byId ==> byId[id].id == id
    ensures Enumerates(result, byId)
  {
    result := [];
    var todo := byId.Keys;
    while todo != {}
      invariant todo <= byId.Keys
      invariant UniqueIds(result)
      invariant forall i :: 0 <= i < |result| ==> result[i].id in byId.Keys - todo && byId[result[i].id] == result[i]
      invariant forall id :: id in byId.Keys - todo ==> byId[id] in result
    {
      var id :| id in todo;
      todo := todo - {id};
      result := result + [byId[id]];
    }
  }
}
