/** Server-sent events on the wire: how the agent writes messages (agent/internal/httpapi/server.go)
    and how the client reads lines back into messages (custom_components/codex_monitor/api.py). */
module Sse {
  import opened Wrappers
  import opened Decimal

  // ---- Writing ----

  /** One turn of handleEvents: the ticker, or a message whose JSON text is `data`. */
  datatype Frame =
    | KeepAlive
    | TaskActivity(sequence: nat, data: string)
    | Snapshot(data: string)

  const KEEP_ALIVE := ": keep-alive"
  const TASK_ACTIVITY := "task_activity"
  const SNAPSHOT := "snapshot"

  function FieldLine(field: string, value: string): string {
    field + ": " + value + "\n"
  }

  function RenderFrame(f: Frame): string {
    match f
    case KeepAlive => KEEP_ALIVE + "\n" + "\n"
    case TaskActivity(n, data) => FieldLine("id", Render(n)) + FieldLine("event", TASK_ACTIVITY) +
        FieldLine("data", data) + "\n"
    case Snapshot(data) => FieldLine("event", SNAPSHOT) + FieldLine("data", data) + "\n"
  }

  function RenderAll(frames: seq<Frame>): string {
    if frames == [] then "" else RenderFrame(frames[0]) + RenderAll(frames[1..])
  }

  method WriteFrame(f: Frame) returns (text: string)
    ensures text == RenderFrame(f)
  {
    hide FieldLine, Render, KEEP_ALIVE, TASK_ACTIVITY, SNAPSHOT;
    if f.KeepAlive? {
      return KEEP_ALIVE + "\n" + "\n";
    }
    text := "";
    if f.TaskActivity? {
      text := FieldLine("id", Render(f.sequence));
    }
    text := text + FieldLine("event", if f.TaskActivity? then TASK_ACTIVITY else SNAPSHOT) +
        FieldLine("data", f.data) + "\n";
  }

  /** The writing loop of handleEvents. */
  method WriteFrames(frames: seq<Frame>) returns (out: string)
    ensures out == RenderAll(frames)
  {
    hide RenderFrame;
    out := "";
    for i := 0 to |frames|
      invariant out + RenderAll(frames[i..]) == RenderAll(frames)
    {
      assert frames[i..][1..] == frames[i + 1..];
      var text := WriteFrame(frames[i]);
      assert (out + text) + RenderAll(frames[i + 1..]) == out + (text + RenderAll(frames[i + 1..]));
      out := out + text;
    }
    assert frames[|frames|..] == [];
  }

  // ---- Reading ----

  /** A parsed message: `CodexMonitorStreamEvent`, with the data text before JSON decoding. */
  datatype Message = Message(event: string, data: string, eventId: Option<string>)

  /** The length of the first line, its newline included. */
  function LineEnd(s: string): (k: nat)
    ensures k <= |s| && (s != "" ==> k > 0)
    ensures forall i :: 0 <= i < k - 1 ==> s[i] != '\n'
    ensures k > 0 && k < |s| ==> s[k - 1] == '\n'
  {
    if s == "" then 0 else if s[0] == '\n' then 1 else 1 + LineEnd(s[1..])
  }

  /** What iterating over the response yields: lines with their newlines, the last one perhaps without. */
  function Lines(s: string): seq<string> {
    if s == "" then [] else [s[..LineEnd(s)]] + Lines(s[LineEnd(s)..])
  }

  /** `rstrip("\r\n")` */
  function RStrip(line: string): (r: string)
    ensures r <= line
    ensures r != "" ==> r[|r| - 1] != '\r' && r[|r| - 1] != '\n'
  {
    if line != "" && (line[|line| - 1] == '\r' || line[|line| - 1] == '\n') then RStrip(line[..|line| - 1]) else line
  }

  /** The index of the first colon, or the length. */
  function Colon(line: string): (k: nat)
    ensures k <= |line| && (k < |line| ==> line[k] == ':') && ':' !in line[..k]
  {
    if line == "" || line[0] == ':' then 0 else 1 + Colon(line[1..])
  }

  function FieldOf(line: string): string {
    line[..Colon(line)]
  }

  function ValueOf(line: string): string {
    var rest := if Colon(line) < |line| then line[Colon(line) + 1..] else "";
    if rest != "" && rest[0] == ' ' then rest[1..] else rest
  }

  function Join(parts: seq<string>): string {
    if parts == [] then "" else if |parts| == 1 then parts[0]
        else Join(parts[..|parts| - 1]) + "\n" + parts[|parts| - 1]
  }

  datatype Parser = Parser(event: string, eventId: Option<string>, data: seq<string>)

  const IDLE := Parser("message", None, [])

  /** One line of the parser's loop. */
  function Feed(p: Parser, rawLine: string): (Parser, seq<Message>) {
    var line := RStrip(rawLine);
    if line == "" then (IDLE, if p.data != [] then [Message(p.event, Join(p.data), p.eventId)] else [])
    else if line[0] == ':' then (p, [])
    else if FieldOf(line) == "event" then (p.(event := ValueOf(line)), [])
    else if FieldOf(line) == "id" then (p.(eventId := Some(ValueOf(line))), [])
    else if FieldOf(line) == "data" then (p.(data := p.data + [ValueOf(line)]), [])
    else (p, [])
  }

  function FeedAll(p: Parser, lines: seq<string>): (Parser, seq<Message>)
    decreases |lines|
  {
    if lines == [] then (p, [])
    else
      var (p1, first) := Feed(p, lines[0]);
      var (p2, rest) := FeedAll(p1, lines[1..]);
      (p2, first + rest)
  }

  function Parse(s: string): seq<Message> {
    FeedAll(IDLE, Lines(s)).1
  }

  /** The body of the parser's loop, on its three variables. */
  method ReadLine(event: string, eventId: Option<string>, data: seq<string>, rawLine: string)
    returns (event': string, eventId': Option<string>, data': seq<string>, said: seq<Message>)
    ensures (Parser(event', eventId', data'), said) == Feed(Parser(event, eventId, data), rawLine)
  {
    hide RStrip, FieldOf, ValueOf, Join;
    event', eventId', data', said := event, eventId, data, [];
    var line := RStrip(rawLine);
    if line == "" {
      if data != [] {
        said := [Message(event, Join(data), eventId)];
      }
      event', eventId', data' := "message", None, [];
    } else if line[0] != ':' {
      var field, value := FieldOf(line), ValueOf(line);
      if field == "event" {
        event' := value;
      } else if field == "id" {
        eventId' := Some(value);
      } else if field == "data" {
        data' := data + [value];
      }
    }
  }

  /** The reading loop of `async_listen_events`, over the lines that arrive. */
  method Listen(lines: seq<string>) returns (messages: seq<Message>)
    ensures messages == FeedAll(IDLE, lines).1
  {
    hide Feed;
    var event, eventId, data := "message", None, [];
    messages := [];
    for i := 0 to |lines|
      invariant messages + FeedAll(Parser(event, eventId, data), lines[i..]).1 == FeedAll(IDLE, lines).1
    {
      assert lines[i..][1..] == lines[i + 1..];
      var said;
      event, eventId, data, said := ReadLine(event, eventId, data, lines[i]);
      messages := messages + said;
    }
    assert lines[|lines|..] == [];
  }

  // ---- Lines ----

  predicate LfFree(s: string) {
    forall i :: 0 <= i < |s| ==> s[i] != '\n'
  }

  lemma {:induction false} FirstLineEnd(text: string, rest: string)
    requires LfFree(text)
    ensures LineEnd(text + "\n" + rest) == |text| + 1
  {
    var s := text + "\n" + rest;
    if text != "" {
      assert s[1..] == text[1..] + "\n" + rest;
      FirstLineEnd(text[1..], rest);
    }
  }

  lemma FirstLine(text: string, rest: string)
    requires LfFree(text)
    ensures Lines(text + "\n" + rest) == [text + "\n"] + Lines(rest)
  {
    FirstLineEnd(text, rest);
    var s := text + "\n" + rest;
    assert s[..|text| + 1] == text + "\n" && s[|text| + 1..] == rest;
  }

  lemma {:induction false} FeedConcat(p: Parser, a: seq<string>, b: seq<string>)
    ensures FeedAll(p, a + b) == (FeedAll(FeedAll(p, a).0, b).0, FeedAll(p, a).1 + FeedAll(FeedAll(p, a).0, b).1)
    decreases |a|
  {
    hide Feed;
    if a == [] {
      assert a + b == b && [] + FeedAll(p, b).1 == FeedAll(p, b).1;
    } else {
      assert (a + b)[1..] == a[1..] + b;
      var (p1, first) := Feed(p, a[0]);
      FeedConcat(p1, a[1..], b);
      var mid := FeedAll(p1, a[1..]);
      assert first + (mid.1 + FeedAll(mid.0, b).1) == (first + mid.1) + FeedAll(mid.0, b).1;
    }
  }

  // ---- The round trip ----

  /** Text that survives as one data line. */
  predicate OneLine(s: string) {
    LfFree(s) && (s != "" ==> s[|s| - 1] != '\r')
  }

  /** A field line reads back as its field and value. */
  lemma {:induction false} ColonAfter(field: string, rest: string)
    requires ':' !in field
    ensures Colon(field + ":" + rest) == |field|
  {
    if field != "" {
      assert (field + ":" + rest)[1..] == field[1..] + ":" + rest;
      ColonAfter(field[1..], rest);
    }
  }

  lemma FieldReads(field: string, value: string)
    requires ':' !in field
    ensures FieldOf(field + ": " + value) == field && ValueOf(field + ": " + value) == value
  {
    var text := field + ": " + value;
    assert text == field + ":" + (" " + value);
    ColonAfter(field, " " + value);
    assert text[|field| + 1..] == " " + value;
  }

  lemma LineStrips(text: string)
    requires OneLine(text)
    ensures RStrip(text + "\n") == text
  {
    assert (text + "\n")[..|text|] == text;
    assert RStrip(text) == text;
  }

  lemma FieldLineReads(field: string, value: string)
    requires field != "" && ':' !in field && LfFree(field) && OneLine(value)
    ensures LfFree(field + ": " + value) && FieldLine(field, value) == (field + ": " + value) + "\n"
    ensures var line := RStrip(FieldLine(field, value));
            line != "" && line[0] != ':' && FieldOf(line) == field && ValueOf(line) == value
  {
    hide RStrip, FieldOf, ValueOf;
    FieldReads(field, value);
    LineStrips(field + ": " + value);
    assert (field + ": " + value)[0] == field[0];
  }

  /** What a known field does to the parser. */
  function Set(p: Parser, field: string, value: string): Parser
  {
    if field == "event" then p.(event := value)
    else if field == "id" then p.(eventId := Some(value))
    else p.(data := p.data + [value])
  }

  lemma KnownFieldFed(p: Parser, field: string, value: string)
    requires field in ["id", "event", "data"] && OneLine(value)
    ensures Feed(p, FieldLine(field, value)) == (Set(p, field, value), [])
  {
    hide RStrip, FieldOf, ValueOf, FieldLine, OneLine;
    FieldLineReads(field, value);
  }

  /** A frame's line, and what the parser does with the rest of the stream after it. */
  lemma FieldFed(p: Parser, field: string, value: string, rest: string)
    requires field in ["id", "event", "data"] && OneLine(value)
    ensures FeedAll(p, Lines(FieldLine(field, value) + rest)) == FeedAll(Set(p, field, value), Lines(rest))
  {
    KnownFieldFed(p, field, value);
    FieldLineReads(field, value);
    FirstLine(field + ": " + value, rest);
    hide Feed, FieldLine, Set, Lines, RStrip;
    FedFirst(p, FieldLine(field, value), Lines(rest));
    assert [] + FeedAll(Set(p, field, value), Lines(rest)).1 == FeedAll(Set(p, field, value), Lines(rest)).1;
  }

  lemma FedFirst(p: Parser, line: string, rest: seq<string>)
    ensures FeedAll(p, [line] + rest) ==
            (FeedAll(Feed(p, line).0, rest).0, Feed(p, line).1 + FeedAll(Feed(p, line).0, rest).1)
  {
    hide Feed;
    assert ([line] + rest)[1..] == rest;
  }

  lemma BlankFed(p: Parser, rest: string)
    ensures FeedAll(p, Lines("\n" + rest)) ==
            (FeedAll(IDLE, Lines(rest)).0,
             (if p.data != [] then [Message(p.event, Join(p.data), p.eventId)] else []) + FeedAll(IDLE, Lines(rest)).1)
  {
    FirstLine("", rest);
    assert "" + "\n" + rest == "\n" + rest && "" + "\n" == "\n";
    LineStrips("");
    hide Lines, RStrip;
    FedFirst(p, "\n", Lines(rest));
  }

  lemma CommentFed(p: Parser, rest: string)
    ensures FeedAll(p, Lines(KEEP_ALIVE + "\n" + rest)) == FeedAll(p, Lines(rest))
  {
    hide Lines, RStrip;
    CommentIsLine();
    FirstLine(KEEP_ALIVE, rest);
    LineStrips(KEEP_ALIVE);
    hide KEEP_ALIVE;
    FedFirst(p, KEEP_ALIVE + "\n", Lines(rest));
    assert [] + FeedAll(p, Lines(rest)).1 == FeedAll(p, Lines(rest)).1;
  }

  lemma CommentIsLine()
    ensures OneLine(KEEP_ALIVE) && KEEP_ALIVE[0] == ':'
  {
  }

  /** What a frame says: nothing for a keep-alive, an id on task events only. */
  function Said(f: Frame): seq<Message> {
    match f
    case KeepAlive => []
    case TaskActivity(n, data) => [Message(TASK_ACTIVITY, data, Some(Render(n)))]
    case Snapshot(data) => [Message(SNAPSHOT, data, None)]
  }

  function SaidAll(frames: seq<Frame>): seq<Message> {
    if frames == [] then [] else Said(frames[0]) + SaidAll(frames[1..])
  }

  predicate Carried(f: Frame) {
    f.KeepAlive? || OneLine(f.data)
  }

  lemma NameIsOneLine()
    ensures OneLine(TASK_ACTIVITY) && OneLine(SNAPSHOT)
  {
  }

  lemma NumberIsOneLine(n: nat)
    ensures OneLine(Render(n))
  {
    var s := Render(n);
    forall i | 0 <= i < |s| ensures s[i] != '\n' && s[i] != '\r' {
      assert IsDigit(s[i]);
    }
  }

  /** The idle parser, fed one frame, says what the frame says and is idle again. */
  lemma FrameFed(f: Frame, rest: string)
    requires Carried(f)
    ensures FeedAll(IDLE, Lines(RenderFrame(f) + rest)) ==
            (FeedAll(IDLE, Lines(rest)).0, Said(f) + FeedAll(IDLE, Lines(rest)).1)
  {
    hide FeedAll, Lines, FieldLine, Render, OneLine;
    NameIsOneLine();
    match f
    case KeepAlive =>
      assert RenderFrame(f) + rest == KEEP_ALIVE + "\n" + ("\n" + rest);
      CommentFed(IDLE, "\n" + rest);
      BlankFed(IDLE, rest);
    case Snapshot(data) =>
      DataFed(IDLE, SNAPSHOT, data, rest);
      assert RenderFrame(f) + rest == FieldLine("event", SNAPSHOT) + (FieldLine("data", data) + ("\n" + rest));
    case TaskActivity(n, data) =>
      NumberIsOneLine(n);
      DataFed(IDLE.(eventId := Some(Render(n))), TASK_ACTIVITY, data, rest);
      var tail := FieldLine("event", TASK_ACTIVITY) + (FieldLine("data", data) + ("\n" + rest));
      FieldFed(IDLE, "id", Render(n), tail);
      assert RenderFrame(f) + rest == FieldLine("id", Render(n)) + tail;
  }

  lemma DataFed(p: Parser, event: string, data: string, rest: string)
    requires p.data == [] && OneLine(event) && OneLine(data)
    ensures FeedAll(p, Lines(FieldLine("event", event) + (FieldLine("data", data) + ("\n" + rest)))) ==
            (FeedAll(IDLE, Lines(rest)).0, [Message(event, data, p.eventId)] + FeedAll(IDLE, Lines(rest)).1)
  {
    hide FeedAll, Lines, FieldLine, OneLine;
    var named := p.(event := event);
    FieldFed(p, "event", event, FieldLine("data", data) + ("\n" + rest));
    FieldFed(named, "data", data, "\n" + rest);
    BlankFed(named.(data := [data]), rest);
    assert named.data + [data] == [data];
  }

  /** Frames written ahead of anything else are read ahead of it, and leave the parser idle. */
  lemma {:induction false} FramesFed(frames: seq<Frame>, rest: string)
    requires forall i :: 0 <= i < |frames| ==> Carried(frames[i])
    ensures FeedAll(IDLE, Lines(RenderAll(frames) + rest)) ==
            (FeedAll(IDLE, Lines(rest)).0, SaidAll(frames) + FeedAll(IDLE, Lines(rest)).1)
  {
    hide Lines, RenderFrame, Said, FeedAll, Carried;
    var last := FeedAll(IDLE, Lines(rest)).1;
    if frames == [] {
      assert RenderAll(frames) + rest == rest && [] + last == last;
    } else {
      var tail := RenderAll(frames[1..]) + rest;
      assert RenderAll(frames) + rest == RenderFrame(frames[0]) + tail;
      FrameFed(frames[0], tail);
      FramesFed(frames[1..], rest);
      assert Said(frames[0]) + (SaidAll(frames[1..]) + last) == SaidAll(frames) + last;
    }
  }

  /** What was written is what is read, with keep-alives anywhere between frames. */
  lemma SseRoundTrip(frames: seq<Frame>)
    requires forall i :: 0 <= i < |frames| ==> Carried(frames[i])
    ensures Parse(RenderAll(frames)) == SaidAll(frames)
  {
    FramesFed(frames, "");
    assert RenderAll(frames) + "" == RenderAll(frames);
    assert SaidAll(frames) + [] == SaidAll(frames);
  }

  // ---- Payloads of several lines ----

  function DataLines(parts: seq<string>): string {
    if parts == [] then "" else FieldLine("data", parts[0]) + DataLines(parts[1..])
  }

  lemma {:induction false} DataLinesFed(p: Parser, parts: seq<string>, rest: string)
    requires forall i :: 0 <= i < |parts| ==> OneLine(parts[i])
    ensures FeedAll(p, Lines(DataLines(parts) + rest)) == FeedAll(p.(data := p.data + parts), Lines(rest))
    decreases |parts|
  {
    hide FeedAll, Lines, FieldLine, OneLine;
    if parts == [] {
      assert p.data + parts == p.data && DataLines(parts) + rest == rest;
    } else {
      var next := p.(data := p.data + [parts[0]]);
      FieldFed(p, "data", parts[0], DataLines(parts[1..]) + rest);
      DataLinesFed(next, parts[1..], rest);
      assert next.data + parts[1..] == p.data + parts;
      assert DataLines(parts) + rest == FieldLine("data", parts[0]) + (DataLines(parts[1..]) + rest);
    }
  }

  function Terminated(parts: seq<string>): seq<string> {
    seq(|parts|, i requires 0 <= i < |parts| => parts[i] + "\n")
  }

  lemma {:induction false} JoinSplits(parts: seq<string>, rest: string)
    requires parts != [] && forall i :: 0 <= i < |parts| ==> '\n' !in parts[i]
    ensures Lines(Join(parts) + "\n" + rest) == Terminated(parts) + Lines(rest)
    decreases |parts|
  {
    hide Lines;
    if |parts| == 1 {
      FirstLine(parts[0], rest);
      assert Terminated(parts) == [parts[0] + "\n"];
    } else {
      var front, last := parts[..|parts| - 1], parts[|parts| - 1];
      assert Join(parts) + "\n" + rest == Join(front) + "\n" + (last + "\n" + rest);
      JoinSplits(front, last + "\n" + rest);
      FirstLine(last, rest);
      assert Terminated(parts) + Lines(rest) == Terminated(front) + ([last + "\n"] + Lines(rest));
    }
  }

  /** Consecutive data lines, alone in a frame, are one message whose text has just these lines. */
  lemma DataLinesJoin(parts: seq<string>)
    requires parts != [] && forall i :: 0 <= i < |parts| ==> OneLine(parts[i])
    ensures |Parse(DataLines(parts) + "\n")| == 1
    ensures var m := Parse(DataLines(parts) + "\n")[0];
            m.event == "message" && m.eventId == None && Lines(m.data + "\n") == Terminated(parts)
  {
    hide Lines, FeedAll, Join, DataLines, Terminated;
    DataLinesFed(IDLE, parts, "\n");
    assert IDLE.data + parts == parts;
    assert "\n" + "" == "\n";
    BlankFed(IDLE.(data := parts), "");
    NothingFed(IDLE);
    JoinSplits(parts, "");
    assert Join(parts) + "\n" + "" == Join(parts) + "\n" && Terminated(parts) + [] == Terminated(parts);
  }

  lemma NothingFed(p: Parser)
    ensures Lines("") == [] && FeedAll(p, Lines("")) == (p, [])
  {
  }

  // ---- Broken streams ----

  predicate CrFree(s: string) {
    forall i :: 0 <= i < |s| ==> s[i] != '\r'
  }

  /** Nothing, or a non-empty part of one line. */
  predicate Piece(ts: seq<string>) {
    ts == [] || (|ts| == 1 && ts[0] != "" && LfFree(ts[0]) && CrFree(ts[0]))
  }

  lemma LinesOfPiece(t: string)
    requires t != "" && LfFree(t)
    ensures Lines(t) == [t]
  {
    assert LineEnd(t) == |t| by {
      assert t[LineEnd(t) - 1] != '\n';
    }
    assert t[|t|..] == "" && t[..|t|] == t;
  }

  lemma LinesUnfold(s: string)
    requires s != ""
    ensures Lines(s) == [s[..LineEnd(s)]] + Lines(s[LineEnd(s)..])
  {
  }

  lemma CutInLine(s: string, k: nat)
    requires 0 < k < LineEnd(s) && CrFree(s)
    ensures Lines(s[..k]) == [s[..k]] && Piece([s[..k]])
  {
    hide Lines;
    LinesOfPiece(s[..k]);
  }

  lemma CutAfterLine(s: string, k: nat, rest: nat, piece: seq<string>)
    requires s != "" && LineEnd(s) <= k <= |s|
    requires rest <= |Lines(s[LineEnd(s)..])|
    requires Lines(s[LineEnd(s)..][..k - LineEnd(s)]) == Lines(s[LineEnd(s)..])[..rest] + piece
    ensures rest + 1 <= |Lines(s)| && Lines(s[..k]) == Lines(s)[..rest + 1] + piece
  {
    hide Lines;
    var e := LineEnd(s);
    SameFirstLine(s, k);
    LinesUnfold(s);
    LinesUnfold(s[..k]);
    hide LineEnd;
    assert s[..k][..e] == s[..e] && s[..k][e..] == s[e..][..k - e];
    assert ([s[..e]] + Lines(s[e..]))[..rest + 1] == [s[..e]] + Lines(s[e..])[..rest];
  }

  /** A cut stream has the whole lines before the cut, and at most one piece of a line. */
  lemma {:induction false} CutLines(s: string, k: nat) returns (m: nat, piece: seq<string>)
    requires k <= |s| && CrFree(s)
    ensures m <= |Lines(s)| && Lines(s[..k]) == Lines(s)[..m] + piece
    ensures Piece(piece)
    decreases |s|
  {
    if k == 0 {
      m, piece := 0, [];
    } else if k < LineEnd(s) {
      hide Lines, Piece;
      CutInLine(s, k);
      m, piece := 0, [s[..k]];
    } else {
      hide Lines, Piece;
      m, piece := CutLines(s[LineEnd(s)..], k - LineEnd(s));
      CutAfterLine(s, k, m, piece);
      m := m + 1;
    }
  }

  lemma {:induction false} SameFirstLine(s: string, k: nat)
    requires 0 < LineEnd(s) <= k <= |s|
    ensures LineEnd(s[..k]) == LineEnd(s)
  {
    if s[0] != '\n' && LineEnd(s) > 1 {
      assert s[..k][1..] == s[1..][..k - 1];
      SameFirstLine(s[1..], k - 1);
    }
  }

  lemma PieceSaysNothing(p: Parser, t: string)
    requires t != "" && LfFree(t) && CrFree(t)
    ensures Feed(p, t).1 == [] && FeedAll(p, [t]).1 == []
  {
    assert RStrip(t) == t;
    hide FieldOf, ValueOf;
    assert Feed(p, t).1 == [];
    assert [t][1..] == [];
  }

  /** A connection that breaks anywhere has said a prefix of what the whole stream says. */
  lemma CutSaysLess(s: string, k: nat)
    requires k <= |s| && CrFree(s)
    ensures Parse(s[..k]) <= Parse(s)
  {
    hide Lines, Feed, FeedAll, CrFree;
    var m, piece := CutLines(s, k);
    var whole := Lines(s)[..m];
    FeedConcat(IDLE, whole, Lines(s)[m..]);
    assert whole + Lines(s)[m..] == Lines(s);
    FeedConcat(IDLE, whole, piece);
    if piece == [] {
      assert whole + [] == whole;
    } else {
      PieceSaysNothing(FeedAll(IDLE, whole).0, piece[0]);
      assert piece == [piece[0]];
    }
  }

  /** A frame short of its last newline has said nothing. */
  lemma UnfinishedFrame(f: Frame)
    requires Carried(f)
    ensures Parse(RenderFrame(f)[..|RenderFrame(f)| - 1]) == []
  {
    hide FeedAll, Lines, FieldLine, Render, OneLine;
    NameIsOneLine();
    var most := RenderFrame(f)[..|RenderFrame(f)| - 1];
    match f
    case KeepAlive =>
      assert most == KEEP_ALIVE + "\n" + "";
      CommentFed(IDLE, "");
      NothingLeft();
    case Snapshot(data) =>
      assert most == FieldLine("event", SNAPSHOT) + (FieldLine("data", data) + "");
      UnfinishedData(IDLE, SNAPSHOT, data);
    case TaskActivity(n, data) =>
      NumberIsOneLine(n);
      var tail := FieldLine("event", TASK_ACTIVITY) + (FieldLine("data", data) + "");
      assert most == FieldLine("id", Render(n)) + tail;
      FieldFed(IDLE, "id", Render(n), tail);
      UnfinishedData(IDLE.(eventId := Some(Render(n))), TASK_ACTIVITY, data);
  }

  lemma UnfinishedData(p: Parser, event: string, data: string)
    requires OneLine(event) && OneLine(data)
    ensures FeedAll(p, Lines(FieldLine("event", event) + (FieldLine("data", data) + ""))).1 == []
  {
    hide FieldLine, OneLine;
    NothingLeft();
    FieldFed(p, "event", event, FieldLine("data", data) + "");
    FieldFed(p.(event := event), "data", data, "");
  }

  lemma NothingLeft()
    ensures forall q :: FeedAll(q, Lines("")).1 == []
  {
  }

  lemma CrFreeConcat(a: string, b: string)
    requires CrFree(a) && CrFree(b)
    ensures CrFree(a + b)
  {
  }

  lemma FieldIsCrFree(field: string, value: string)
    requires CrFree(field) && CrFree(value)
    ensures CrFree(FieldLine(field, value))
  {
  }

  lemma NumberIsCrFree(n: nat)
    ensures CrFree(Render(n))
  {
    forall i | 0 <= i < |Render(n)| ensures Render(n)[i] != '\r' {
      assert IsDigit(Render(n)[i]);
    }
  }

  lemma FixedTextIsCrFree()
    ensures CrFree("id") && CrFree("event") && CrFree("data") && CrFree("\n")
    ensures CrFree(TASK_ACTIVITY) && CrFree(SNAPSHOT) && CrFree(KEEP_ALIVE)
  {
  }

  lemma FrameIsCrFree(f: Frame)
    requires f.KeepAlive? || CrFree(f.data)
    ensures CrFree(RenderFrame(f))
  {
    hide CrFree, FieldLine, Render, TASK_ACTIVITY, SNAPSHOT, KEEP_ALIVE;
    FixedTextIsCrFree();
    match f
    case KeepAlive =>
      CrFreeConcat(KEEP_ALIVE, "\n");
      CrFreeConcat(KEEP_ALIVE + "\n", "\n");
    case Snapshot(data) =>
      DataIsCrFree("", SNAPSHOT, data);
      assert RenderFrame(f) == "" + FieldLine("event", SNAPSHOT) + FieldLine("data", data) + "\n";
    case TaskActivity(n, data) =>
      NumberIsCrFree(n);
      FieldIsCrFree("id", Render(n));
      DataIsCrFree(FieldLine("id", Render(n)), TASK_ACTIVITY, data);
  }

  lemma DataIsCrFree(before: string, event: string, data: string)
    requires (before == "" || CrFree(before)) && CrFree(event) && CrFree(data)
    ensures CrFree(before + FieldLine("event", event) + FieldLine("data", data) + "\n")
  {
    FixedTextIsCrFree();
    FieldIsCrFree("event", event);
    FieldIsCrFree("data", data);
    hide FieldLine;
  }

  lemma CutFrameSaysNothing(f: Frame, k: nat)
    requires k < |RenderFrame(f)| && Carried(f) && (f.KeepAlive? || CrFree(f.data))
    ensures Parse(RenderFrame(f)[..k]) == []
  {
    hide RenderFrame, Parse, CrFree, Carried;
    FrameIsCrFree(f);
    UnfinishedFrame(f);
    var text := RenderFrame(f);
    var most := text[..|text| - 1];
    PrefixIsCrFree(text, |text| - 1);
    CutSaysLess(most, k);
    assert most[..k] == text[..k];
  }

  lemma PrefixIsCrFree(s: string, k: nat)
    requires CrFree(s) && k <= |s|
    ensures CrFree(s[..k])
  {
  }

  /** A stream that breaks inside a frame has said exactly the frames before it. */
  lemma BrokenStream(frames: seq<Frame>, f: Frame, k: nat)
    requires forall i :: 0 <= i < |frames| ==> Carried(frames[i])
    requires k < |RenderFrame(f)| && Carried(f) && (f.KeepAlive? || CrFree(f.data))
    ensures Parse(RenderAll(frames) + RenderFrame(f)[..k]) == SaidAll(frames)
  {
    hide Lines, RenderFrame, RenderAll, FeedAll, CrFree, Carried, SaidAll;
    CutFrameSaysNothing(f, k);
    FramesFed(frames, RenderFrame(f)[..k]);
    assert SaidAll(frames) + [] == SaidAll(frames);
  }

  // ---- Which payloads survive ----

  lemma {:induction false} RStripAppend(prefix: string, s: string)
    requires prefix != "" && prefix[|prefix| - 1] != '\r' && prefix[|prefix| - 1] != '\n'
    ensures RStrip(prefix + s) == prefix + RStrip(s)
  {
    if s == "" {
      assert prefix + s == prefix;
    } else {
      assert (prefix + s)[..|prefix + s| - 1] == prefix + s[..|s| - 1];
      if s[|s| - 1] == '\r' || s[|s| - 1] == '\n' {
        RStripAppend(prefix, s[..|s| - 1]);
      }
    }
  }

  lemma JoinOneMore(parts: seq<string>, part: string)
    requires parts != []
    ensures |Join(parts + [part])| == |Join(parts)| + 1 + |part|
  {
    assert (parts + [part])[..|parts|] == parts;
  }

  /** A data line is longer than its value by its name and colon. */
  lemma DataLineLength(line: string)
    requires FieldOf(line) == "data"
    ensures |line| >= 4 && |line| >= |ValueOf(line)| + 4
  {
    assert |FieldOf(line)| == 4;
  }

  function TotalLength(lines: seq<string>): nat {
    if lines == [] then 0 else |lines[0]| + TotalLength(lines[1..])
  }

  lemma FeedKinds(p: Parser, rawLine: string)
    requires rawLine != ""
    ensures var (q, said) := Feed(p, rawLine);
            || (said != [] && said[0].data == Join(p.data))
            || (said == [] && q.data == p.data)
            || (said == [] && p.data == [] == q.data)
            || (said == [] && exists v :: q.data == p.data + [v] && |v| + 4 <= |rawLine|)
  {
    hide FieldOf, ValueOf;
    var line := RStrip(rawLine);
    if line != "" && line[0] != ':' && FieldOf(line) == "data" {
      DataLineLength(line);
      assert Feed(p, rawLine).0.data == p.data + [ValueOf(line)];
    }
  }

  /** The next message of a parser that holds some data is that data, or loses a data line's name on each line it
      adds. */
  lemma {:induction false} NextMessageIsShort(p: Parser, lines: seq<string>)
    requires p.data != [] && (forall i :: 0 <= i < |lines| ==> lines[i] != "")
    ensures var ms := FeedAll(p, lines).1;
            ms != [] ==> ms[0].data == Join(p.data) || |ms[0].data| + 4 <= |Join(p.data)| + TotalLength(lines)
    ensures FeedAll(p, lines).1 != [] ==> lines != []
    decreases |lines|
  {
    if lines != [] {
      hide Feed, Join;
      FeedKinds(p, lines[0]);
      var (q, said) := Feed(p, lines[0]);
      if said == [] {
        if q.data != p.data {
          var v :| q.data == p.data + [v] && |v| + 4 <= |lines[0]|;
          JoinOneMore(p.data, v);
        }
        NextMessageIsShort(q, lines[1..]);
      }
    }
  }

  lemma LinesTotal(s: string)
    ensures TotalLength(Lines(s)) == |s| && forall i :: 0 <= i < |Lines(s)| ==> Lines(s)[i] != ""
    decreases |s|
  {
    if s != "" {
      LinesTotal(s[LineEnd(s)..]);
    }
  }

  lemma SameTextFed(p: Parser, a: string, b: string, rest: string)
    requires LfFree(a) && LfFree(b) && RStrip(a + "\n") == RStrip(b + "\n")
    ensures FeedAll(p, Lines(a + "\n" + rest)) == FeedAll(p, Lines(b + "\n" + rest))
  {
    hide Lines, FeedAll, RStrip;
    FirstLine(a, rest);
    FirstLine(b, rest);
    FedFirst(p, a + "\n", Lines(rest));
    FedFirst(p, b + "\n", Lines(rest));
  }

  /** A data line drops the carriage returns its text ends with. */
  lemma DataLineFed(p: Parser, x: string, rest: string)
    requires LfFree(x)
    ensures FeedAll(p, Lines(FieldLine("data", x) + rest)) == FeedAll(p.(data := p.data + [RStrip(x)]), Lines(rest))
  {
    hide Lines, FeedAll, RStrip, OneLine;
    DataLineStrips(x);
    SameTextFed(p, "data: " + x, "data: " + RStrip(x), rest);
    FieldFed(p, "data", RStrip(x), rest);
    hide LfFree;
    assert FieldLine("data", x) + rest == "data: " + x + "\n" + rest;
    assert FieldLine("data", RStrip(x)) + rest == "data: " + RStrip(x) + "\n" + rest;
  }

  lemma DataLineStrips(x: string)
    requires LfFree(x)
    ensures OneLine(RStrip(x)) && LfFree("data: " + x) && LfFree("data: " + RStrip(x))
    ensures RStrip("data: " + x + "\n") == RStrip("data: " + RStrip(x) + "\n")
  {
    RStripAppend("data: ", x);
    LineStrips("data: " + RStrip(x));
    var raw := "data: " + x + "\n";
    assert raw[..|raw| - 1] == "data: " + x;
  }

  lemma RStripKeeps(d: string)
    requires LfFree(d)
    ensures RStrip(d) == d <==> OneLine(d)
  {
  }

  /** A payload arrives unchanged exactly when it is one line. */
  lemma DataSurvives(p: Parser, d: string)
    requires p.data == []
    ensures FeedAll(p, Lines(FieldLine("data", d) + "\n")).1 == [Message(p.event, d, p.eventId)] <==> OneLine(d)
  {
    hide FieldLine, FeedAll, Lines, RStrip;
    if LfFree(d) {
      DataLineFed(p, d, "\n");
      var q := p.(data := p.data + [RStrip(d)]);
      BlankFed(q, "");
      assert "\n" + "" == "\n" && q.data == [RStrip(d)];
      NothingLeft();
      RStripKeeps(d);
      var ms := FeedAll(p, Lines(FieldLine("data", d) + "\n")).1;
      assert ms == [Message(p.event, RStrip(d), p.eventId)];
      assert ms[0].data == RStrip(d);
    } else {
      BrokenPayload(p, d);
    }
  }

  lemma SplitPayload(d: string) returns (x: string, y: string)
    requires !LfFree(d)
    ensures LfFree(x) && |d| == |x| + 1 + |y|
    ensures FieldLine("data", d) + "\n" == FieldLine("data", x) + (y + "\n" + "\n")
  {
    var e := LineEnd(d);
    x, y := d[..e - 1], d[e..];
    assert d == x + "\n" + y;
  }

  lemma BrokenPayload(p: Parser, d: string)
    requires p.data == [] && !LfFree(d)
    ensures var ms := FeedAll(p, Lines(FieldLine("data", d) + "\n")).1; ms != [] ==> ms[0].data != d
  {
    hide Lines, FeedAll, RStrip, FieldLine, LfFree;
    var x, y := SplitPayload(d);
    var rest := y + "\n" + "\n";
    DataLineFed(p, x, rest);
    LinesTotal(rest);
    var q := p.(data := p.data + [RStrip(x)]);
    assert Join(q.data) == RStrip(x);
    NextMessageIsShort(q, Lines(rest));
  }

  /** A frame reads back as what it says exactly when its payload is one line that does not end in a carriage return. */
  lemma FrameSurvivesExactly(f: Frame)
    ensures Parse(RenderFrame(f)) == Said(f) <==> Carried(f)
  {
    hide Lines, FeedAll, FieldLine, Render, OneLine;
    NameIsOneLine();
    match f
    case KeepAlive =>
      SseRoundTrip([f]);
      assert RenderFrame(f) + "" == RenderFrame(f);
    case Snapshot(data) =>
      var tail := FieldLine("data", data) + "\n";
      assert RenderFrame(f) == FieldLine("event", SNAPSHOT) + tail;
      FieldFed(IDLE, "event", SNAPSHOT, tail);
      DataSurvives(IDLE.(event := SNAPSHOT), data);
    case TaskActivity(n, data) =>
      NumberIsOneLine(n);
      var tail := FieldLine("data", data) + "\n";
      assert RenderFrame(f) == FieldLine("id", Render(n)) + (FieldLine("event", TASK_ACTIVITY) + tail);
      FieldFed(IDLE, "id", Render(n), FieldLine("event", TASK_ACTIVITY) + tail);
      FieldFed(IDLE.(eventId := Some(Render(n))), "event", TASK_ACTIVITY, tail);
      DataSurvives(IDLE.(eventId := Some(Render(n)), event := TASK_ACTIVITY), data);
  }
}
