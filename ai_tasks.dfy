/** The AI endpoint (`api/ai.ts`): the in-memory task cache filled by a background
    generation, the request router with its status codes, and the extraction of
    `data: ` lines from the upstream event stream. The upstream `fetch` is a given
    outcome, `JSON.parse(data).choices[0].delta.content` an oracle from a payload
    to its text ("" when there is none), and the five-minute expiry an explicit
    event. */
module AiTasks {

  import opened Wrappers
  import opened QuizData
  import opened Scoring

  // ---- The event-stream lines ----

  /** `s.split('\n')`. */
  function SplitLines(s: string): (lines: seq<string>)
    ensures |lines| >= 1
    ensures forall k :: 0 <= k < |lines| ==> '\n' !in lines[k]
  {
    if s == [] then [""]
    else
      var rest := SplitLines(s[1..]);
      if s[0] == '\n' then [""] + rest else [[s[0]] + rest[0]] + rest[1..]
  }

  /** `lines.join('\n')`. */
  function JoinLines(lines: seq<string>): string
    requires |lines| >= 1
  {
    if |lines| == 1 then lines[0] else lines[0] + "\n" + JoinLines(lines[1..])
  }

  /** Splitting loses nothing: the lines joined back are the chunk. */
  lemma {:induction false} SplitLinesJoin(s: string)
    ensures JoinLines(SplitLines(s)) == s
  {
    if s != [] {
      var rest := SplitLines(s[1..]);
      SplitLinesJoin(s[1..]);
      if s[0] == '\n' {
        assert ([""] + rest)[1..] == rest;
      } else {
        var lines := [[s[0]] + rest[0]] + rest[1..];
        if |rest| > 1 {
          assert lines[1..] == rest[1..];
          assert JoinLines(rest) == rest[0] + "\n" + JoinLines(rest[1..]);
        }
      }
    }
  }

  /** A text without a line break in front of a chunk joins the chunk's first line. */
  lemma {:induction false} SplitLinesPrefix(a: string, b: string)
    requires '\n' !in a
    ensures SplitLines(a + b) == [a + SplitLines(b)[0]] + SplitLines(b)[1..]
  {
    if a != [] {
      assert (a + b)[1..] == a[1..] + b;
      SplitLinesPrefix(a[1..], b);
      assert (a + b)[0] == a[0] && a[0] != '\n';
      var r := SplitLines(b);
      assert SplitLines(a + b) == [[a[0]] + SplitLines(a[1..] + b)[0]] + SplitLines(a[1..] + b)[1..];
      assert [a[0]] + (a[1..] + r[0]) == a + r[0];
    } else {
      assert a + b == b;
      var r := SplitLines(b);
      assert [r[0]] + r[1..] == r;
      assert a + r[0] == r[0];
    }
  }

  /** Splitting joined lines gives back the lines, when none holds a line break. */
  lemma {:induction false} JoinLinesSplit(lines: seq<string>)
    requires |lines| >= 1
    requires forall k :: 0 <= k < |lines| ==> '\n' !in lines[k]
    ensures SplitLines(JoinLines(lines)) == lines
  {
    if |lines| == 1 {
      SplitLinesPrefix(lines[0], "");
      assert lines[0] + "" == lines[0];
    } else {
      var a, b := lines[0], JoinLines(lines[1..]);
      JoinLinesSplit(lines[1..]);
      SplitLinesBreak(b);
      assert JoinLines(lines) == a + ("\n" + b);
      SplitLinesPrefix(a, "\n" + b);
      assert a + "" == a;
      assert [a] + lines[1..] == lines;
    }
  }

  /** A leading line break ends an empty first line. */
  lemma SplitLinesBreak(b: string)
    ensures SplitLines("\n" + b) == [""] + SplitLines(b)
  {
    assert ("\n" + b)[1..] == b;
  }

  const DataPrefix: string := "data: "
  const DoneMarker: string := "[DONE]"

  /** `line.startsWith('data: ') ? line.slice(6) : (skipped)`. */
  function DataPayload(line: string): (p: Option<string>)
    ensures p.Some? <==> DataPrefix <= line
    ensures p.Some? ==> line == DataPrefix + p.value
  {
    if |line| >= |DataPrefix| && line[..|DataPrefix|] == DataPrefix then Some(line[|DataPrefix|..]) else None
  }

  /** Every `data: ` line is read back as its payload. */
  lemma DataPayloadOfDataLine(payload: string)
    ensures DataPayload(DataPrefix + payload) == Some(payload)
  {
    assert (DataPrefix + payload)[..|DataPrefix|] == DataPrefix;
  }

  /** The texts the inner `for` over one chunk's lines appends, in order: a
      `data: [DONE]` line ends the chunk, and a payload whose text is empty adds
      nothing. */
  function ChunkDeltas(lines: seq<string>, deltaOf: string -> string): (ds: seq<string>)
    ensures forall k :: 0 <= k < |ds| ==> ds[k] != ""
  {
    if lines == [] then []
    else match DataPayload(lines[0])
      case None => ChunkDeltas(lines[1..], deltaOf)
      case Some(data) =>
        if data == DoneMarker then []
        else (if deltaOf(data) != "" then [deltaOf(data)] else []) + ChunkDeltas(lines[1..], deltaOf)
  }

  /** The texts appended over all chunks: `[DONE]` ends its chunk but not the
      outer `while`, which goes on reading. */
  function StreamDeltas(chunks: seq<string>, deltaOf: string -> string): (ds: seq<string>)
    ensures forall k :: 0 <= k < |ds| ==> ds[k] != ""
  {
    if chunks == [] then []
    else StreamDeltas(chunks[..|chunks| - 1], deltaOf) + ChunkDeltas(SplitLines(chunks[|chunks| - 1]), deltaOf)
  }

  /** A chunk without a line break is one line. */
  lemma OneLine(line: string)
    requires '\n' !in line
    ensures SplitLines(line) == [line]
  {
    JoinLinesSplit([line]);
  }

  lemma TwoChunks(c1: string, c2: string, deltaOf: string -> string)
    ensures StreamDeltas([c1, c2], deltaOf) == ChunkDeltas(SplitLines(c1), deltaOf) + ChunkDeltas(SplitLines(c2), deltaOf)
  {
    assert [c1, c2][..1] == [c1];
    assert [c1][..0] == [];
    assert StreamDeltas([c1], deltaOf) == [] + ChunkDeltas(SplitLines(c1), deltaOf);
    assert [] + ChunkDeltas(SplitLines(c1), deltaOf) == ChunkDeltas(SplitLines(c1), deltaOf);
  }

  /** A chunk that is one `data:` line other than `[DONE]` appends that line's text. */
  lemma OneDataLine(payload: string, deltaOf: string -> string)
    requires '\n' !in payload && payload != DoneMarker
    ensures ChunkDeltas(SplitLines(DataPrefix + payload), deltaOf) == if deltaOf(payload) != "" then [deltaOf(payload)] else []
  {
    OneLine(DataPrefix + payload);
    DataPayloadOfDataLine(payload);
    assert [DataPrefix + payload][1..] == [];
  }

  /** `[DONE]` stops only its own chunk: a `data:` line after it in the same
      chunk is dropped, while one in the next chunk is still appended. */
  lemma DoneEndsOnlyItsChunk(x: string, y: string, deltaOf: string -> string)
    requires '\n' !in x && '\n' !in y && y != DoneMarker
    ensures StreamDeltas([DataPrefix + DoneMarker + "\n" + DataPrefix + x, DataPrefix + y], deltaOf)
      == if deltaOf(y) != "" then [deltaOf(y)] else []
  {
    var done, line := DataPrefix + DoneMarker, DataPrefix + x;
    assert JoinLines([done, line]) == DataPrefix + DoneMarker + "\n" + DataPrefix + x by {
      assert [done, line][1..] == [line];
    }
    JoinLinesSplit([done, line]);
    DataPayloadOfDataLine(DoneMarker);
    TwoChunks(DataPrefix + DoneMarker + "\n" + DataPrefix + x, DataPrefix + y, deltaOf);
    OneDataLine(y, deltaOf);
  }

  /** A `data:` line cut in two by a chunk boundary is not rejoined: its first
      half is read as a payload of its own (one that `JSON.parse` rejects gives
      no text) and its second half, not starting with `data: `, is skipped. */
  lemma SplitLineIsLost(p1: string, p2: string, deltaOf: string -> string)
    requires '\n' !in p1 && '\n' !in p2 && p1 != DoneMarker && !(DataPrefix <= p2)
    ensures StreamDeltas([DataPrefix + p1, p2], deltaOf) == if deltaOf(p1) != "" then [deltaOf(p1)] else []
  {
    TwoChunks(DataPrefix + p1, p2, deltaOf);
    OneDataLine(p1, deltaOf);
    OneLine(p2);
    assert [p2][1..] == [];
  }

  /** The texts joined, oldest first. */
  function Concat(ds: seq<string>): string {
    if ds == [] then "" else Concat(ds[..|ds| - 1]) + ds[|ds| - 1]
  }

  lemma ConcatSnoc(ds: seq<string>, d: string)
    ensures Concat(ds + [d]) == Concat(ds) + d
  {
    assert (ds + [d])[..|ds|] == ds;
  }

  /** An earlier running total is a prefix of a later one, and a strict prefix
      when a non-empty text came in between. */
  lemma {:induction false} ConcatPrefix(ds: seq<string>, i: nat, j: nat)
    requires i <= j <= |ds|
    ensures Concat(ds[..i]) <= Concat(ds[..j])
    ensures i < j && ds[j - 1] != "" ==> |Concat(ds[..i])| < |Concat(ds[..j])|
  {
    if i < j {
      ConcatPrefix(ds, i, j - 1);
      assert ds[..j] == ds[..j - 1] + [ds[j - 1]];
      ConcatSnoc(ds[..j - 1], ds[j - 1]);
    }
  }

  // ---- The task cache ----

  /** A cache entry: the text so far, whether generation ended, and its error. */
  datatype Task = Task(content: string, finished: bool, error: Option<string>)

  /** The entry `init` stores before generation begins. */
  const FreshTask := Task("", false, None)

  /** `message || fallback`. */
  function OrDefault(message: string, fallback: string): (m: string)
    ensures fallback != "" ==> m != ""
    ensures m == message || m == fallback
  {
    if message != "" then message else fallback
  }

  /** The entry of a failed generation. */
  function Failed(message: string): Task {
    Task("", true, Some(message))
  }

  /** How the upstream request went: `fetch` threw, the response was not ok, it
      had no body, or it was read chunk by chunk, after which the reader either
      reported the end or threw. */
  datatype Upstream =
    | Threw(message: string)
    | NotOk
    | NoBody
    | Stream(chunks: seq<string>, failure: Option<string>)

  /** The entries written while the texts `ds` arrive, one per text. */
  function Progress(ds: seq<string>): (ws: seq<Task>)
    ensures |ws| == |ds|
  {
    seq(|ds|, k requires 0 <= k < |ds| => Task(Concat(ds[..k + 1]), false, None))
  }

  lemma ProgressSnoc(ds: seq<string>, d: string)
    ensures Progress(ds + [d]) == Progress(ds) + [Task(Concat(ds) + d, false, None)]
  {
    var l, r := Progress(ds + [d]), Progress(ds) + [Task(Concat(ds) + d, false, None)];
    forall k | 0 <= k < |l| ensures l[k] == r[k] {
      if k < |ds| {
        assert (ds + [d])[..k + 1] == ds[..k + 1];
      } else {
        assert (ds + [d])[..k + 1] == ds + [d];
        ConcatSnoc(ds, d);
      }
    }
  }

  /** Every entry `generateAIContent` writes for its task, in order. */
  function GenerationWrites(upstream: Upstream, deltaOf: string -> string): (ws: seq<Task>)
    ensures ws != []
  {
    match upstream
    case Threw(message) => [Failed(OrDefault(message, "生成失败"))]
    case NotOk => [Failed("AI 服务请求失败")]
    case NoBody => [Failed("无法读取 AI 响应")]
    case Stream(chunks, failure) =>
      var ds := StreamDeltas(chunks, deltaOf);
      Progress(ds) + [match failure
                      case None => Task(Concat(ds), true, None)
                      case Some(message) => Failed(OrDefault(message, "生成失败"))]
  }

  /** The running texts grow strictly from one write to the next. */
  lemma ProgressGrows(ds: seq<string>)
    requires forall k :: 0 <= k < |ds| ==> ds[k] != ""
    ensures forall k, k' :: 0 <= k < k' < |ds| ==> Progress(ds)[k].content < Progress(ds)[k'].content
  {
    forall k, k' | 0 <= k < k' < |ds| ensures Progress(ds)[k].content < Progress(ds)[k'].content {
      ConcatPrefix(ds, k + 1, k' + 1);
    }
  }

  /** Every running text is a prefix of the whole text. */
  lemma ProgressBelowTotal(ds: seq<string>)
    ensures forall k :: 0 <= k < |ds| ==> Progress(ds)[k].content <= Concat(ds)
  {
    forall k | 0 <= k < |ds| ensures Progress(ds)[k].content <= Concat(ds) {
      ConcatPrefix(ds, k + 1, |ds|);
      assert ds[..|ds|] == ds;
    }
  }

  /** A task's life: while streaming, every write is unfinished, error-free and
      extends the previous text; the last write marks the entry finished, with the whole
      text and no error exactly when the stream was read to its end, and otherwise
      with no text and a non-empty error. */
  lemma GenerationLifecycle(upstream: Upstream, deltaOf: string -> string)
    ensures var ws := GenerationWrites(upstream, deltaOf);
      && (forall k :: 0 <= k < |ws| - 1 ==> !ws[k].finished && ws[k].error == None)
      && (forall k, k' :: 0 <= k < k' < |ws| - 1 ==> ws[k].content < ws[k'].content)
      && ws[|ws| - 1].finished
      && (ws[|ws| - 1].error == None <==> upstream.Stream? && upstream.failure == None)
      && (ws[|ws| - 1].error != None ==> ws[|ws| - 1].content == "" && ws[|ws| - 1].error.value != "")
      && (ws[|ws| - 1].error == None ==> forall k :: 0 <= k < |ws| - 1 ==> ws[k].content <= ws[|ws| - 1].content)
  {
    if upstream.Stream? {
      var ds := StreamDeltas(upstream.chunks, deltaOf);
      ProgressGrows(ds);
      ProgressBelowTotal(ds);
    }
  }

  /** The request's query values: absent, one string, or repeated. */
  datatype Param = Absent | One(value: string) | Many(values: seq<string>)

  /** The assessment a client posts; only the truthiness of its score is read. */
  datatype Assessment = Assessment(totalScore: Option<int>)

  /** A request body: the assessment at top level (`init`, `analyze`) and under
      `result` (the streaming route). */
  datatype Body = Body(data: Assessment, result: Option<Assessment>)

  datatype Request = Request(httpMethod: string, action: Param, taskId: Param, body: Option<Body>)

  /** One event the streaming route writes. */
  datatype StreamEvent = ContentEvent(text: string) | DoneEvent

  datatype Payload =
    | NoContent
    | ErrorJson(message: string)
    | TaskCreated(taskId: string)
    | TaskProgress(content: string, finished: bool)
    | ReportJson(report: string)
    | EventStream(events: seq<StreamEvent>, ended: bool)

  datatype Response = Response(status: int, payload: Payload)

  /** How the non-streaming `analyze` call went; its report already has `|| ''`
      applied. */
  datatype Reply = ReplyThrew(message: string) | ReplyNotOk | ReplyReport(report: string)

  /** `!data || !data.totalScore` fails: a number is truthy unless it is 0. */
  predicate HasScore(a: Option<Assessment>) {
    a.Some? && a.value.totalScore.Some? && a.value.totalScore.value != 0
  }

  /** The assessment of a body, if there is one. */
  function DataOf(body: Option<Body>): (a: Option<Assessment>)
    ensures a.Some? <==> body.Some?
  {
    match body
    case None => None
    case Some(b) => Some(b.data)
  }

  /** What destructuring `undefined` throws in the streaming route. */
  const DestructureError: string := "Cannot destructure property 'result' of 'req.body' as it is undefined."

  /** The poll route's answer for the cache `tasks`. */
  function PollResponse(tasks: map<string, Task>, taskId: Param): (resp: Response)
    ensures resp.status == 400 <==> !(taskId.One? && taskId.value != "")
    ensures resp.status == 404 <==> taskId.One? && taskId.value != "" && taskId.value !in tasks
    ensures resp.status == 500 <==> (taskId.One? && taskId.value != "" && taskId.value in tasks
      && tasks[taskId.value].error.Some? && tasks[taskId.value].error.value != "")
    ensures resp.status == 200 ==> (taskId.One? && taskId.value in tasks
      && resp.payload == TaskProgress(tasks[taskId.value].content, tasks[taskId.value].finished))
  {
    if !(taskId.One? && taskId.value != "") then Response(400, ErrorJson("缺少任务ID"))
    else if taskId.value !in tasks then Response(404, ErrorJson("任务不存在或已过期"))
    else
      var task := tasks[taskId.value];
      if task.error.Some? && task.error.value != "" then Response(500, ErrorJson(task.error.value))
      else Response(200, TaskProgress(task.content, task.finished))
  }

  /** The `analyze` route's answer. */
  function AnalyzeResponse(body: Option<Body>, reply: Reply): (resp: Response)
    ensures !HasScore(DataOf(body)) <==> resp.status == 400
    ensures resp.status == 200 <==> HasScore(DataOf(body)) && reply.ReplyReport?
    ensures resp.status == 200 ==> resp.payload == ReportJson(reply.report)
  {
    if !HasScore(DataOf(body)) then Response(400, ErrorJson("缺少测评结果数据"))
    else match reply
      case ReplyThrew(message) => Response(500, ErrorJson(OrDefault(message, "服务器错误")))
      case ReplyNotOk => Response(500, ErrorJson("AI 服务请求失败"))
      case ReplyReport(report) => Response(200, ReportJson(report))
  }

  /** The events of one chunk: as `ChunkDeltas`, but `[DONE]` is passed on. */
  function ChunkEvents(lines: seq<string>, deltaOf: string -> string): seq<StreamEvent> {
    if lines == [] then []
    else match DataPayload(lines[0])
      case None => ChunkEvents(lines[1..], deltaOf)
      case Some(data) =>
        if data == DoneMarker then [DoneEvent]
        else (if deltaOf(data) != "" then [ContentEvent(deltaOf(data))] else []) + ChunkEvents(lines[1..], deltaOf)
  }

  function StreamEvents(chunks: seq<string>, deltaOf: string -> string): seq<StreamEvent> {
    if chunks == [] then []
    else StreamEvents(chunks[..|chunks| - 1], deltaOf) + ChunkEvents(SplitLines(chunks[|chunks| - 1]), deltaOf)
  }

  /** The texts carried by content events. */
  function Texts(events: seq<StreamEvent>): seq<string> {
    if events == [] then []
    else (if events[0].ContentEvent? then [events[0].text] else []) + Texts(events[1..])
  }

  lemma {:induction false} TextsAppend(a: seq<StreamEvent>, b: seq<StreamEvent>)
    ensures Texts(a + b) == Texts(a) + Texts(b)
  {
    if a != [] {
      assert (a + b)[1..] == a[1..] + b;
      TextsAppend(a[1..], b);
    } else {
      assert a + b == b;
    }
  }

  lemma {:induction false} ChunkEventsTexts(lines: seq<string>, deltaOf: string -> string)
    ensures Texts(ChunkEvents(lines, deltaOf)) == ChunkDeltas(lines, deltaOf)
  {
    if lines != [] {
      ChunkEventsTexts(lines[1..], deltaOf);
      match DataPayload(lines[0])
      case None =>
      case Some(data) =>
        if data != DoneMarker {
          var d := deltaOf(data);
          var head: seq<StreamEvent> := if d != "" then [ContentEvent(d)] else [];
          TextsAppend(head, ChunkEvents(lines[1..], deltaOf));
          if d != "" {
            assert Texts(head) == [d] by {
              assert head[1..] == [];
            }
          }
        }
    }
  }

  /** The streaming route sends, as content events, exactly the texts a polled
      task accumulates from the same upstream chunks. */
  lemma {:induction false} StreamEventsTexts(chunks: seq<string>, deltaOf: string -> string)
    ensures Texts(StreamEvents(chunks, deltaOf)) == StreamDeltas(chunks, deltaOf)
  {
    if chunks != [] {
      var init := chunks[..|chunks| - 1];
      var lines := SplitLines(chunks[|chunks| - 1]);
      StreamEventsTexts(init, deltaOf);
      TextsAppend(StreamEvents(init, deltaOf), ChunkEvents(lines, deltaOf));
      ChunkEventsTexts(lines, deltaOf);
    }
  }

  /** One line of a chunk, as the inner loops read it. */
  lemma ChunkDeltasStep(lines: seq<string>, j: nat, deltaOf: string -> string)
    requires j < |lines|
    ensures var p := DataPayload(lines[j]);
      ChunkDeltas(lines[j..], deltaOf) ==
        if p == Some(DoneMarker) then []
        else if p.Some? && deltaOf(p.value) != "" then [deltaOf(p.value)] + ChunkDeltas(lines[j + 1..], deltaOf)
        else ChunkDeltas(lines[j + 1..], deltaOf)
  {
    assert lines[j..][0] == lines[j] && lines[j..][1..] == lines[j + 1..];
    var rest := ChunkDeltas(lines[j + 1..], deltaOf);
    assert [] + rest == rest;
  }

  /** The bookkeeping of the generation's inner loop across one line: `got`, the
      texts appended so far, followed by those of the lines left, is the chunk's. */
  lemma LineStep(lines: seq<string>, j: nat, got: seq<string>, deltaOf: string -> string)
    requires j < |lines|
    requires got + ChunkDeltas(lines[j..], deltaOf) == ChunkDeltas(lines, deltaOf)
    ensures var p := DataPayload(lines[j]);
      if p == Some(DoneMarker) then got == ChunkDeltas(lines, deltaOf)
      else if p.Some? && deltaOf(p.value) != "" then
        (got + [deltaOf(p.value)]) + ChunkDeltas(lines[j + 1..], deltaOf) == ChunkDeltas(lines, deltaOf)
      else got + ChunkDeltas(lines[j + 1..], deltaOf) == ChunkDeltas(lines, deltaOf)
  {
    ChunkDeltasStep(lines, j, deltaOf);
    var p := DataPayload(lines[j]);
    var rest := ChunkDeltas(lines[j + 1..], deltaOf);
    if p == Some(DoneMarker) {
      assert got + [] == got;
    } else if p.Some? && deltaOf(p.value) != "" {
      assert (got + [deltaOf(p.value)]) + rest == got + ([deltaOf(p.value)] + rest);
    }
  }

  /** Appending one more text to the running total and to the writes. */
  lemma ProgressStep(ds: seq<string>, got: seq<string>, content: string)
    ensures Concat(ds + (got + [content])) == Concat(ds + got) + content
    ensures Progress(ds + (got + [content])) == Progress(ds + got) + [Task(Concat(ds + got) + content, false, None)]
  {
    assert ds + (got + [content]) == (ds + got) + [content];
    ConcatSnoc(ds + got, content);
    ProgressSnoc(ds + got, content);
  }

  /** The streaming route's loop: forward each text, and `[DONE]`, as events. */
  method RelayStream(chunks: seq<string>, deltaOf: string -> string) returns (events: seq<StreamEvent>)
    ensures events == StreamEvents(chunks, deltaOf)
  {
    events := [];
    var i := 0;
    while i < |chunks|
      invariant i <= |chunks|
      invariant events == StreamEvents(chunks[..i], deltaOf)
    {
      var lines := SplitLines(chunks[i]);
      var sent := RelayChunk(lines, deltaOf);
      assert chunks[..i + 1][..i] == chunks[..i];
      events := events + sent;
      i := i + 1;
    }
    assert chunks[..i] == chunks;
  }

  /** The inner `for` of the streaming route over one chunk's lines. */
  method RelayChunk(lines: seq<string>, deltaOf: string -> string) returns (sent: seq<StreamEvent>)
    ensures sent == ChunkEvents(lines, deltaOf)
  {
    sent := [];
    var j := 0;
    while j < |lines|
      invariant j <= |lines|
      invariant sent + ChunkEvents(lines[j..], deltaOf) == ChunkEvents(lines, deltaOf)
    {
      assert lines[j..][1..] == lines[j + 1..];
      var payload := DataPayload(lines[j]);
      if payload.Some? {
        if payload.value == DoneMarker {
          sent := sent + [DoneEvent];
          break;
        }
        var content := deltaOf(payload.value);
        if content != "" {
          sent := sent + [ContentEvent(content)];
        }
      }
      j := j + 1;
    }
  }

  /** The server process: its API key and the module-level `taskCache`. */
  class AiServer {
    const apiKey: string
    var tasks: map<string, Task>
    /** Tasks whose five-minute deletion timer is running, oldest first. */
    var pendingExpiries: seq<string>

    /** A failed entry is finished, empty and carries a non-empty message. */
    ghost predicate Valid()
      reads this
    {
      CacheValid(tasks)
    }

    /** A process starts with an empty cache. */
    constructor(key: string)
      ensures Valid()
      ensures apiKey == key && tasks == map[] && pendingExpiries == []
    {
      apiKey := key;
      tasks := map[];
      pendingExpiries := [];
    }

    /** `handler(req, res)`. A successful `init` only stores the fresh task; the
        generation it starts runs later as `GenerateAIContent`. `freshId` is the
        id `generateTaskId` makes; the upstream outcomes are those of the calls
        the routes make. */
    method Handle(req: Request, freshId: string, reply: Reply, upstream: Upstream, deltaOf: string -> string)
      returns (resp: Response)
      requires Valid()
      modifies this
      ensures Valid()
      ensures pendingExpiries == old(pendingExpiries)
      ensures req.httpMethod == "OPTIONS" ==> resp == Response(200, NoContent)
      ensures req.httpMethod != "OPTIONS" && apiKey == "" ==> resp == Response(500, ErrorJson("AI 服务未配置"))
      ensures tasks == if IsInit(req) && apiKey != "" && HasScore(DataOf(req.body))
        then old(tasks)[freshId := FreshTask] else old(tasks)
      ensures req.httpMethod != "OPTIONS" && apiKey != "" ==>
        if IsInit(req) then
          resp == if HasScore(DataOf(req.body)) then Response(200, TaskCreated(freshId))
                  else Response(400, ErrorJson("缺少测评结果数据"))
        else if req.action == One("poll") && req.httpMethod == "GET" then
          resp == PollResponse(old(tasks), req.taskId)
        else if req.action == One("analyze") && req.httpMethod == "POST" then
          resp == AnalyzeResponse(req.body, reply)
        else if req.httpMethod == "POST" then
          resp == StreamResponse(req.body, upstream, deltaOf)
        else
          resp == Response(400, ErrorJson("无效的请求"))
    {
      if req.httpMethod == "OPTIONS" {
        return Response(200, NoContent);
      }
      if apiKey == "" {
        return Response(500, ErrorJson("AI 服务未配置"));
      }
      if req.action == One("init") && req.httpMethod == "POST" {
        if !HasScore(DataOf(req.body)) {
          return Response(400, ErrorJson("缺少测评结果数据"));
        }
        tasks := tasks[freshId := FreshTask];
        return Response(200, TaskCreated(freshId));
      }
      if req.action == One("poll") && req.httpMethod == "GET" {
        return PollResponse(tasks, req.taskId);
      }
      if req.action == One("analyze") && req.httpMethod == "POST" {
        return AnalyzeResponse(req.body, reply);
      }
      if req.httpMethod == "POST" {
        if req.body.None? {
          return Response(500, ErrorJson(DestructureError));
        }
        if !HasScore(req.body.value.result) {
          return Response(400, ErrorJson("缺少测评结果数据"));
        }
        match upstream
        case Threw(message) =>
          return Response(500, ErrorJson(OrDefault(message, "服务器错误")));
        case NotOk =>
          return Response(500, ErrorJson("AI 服务请求失败"));
        case NoBody =>
          return Response(500, ErrorJson("无法读取 AI 响应"));
        case Stream(chunks, failure) =>
          var events := RelayStream(chunks, deltaOf);
          if failure.Some? && events == [] {
            // Nothing was written, so the headers are unsent and the `catch` still answers.
            return Response(500, ErrorJson(OrDefault(failure.value, "服务器错误")));
          }
          return Response(200, EventStream(events, failure.None?));
      }
      return Response(400, ErrorJson("无效的请求"));
    }

    /** `generateAIContent(taskId, prompt)`: every cache write it makes, in order,
        is returned as `writes`; the cache ends holding the last one, and the
        deletion timer starts only after a stream read to its end. */
    method GenerateAIContent(taskId: string, upstream: Upstream, deltaOf: string -> string)
      returns (writes: seq<Task>)
      requires Valid()
      modifies this
      ensures Valid()
      ensures writes == GenerationWrites(upstream, deltaOf)
      ensures tasks == old(tasks)[taskId := writes[|writes| - 1]]
      ensures pendingExpiries == old(pendingExpiries) +
        if upstream.Stream? && upstream.failure.None? then [taskId] else []
    {
      match upstream {
        case Threw(message) =>
          writes := [Failed(OrDefault(message, "生成失败"))];
          Set(taskId, writes[0]);
        case NotOk =>
          writes := [Failed("AI 服务请求失败")];
          Set(taskId, writes[0]);
        case NoBody =>
          writes := [Failed("无法读取 AI 响应")];
          Set(taskId, writes[0]);
        case Stream(chunks, failure) =>
          var fullContent;
          fullContent, writes := ReadStream(taskId, chunks, deltaOf);
          ghost var last := if failure.None? then Task(fullContent, true, None) else Failed(OrDefault(failure.value, "生成失败"));
          WrittenThenSet(old(tasks), taskId, writes, last);
          match failure {
            case None =>
              writes := writes + [Task(fullContent, true, None)];
              Set(taskId, Task(fullContent, true, None));
              pendingExpiries := pendingExpiries + [taskId];
            case Some(message) =>
              writes := writes + [Failed(OrDefault(message, "生成失败"))];
              Set(taskId, Failed(OrDefault(message, "生成失败")));
          }
      }
    }

    /** The outer `for await` of `generateAIContent`: every chunk's texts, each
        followed by an unfinished cache entry holding the running total. */
    method ReadStream(taskId: string, chunks: seq<string>, deltaOf: string -> string)
      returns (fullContent: string, writes: seq<Task>)
      requires Valid()
      modifies this
      ensures Valid() && pendingExpiries == old(pendingExpiries)
      ensures fullContent == Concat(StreamDeltas(chunks, deltaOf))
      ensures writes == Progress(StreamDeltas(chunks, deltaOf))
      ensures tasks == Written(old(tasks), taskId, writes)
    {
      fullContent := "";
      writes := [];
      ghost var ds: seq<string> := [];
      var i := 0;
      while i < |chunks|
        invariant i <= |chunks|
        invariant ds == StreamDeltas(chunks[..i], deltaOf)
        invariant fullContent == Concat(ds) && writes == Progress(ds)
        invariant tasks == Written(old(tasks), taskId, writes)
        invariant Valid() && pendingExpiries == old(pendingExpiries)
      {
        var lines := SplitLines(chunks[i]);
        ghost var got;
        fullContent, writes, got := ReadChunk(taskId, lines, deltaOf, fullContent, writes, ds, old(tasks));
        assert chunks[..i + 1][..i] == chunks[..i];
        ds := ds + got;
        i := i + 1;
      }
      assert chunks[..i] == chunks;
    }

    /** The inner `for` of `generateAIContent` over one chunk's lines: each text
        is appended to `fullContent` and the cache entry rewritten as unfinished. */
    method ReadChunk(taskId: string, lines: seq<string>, deltaOf: string -> string,
                     fullIn: string, writesIn: seq<Task>, ghost ds: seq<string>, ghost before: map<string, Task>)
      returns (fullContent: string, writes: seq<Task>, ghost got: seq<string>)
      requires Valid()
      requires fullIn == Concat(ds) && writesIn == Progress(ds)
      requires tasks == Written(before, taskId, writesIn)
      modifies this
      ensures Valid() && pendingExpiries == old(pendingExpiries)
      ensures got == ChunkDeltas(lines, deltaOf)
      ensures fullContent == Concat(ds + got) && writes == Progress(ds + got)
      ensures tasks == Written(before, taskId, writes)
    {
      fullContent, writes, got := fullIn, writesIn, [];
      assert ds + got == ds;
      var j := 0;
      while j < |lines|
        invariant j <= |lines|
        invariant got + ChunkDeltas(lines[j..], deltaOf) == ChunkDeltas(lines, deltaOf)
        invariant fullContent == Concat(ds + got) && writes == Progress(ds + got)
        invariant tasks == Written(before, taskId, writes)
        invariant Valid() && pendingExpiries == old(pendingExpiries)
      {
        LineStep(lines, j, got, deltaOf);
        var payload := DataPayload(lines[j]);
        if payload.Some? {
          if payload.value == DoneMarker {
            break;
          }
          var content := deltaOf(payload.value);
          if content != "" {
            fullContent, writes := AppendText(taskId, content, fullContent, writes, ds, got, before);
            got := got + [content];
          }
        }
        j := j + 1;
      }
      if j == |lines| {
        assert lines[j..] == [];
      }
    }

    /** One text of the inner loop: `fullContent += content` and the cache entry
        rewritten, unfinished, with the new running total. */
    method AppendText(taskId: string, content: string, fullIn: string, writesIn: seq<Task>,
                      ghost ds: seq<string>, ghost got: seq<string>, ghost before: map<string, Task>)
      returns (fullContent: string, writes: seq<Task>)
      requires Valid()
      requires fullIn == Concat(ds + got) && writesIn == Progress(ds + got)
      requires tasks == Written(before, taskId, writesIn)
      modifies this
      ensures Valid() && pendingExpiries == old(pendingExpiries)
      ensures fullContent == Concat(ds + (got + [content])) && writes == Progress(ds + (got + [content]))
      ensures tasks == Written(before, taskId, writes)
    {
      ProgressStep(ds, got, content);
      WrittenThenSet(before, taskId, writesIn, Task(fullIn + content, false, None));
      fullContent := fullIn + content;
      writes := writesIn + [Task(fullContent, false, None)];
      Set(taskId, Task(fullContent, false, None));
    }

    /** `taskCache.set(id, t)`. */
    method Set(id: string, t: Task)
      requires Valid() && EntryValid(t)
      modifies this
      ensures Valid()
      ensures tasks == old(tasks)[id := t] && pendingExpiries == old(pendingExpiries)
    {
      CacheValidSet(tasks, id, t);
      tasks := tasks[id := t];
    }

    /** The oldest five-minute timer fires: `taskCache.delete(taskId)`. */
    method Expire()
      requires Valid() && pendingExpiries != []
      modifies this
      ensures Valid()
      ensures tasks == old(tasks) - {old(pendingExpiries[0])}
      ensures pendingExpiries == old(pendingExpiries[1..])
    {
      tasks := tasks - {pendingExpiries[0]};
      pendingExpiries := pendingExpiries[1..];
    }
  }

  /** A failed entry is finished, empty and carries a non-empty message. */
  predicate EntryValid(t: Task) {
    t.error.Some? ==> t.finished && t.content == "" && t.error.value != ""
  }

  predicate CacheValid(tasks: map<string, Task>) {
    forall id :: id in tasks ==> EntryValid(tasks[id])
  }

  /** Storing a well-formed entry keeps the cache well-formed. */
  lemma CacheValidSet(tasks: map<string, Task>, id: string, t: Task)
    requires CacheValid(tasks) && EntryValid(t)
    ensures CacheValid(tasks[id := t])
  {
  }

  /** The cache after the writes `writes` to entry `id`. */
  function Written(before: map<string, Task>, id: string, writes: seq<Task>): (after: map<string, Task>)
    ensures writes != [] ==> id in after && after[id] == writes[|writes| - 1]
  {
    if writes == [] then before else before[id := writes[|writes| - 1]]
  }

  /** A final write after any number of earlier ones leaves only itself. */
  lemma WrittenThenSet(before: map<string, Task>, id: string, writes: seq<Task>, t: Task)
    ensures Written(before, id, writes)[id := t] == Written(before, id, writes + [t])
    ensures Written(before, id, writes + [t]) == before[id := t]
  {
  }

  /** The route `init` takes. */
  predicate IsInit(req: Request) {
    req.action == One("init") && req.httpMethod == "POST"
  }

  /** The streaming route's answer once past the missing-key check. Setting the
      event-stream headers sends nothing; the first `res.write` does. So a reader
      that fails before any event was written still gets the `catch`'s 500. */
  function StreamResponse(body: Option<Body>, upstream: Upstream, deltaOf: string -> string): (resp: Response)
    ensures resp.status == 400 <==> body.Some? && !HasScore(body.value.result)
    ensures resp.status == 200 <==>
      (body.Some? && HasScore(body.value.result) && upstream.Stream? &&
       (upstream.failure.None? || StreamEvents(upstream.chunks, deltaOf) != []))
    ensures resp.status == 200 ==> resp.payload.EventStream? && Texts(resp.payload.events) == StreamDeltas(upstream.chunks, deltaOf)
    ensures resp.status == 200 ==> (resp.payload.ended <==> upstream.failure.None?)
  {
    if body.None? then Response(500, ErrorJson(DestructureError))
    else if !HasScore(body.value.result) then Response(400, ErrorJson("缺少测评结果数据"))
    else match upstream
      case Threw(message) => Response(500, ErrorJson(OrDefault(message, "服务器错误")))
      case NotOk => Response(500, ErrorJson("AI 服务请求失败"))
      case NoBody => Response(500, ErrorJson("无法读取 AI 响应"))
      case Stream(chunks, failure) =>
        if failure.Some? && StreamEvents(chunks, deltaOf) == [] then
          Response(500, ErrorJson(OrDefault(failure.value, "服务器错误")))
        else
          StreamEventsTexts(chunks, deltaOf);
          Response(200, EventStream(StreamEvents(chunks, deltaOf), failure.None?))
  }

  /** A reader that throws on its first read is answered with 500 and the error's
      message, not with an empty event stream. */
  lemma EarlyFailureIs500(body: Body, message: string, deltaOf: string -> string)
    requires HasScore(body.result) && message != ""
    ensures StreamResponse(Some(body), Stream([], Some(message)), deltaOf) == Response(500, ErrorJson(message))
  {
  }

  /** A quiz result is accepted by `init` exactly when its total is not 0, so the
      all-"D" sheet, whose total is 0, is turned away. */
  lemma ZeroScoreRejected(answers: seq<string>)
    requires |answers| == |Questions| && forall j :: 0 <= j < |answers| ==> answers[j] == "D"
    ensures !HasScore(Some(Assessment(Some(Score(answers).totalScore))))
  {
    AllLowestAnswers(answers);
  }

  /** After the deletion timer of a finished task fires, polling it answers 404. */
  method PollAfterExpiry(key: string, id: string, body: Body, chunks: seq<string>, deltaOf: string -> string)
    returns (first: Response, last: Response)
    requires key != "" && id != "" && HasScore(Some(body.data))
    ensures first == Response(200, TaskCreated(id))
    ensures last == Response(404, ErrorJson("任务不存在或已过期"))
  {
    var server := new AiServer(key);
    var init := Request("POST", One("init"), Absent, Some(body));
    first := server.Handle(init, id, ReplyNotOk, NotOk, deltaOf);
    var writes := server.GenerateAIContent(id, Stream(chunks, None), deltaOf);
    assert server.pendingExpiries == [id];
    server.Expire();
    var poll := Request("GET", One("poll"), One(id), None);
    last := server.Handle(poll, id, ReplyNotOk, NotOk, deltaOf);
  }
}
