/** One streamed interaction of the agent server: `_run_sdk_streaming` and its `on_event` in
    `server.py`, with the try block that the `finally` at line 396 belongs to opening after the
    session is registered.

    A `StreamRun` is the coroutine's local state, and `Next` says what one event does to it. The two
    results are that its posts are numbered 0, 1, 2, ... without gap or repeat, and that its thinking
    posts are the cuts of texts that hold all of the reasoning received, up to white space. */
module ChunkStream {
  import opened Wrappers

  // ---- Text ----

  /** Python's white space. */
  predicate IsSpace(c: char) {
    || '\U{9}' <= c <= '\U{D}' || '\U{1C}' <= c <= '\U{20}' || c in {'\U{85}', '\U{A0}', '\U{1680}'}
    || '\U{2000}' <= c <= '\U{200A}'
    || c in {'\U{2028}', '\U{2029}', '\U{202F}', '\U{205F}', '\U{3000}'}
  }

  /** Of the ASCII characters that can be printed, only the plain space is white space. */
  lemma {:induction false} PrintedCharactersAreInk(c: char)
    ensures c in {' ', '\t', '\n', '\r'} ==> IsSpace(c)
    ensures '!' <= c <= '~' ==> !IsSpace(c)
  {
  }

  predicate IsStop(c: char) { c in {'.', '!', '?', '\n'} }

  predicate HasStop(s: string) { exists i :: 0 <= i < |s| && IsStop(s[i]) }

  function TrimLeft(s: string): string {
    if s != "" && IsSpace(s[0]) then TrimLeft(s[1..]) else s
  }

  function TrimRight(s: string): string {
    if s != "" && IsSpace(s[|s| - 1]) then TrimRight(s[..|s| - 1]) else s
  }

  function Strip(s: string): string { TrimRight(TrimLeft(s)) }

  /** Position of the first sentence terminator. */
  function FirstStop(s: string): (i: nat)
    requires HasStop(s)
    ensures i < |s| && IsStop(s[i]) && forall k :: 0 <= k < i ==> !IsStop(s[k])
  {
    if IsStop(s[0]) then 0 else
      assert s[1..] != "" && HasStop(s[1..]) by {
        var i :| 0 <= i < |s| && IsStop(s[i]);
        assert s[1..][i - 1] == s[i];
      }
      1 + FirstStop(s[1..])
  }

  function Cut(s: string, n: nat): string { if |s| <= n then s else s[..n] }

  /** The characters that are not white space, in order. */
  function Ink(s: string): string {
    if s == "" then "" else (if IsSpace(s[0]) then "" else [s[0]]) + Ink(s[1..])
  }

  function Concat(texts: seq<string>): string {
    if texts == [] then "" else Concat(texts[..|texts| - 1]) + texts[|texts| - 1]
  }

  lemma {:induction false} InkOfConcat(a: string, b: string)
    ensures Ink(a + b) == Ink(a) + Ink(b)
  {
    if a == "" {
      assert a + b == b;
    } else {
      assert (a + b)[1..] == a[1..] + b;
      InkOfConcat(a[1..], b);
    }
  }

  lemma {:induction false} TrimLeftKeepsInk(s: string)
    ensures Ink(TrimLeft(s)) == Ink(s)
  {
    if s != "" && IsSpace(s[0]) { TrimLeftKeepsInk(s[1..]); }
  }

  lemma {:induction false} TrimRightKeepsInk(s: string)
    ensures Ink(TrimRight(s)) == Ink(s)
  {
    if s != "" && IsSpace(s[|s| - 1]) {
      TrimRightKeepsInk(s[..|s| - 1]);
      InkOfConcat(s[..|s| - 1], s[|s| - 1..]);
      assert s == s[..|s| - 1] + s[|s| - 1..];
    }
  }

  lemma {:induction false} StripKeepsInk(s: string)
    ensures Ink(Strip(s)) == Ink(s)
  {
    TrimLeftKeepsInk(s);
    TrimRightKeepsInk(TrimLeft(s));
  }

  lemma {:induction false} TrimLeftTrims(s: string)
    ensures |TrimLeft(s)| <= |s| && TrimLeft(s) == s[|s| - |TrimLeft(s)|..]
    ensures TrimLeft(s) != "" ==> !IsSpace(TrimLeft(s)[0])
  {
    if s != "" && IsSpace(s[0]) { TrimLeftTrims(s[1..]); }
  }

  lemma {:induction false} TrimRightTrims(s: string)
    ensures TrimRight(s) <= s
    ensures TrimRight(s) != "" ==> !IsSpace(TrimRight(s)[|TrimRight(s)| - 1])
  {
    if s != "" && IsSpace(s[|s| - 1]) { TrimRightTrims(s[..|s| - 1]); }
  }

  /** What is left of a text has no white space at its ends, and with `StripKeepsInk` nothing else is lost. */
  lemma {:induction false} StripIsTrimmed(s: string)
    ensures Strip(s) != "" ==> !IsSpace(Strip(s)[0]) && !IsSpace(Strip(s)[|Strip(s)| - 1])
  {
    TrimLeftTrims(s);
    TrimRightTrims(TrimLeft(s));
  }

  // ---- The sentence buffer ----

  /** A text without white space at its ends, of which nothing but the last character may end a
      sentence. */
  predicate OneSentence(s: string) {
    && s != "" && !IsSpace(s[0]) && !IsSpace(s[|s| - 1])
    && forall k :: 0 <= k < |s| - 1 ==> s[k] !in {'.', '!', '?', '\n'}
  }

  /** What one split at the first sentence end takes off the buffer, and what it leaves. */
  function FlushedText(buffer: string): string
    requires HasStop(buffer)
  {
    Strip(buffer[..FirstStop(buffer) + 1])
  }

  function KeptText(buffer: string): string
    requires HasStop(buffer)
  {
    Strip(TrimLeft(buffer[FirstStop(buffer) + 1..]))
  }

  lemma {:induction false} SplitKeepsInk(buffer: string)
    requires HasStop(buffer)
    ensures Ink(FlushedText(buffer)) + Ink(KeptText(buffer)) == Ink(buffer)
  {
    var cut := FirstStop(buffer) + 1;
    StripKeepsInk(buffer[..cut]);
    TrimLeftKeepsInk(buffer[cut..]);
    StripKeepsInk(TrimLeft(buffer[cut..]));
    InkOfConcat(buffer[..cut], buffer[cut..]);
    assert buffer == buffer[..cut] + buffer[cut..];
  }

  /** `stop` is where the first sentence ends. */
  predicate EndsSentence(s: string, stop: int) {
    && 0 <= stop < |s| && s[stop] in {'.', '!', '?', '\n'}
    && forall k :: 0 <= k < stop ==> s[k] !in {'.', '!', '?', '\n'}
  }

  /** One split takes off the buffer what stands up to the first sentence end, and leaves the rest. */
  lemma {:induction false} SplitIsAtFirstEnd(buffer: string, stop: int)
    requires EndsSentence(buffer, stop)
    ensures HasStop(buffer) && Ink(FlushedText(buffer)) == Ink(buffer[..stop + 1])
    ensures Ink(KeptText(buffer)) == Ink(buffer[stop + 1..])
  {
    assert IsStop(buffer[stop]);
    assert FirstStop(buffer) == stop;
    StripKeepsInk(buffer[..stop + 1]);
    TrimLeftKeepsInk(buffer[stop + 1..]);
    StripKeepsInk(TrimLeft(buffer[stop + 1..]));
  }

  lemma {:induction false} FlushedIsOneSentence(buffer: string)
    requires HasStop(buffer) && FlushedText(buffer) != ""
    ensures OneSentence(FlushedText(buffer))
  {
    StripIsTrimmed(buffer[..FirstStop(buffer) + 1]);
    forall k | 0 <= k < |FlushedText(buffer)| - 1 ensures !IsStop(FlushedText(buffer)[k]) {
      NoStopInside(buffer, k);
    }
  }

  lemma {:induction false} NoStopInside(buffer: string, k: nat)
    requires HasStop(buffer) && k < |FlushedText(buffer)| - 1
    ensures !IsStop(FlushedText(buffer)[k])
  {
    var head := buffer[..FirstStop(buffer) + 1];
    TrimLeftTrims(head);
    TrimRightTrims(TrimLeft(head));
    var skipped := |head| - |TrimLeft(head)|;
    assert FlushedText(buffer)[k] == TrimLeft(head)[k] == head[skipped + k] == buffer[skipped + k];
  }

  /** All thinking flushed so far, followed by the buffer, is all reasoning so far, up to white space. */
  ghost predicate Conserved(flushed: seq<string>, buffer: string, reasoning: string) {
    Ink(Concat(flushed)) + Ink(buffer) == Ink(reasoning)
  }

  ghost predicate AllSentences(flushed: seq<string>) { forall t :: t in flushed ==> OneSentence(t) }

  lemma {:induction false} ConcatOneMore(texts: seq<string>, last: string)
    ensures Ink(Concat(texts + [last])) == Ink(Concat(texts)) + Ink(last)
  {
    assert (texts + [last])[..|texts|] == texts;
    InkOfConcat(Concat(texts), last);
  }

  lemma {:induction false} GatheringConserves(flushed: seq<string>, buffer: string, reasoning: string, text: string)
    requires Conserved(flushed, buffer, reasoning)
    ensures Conserved(flushed, buffer + text, reasoning + text)
  {
    InkOfConcat(buffer, text);
    InkOfConcat(reasoning, text);
  }

  lemma {:induction false} MovingConserves(
      flushed: seq<string>, buffer: string, reasoning: string, text: string, kept: string)
    requires Conserved(flushed, buffer, reasoning) && Ink(text) + Ink(kept) == Ink(buffer)
    ensures Conserved(flushed + [text], kept, reasoning)
  {
    ConcatOneMore(flushed, text);
    Regroup(Ink(Concat(flushed)), Ink(text), Ink(kept));
  }

  lemma {:induction false} Regroup(a: string, b: string, c: string)
    ensures a + b + c == a + (b + c)
  {
  }

  lemma {:induction false} FlushingConserves(flushed: seq<string>, buffer: string, reasoning: string)
    requires Conserved(flushed, buffer, reasoning) && HasStop(buffer)
    ensures var text := FlushedText(buffer);
            if text == "" then Conserved(flushed, KeptText(buffer), reasoning)
            else Conserved(flushed + [text], KeptText(buffer), reasoning) && OneSentence(text)
  {
    SplitKeepsInk(buffer);
    if FlushedText(buffer) != "" {
      MovingConserves(flushed, buffer, reasoning, FlushedText(buffer), KeptText(buffer));
      FlushedIsOneSentence(buffer);
    }
  }

  // ---- Events and chunks ----

  datatype Kind = Info | Thinking | Response | ToolCall | ToolResult | ErrorChunk

  datatype SubagentState = Started | Completed | Failed(error: string)

  /** What a chunk says, cut as the source cuts it; the fixed wording around it is left to the name
      of the constructor. */
  datatype Content =
    | Processing(message: string)
    | Thought(text: string)
    | Preview(text: string, more: bool)
    | Invoking(tools: string)
    | ToolStarted(tool: string, description: string)
    | ToolFinished(tool: string, output: string, success: bool)
    | SkillLoaded(skill: string)
    | SubagentNote(agent: string, state: SubagentState)
    | CancelNotice
  {
    function Kind(): Kind {
      match this
      case Processing(_) => Info
      case Thought(_) => Thinking
      case Preview(_, _) => Response
      case Invoking(_) => ToolCall
      case ToolStarted(_, _) => ToolCall
      case ToolFinished(_, _, _) => ToolResult
      case SkillLoaded(_) => Info
      case SubagentNote(_, _) => Info
      case CancelNotice => ErrorChunk
    }
  }

  /** One post, with the session id that was known when it was made. */
  datatype Chunk = Chunk(sequence: nat, session: string, kind: Kind, content: Content)

  /** An SDK event with what the handler reads from it; absent text is "". */
  datatype Event =
    | SessionCreated(id: string)
    | MessageDelta(text: string)
    | ReasoningDelta(text: string)
    | Message(content: string, toolRequests: seq<string>)
    | ToolStart(tool: string, description: string, command: string, arguments: string)
    | ToolComplete(tool: string, output: string, detail: string, success: bool)
    | SkillInvoked(skill: string)
    | Subagent(agent: string, state: SubagentState)
    | SessionIdle
    | SessionDeleted
    | OtherEvent

  predicate Skipped(tool: string) { tool == "report_intent" || tool == "skill" }

  /** The requested tools worth showing, in order. */
  function WorthShowing(tools: seq<string>): (names: seq<string>)
    ensures forall t :: t in names <==> t in tools && t != "report_intent" && t != "skill"
  {
    if tools == [] then [] else (if Skipped(tools[0]) then [] else [tools[0]]) + WorthShowing(tools[1..])
  }

  function Listed(names: seq<string>): string {
    if names == [] then "" else if |names| == 1 then names[0] else names[0] + ", " + Listed(names[1..])
  }

  function ToolNames(tools: seq<string>): string { Listed(WorthShowing(tools)) }

  /** What an event makes the handler post, if anything; `buffer` is the thinking text so far. */
  function Says(e: Event, buffer: string): Option<Content> {
    match e
    case ReasoningDelta(text) =>
      var full := buffer + text;
      if text != "" && HasStop(full) && FlushedText(full) != "" then Some(Thought(Cut(FlushedText(full), 300)))
      else None
    case Message(content, tools) =>
      if content != "" && tools == [] then Some(Preview(Cut(content, 200), |content| > 200))
      else if tools != [] && ToolNames(tools) != "" then Some(Invoking(ToolNames(tools)))
      else None
    case ToolStart(tool, description, command, arguments) =>
      if Skipped(tool) then None
      else Some(ToolStarted(tool, Cut(Or(description, Or(command, Cut(arguments, 120))), 200)))
    case ToolComplete(tool, output, detail, success) =>
      if Skipped(tool) || Strip(Or(output, detail)) == "" then None
      else Some(ToolFinished(tool, Cut(Or(output, detail), 400), success))
    case SkillInvoked(skill) => Some(SkillLoaded(skill))
    case Subagent(agent, state) => Some(SubagentNote(agent, state))
    case _ => None
  }

  /** The posts of one event, numbered from `n`. */
  function PostsOf(chunksOn: bool, e: Event, buffer: string, n: nat, session: string): seq<Chunk> {
    var says := Says(e, buffer);
    if chunksOn && says.Some? then [Chunk(n, session, says.value.Kind(), says.value)] else []
  }

  function DeltaOf(e: Event): string { if e.ReasoningDelta? then e.text else "" }

  predicate Gathers(e: Event) { e.ReasoningDelta? && e.text != "" }

  /** The text, if any, that one event takes off the buffer. */
  function FlushOf(chunksOn: bool, e: Event, buffer: string): seq<string> {
    if Gathers(e) && chunksOn && HasStop(buffer + e.text) && FlushedText(buffer + e.text) != ""
    then [FlushedText(buffer + e.text)]
    else []
  }

  function BufferAfter(chunksOn: bool, e: Event, buffer: string): string {
    if !Gathers(e) then buffer
    else if chunksOn && HasStop(buffer + e.text) then KeptText(buffer + e.text)
    else buffer + e.text
  }

  /** What the handler keeps besides the buffer and the posts. */
  datatype StreamNotes = StreamNotes(response: string, session: string, done: bool, cancelled: bool)

  function After(notes: StreamNotes, e: Event): StreamNotes {
    match e
    case SessionCreated(id) => notes.(session := Or(id, notes.session))
    case MessageDelta(text) => notes.(response := notes.response + text)
    case Message(content, tools) => if content != "" && tools == [] then notes.(response := content) else notes
    case SessionIdle => notes.(done := true)
    case SessionDeleted => notes.(done := true, cancelled := true)
    case _ => notes
  }

  // ---- The stream as a function of its events ----

  /** `flushed` lists the full texts of the sentences taken off the buffer. */
  datatype State = State(posts: seq<Chunk>, buffer: string, flushed: seq<string>, notes: StreamNotes)

  /** A request, the session id the runtime opened it with, and the events of the session. */
  datatype Interaction = Interaction(
    chunksOn: bool, message: string, sessionId: string, created: string, events: seq<Event>)

  function Next(chunksOn: bool, sessionId: string, s: State, e: Event): State {
    State(s.posts + PostsOf(chunksOn, e, s.buffer, |s.posts|, Or(s.notes.session, sessionId)),
          BufferAfter(chunksOn, e, s.buffer), s.flushed + FlushOf(chunksOn, e, s.buffer), After(s.notes, e))
  }

  function Opening(chunksOn: bool, message: string, sessionId: string, created: string): State {
    State(FirstPosts(chunksOn, message, sessionId), "", [], StreamNotes("", Or(created, sessionId), false, false))
  }

  function FirstPosts(chunksOn: bool, message: string, sessionId: string): seq<Chunk> {
    if chunksOn then [Chunk(0, sessionId, Info, Processing(Cut(message, 120)))] else []
  }

  function Streamed(x: Interaction, events: seq<Event>): State {
    if events == [] then Opening(x.chunksOn, x.message, x.sessionId, x.created)
    else Next(x.chunksOn, x.sessionId, Streamed(x, events[..|events| - 1]), events[|events| - 1])
  }

  /** The posts after the wait. */
  function Closing(chunksOn: bool, sessionId: string, s: State): seq<Chunk> {
    var session := Or(s.notes.session, sessionId);
    if !chunksOn then []
    else if s.notes.cancelled then [Chunk(|s.posts|, session, ErrorChunk, CancelNotice)]
    else if Strip(s.buffer) == "" then []
    else [Chunk(|s.posts|, session, Thinking, Thought(Cut(Strip(s.buffer), 300)))]
  }

  /** The texts flushed by the end of the run. */
  function AllFlushed(chunksOn: bool, s: State): seq<string> {
    if s.notes.cancelled || !chunksOn || Strip(s.buffer) == "" then s.flushed else s.flushed + [Strip(s.buffer)]
  }

  /** All posts of an interaction. */
  function Posts(x: Interaction): seq<Chunk> {
    var s := Streamed(x, x.events);
    s.posts + Closing(x.chunksOn, x.sessionId, s)
  }

  /** The full texts behind its thinking posts. */
  function Thoughts(x: Interaction): seq<string> { AllFlushed(x.chunksOn, Streamed(x, x.events)) }

  function Reasoning(events: seq<Event>): string {
    if events == [] then "" else Reasoning(events[..|events| - 1]) + DeltaOf(events[|events| - 1])
  }

  // ---- What the answer and the session id are, without the handler ----

  predicate IsAnswer(e: Event) { e.Message? && e.content != "" && e.toolRequests == [] }

  /** `k` is the position after the last complete message, or 0 if there is none. */
  predicate AnsweredBefore(events: seq<Event>, k: nat) {
    && k <= |events| && (k > 0 ==> IsAnswer(events[k - 1]))
    && forall i :: k <= i < |events| ==> !IsAnswer(events[i])
  }

  predicate NamesSession(e: Event) { e.SessionCreated? && e.id != "" }

  /** `k` is the position after the last announcement of a session id, or 0 if there is none. */
  predicate NamedBefore(events: seq<Event>, k: nat) {
    && k <= |events| && (k > 0 ==> NamesSession(events[k - 1]))
    && forall i :: k <= i < |events| ==> !NamesSession(events[i])
  }

  /** The texts of the message deltas, one after the other. */
  function Deltas(events: seq<Event>): string {
    if events == [] then ""
    else
      var last := events[|events| - 1];
      Deltas(events[..|events| - 1]) + if last.MessageDelta? then last.text else ""
  }

  /** The content of the last complete message, if any, and the deltas that came after it. */
  ghost predicate IsResponse(events: seq<Event>, text: string) { exists k :: IsResponseFrom(events, k, text) }

  predicate IsResponseFrom(events: seq<Event>, k: nat, text: string) {
    AnsweredBefore(events, k) && text == (if k > 0 then events[k - 1].content else "") + Deltas(events[k..])
  }

  /** The id that was announced last, or else the one the session was opened with, or else the one
      asked for. */
  ghost predicate IsSession(x: Interaction, events: seq<Event>, session: string) {
    exists k :: IsSessionFrom(x, events, k, session)
  }

  predicate IsSessionFrom(x: Interaction, events: seq<Event>, k: nat, session: string) {
    && NamedBefore(events, k)
    && session == if k > 0 then events[k - 1].id else if x.created != "" then x.created else x.sessionId
  }

  lemma {:induction false} DeltasOneMore(events: seq<Event>, k: nat, e: Event)
    requires k <= |events|
    ensures Deltas((events + [e])[k..]) == Deltas(events[k..]) + if e.MessageDelta? then e.text else ""
  {
    var rest := (events + [e])[k..];
    assert rest == events[k..] + [e] && rest[..|rest| - 1] == events[k..];
  }

  lemma {:induction false} ResponseOneMore(events: seq<Event>, notes: StreamNotes, e: Event)
    requires IsResponse(events, notes.response)
    ensures IsResponse(events + [e], After(notes, e).response)
  {
    var k :| IsResponseFrom(events, k, notes.response);
    if IsAnswer(e) {
      AnswerStartsAnew(events, notes, e);
    } else {
      DeltasAreAdded(events, k, notes, e);
    }
  }

  lemma {:induction false} AnswerStartsAnew(events: seq<Event>, notes: StreamNotes, e: Event)
    requires IsAnswer(e)
    ensures IsResponseFrom(events + [e], |events| + 1, After(notes, e).response)
  {
    assert (events + [e])[|events| + 1..] == [];
  }

  lemma {:induction false} StillAnsweredBefore(events: seq<Event>, k: nat, e: Event)
    requires AnsweredBefore(events, k) && !IsAnswer(e)
    ensures AnsweredBefore(events + [e], k)
  {
  }

  lemma {:induction false} DeltasAreAdded(events: seq<Event>, k: nat, notes: StreamNotes, e: Event)
    requires IsResponseFrom(events, k, notes.response) && !IsAnswer(e)
    ensures IsResponseFrom(events + [e], k, After(notes, e).response)
  {
    StillAnsweredBefore(events, k, e);
    DeltasOneMore(events, k, e);
    Regroup(if k > 0 then events[k - 1].content else "", Deltas(events[k..]), if e.MessageDelta? then e.text else "");
  }

  lemma {:induction false} SessionOneMore(x: Interaction, events: seq<Event>, notes: StreamNotes, e: Event)
    requires IsSession(x, events, notes.session)
    ensures IsSession(x, events + [e], After(notes, e).session)
  {
    var k :| IsSessionFrom(x, events, k, notes.session);
    if NamesSession(e) {
      assert IsSessionFrom(x, events + [e], |events| + 1, e.id);
    } else {
      assert IsSessionFrom(x, events + [e], k, notes.session);
    }
  }

  ghost predicate Gathered(x: Interaction, events: seq<Event>, notes: StreamNotes) {
    IsResponse(events, notes.response) && IsSession(x, events, notes.session)
  }

  lemma {:induction false} NothingGathered(x: Interaction)
    ensures Gathered(x, [], Streamed(x, []).notes)
  {
    assert IsResponseFrom([], 0, "") && IsSessionFrom(x, [], 0, Or(x.created, x.sessionId));
  }

  lemma {:induction false} NextGathers(x: Interaction, events: seq<Event>, notes: StreamNotes, e: Event)
    requires Gathered(x, events, notes)
    ensures Gathered(x, events + [e], After(notes, e))
  {
    ResponseOneMore(events, notes, e);
    SessionOneMore(x, events, notes, e);
  }

  lemma {:induction false} NotesOneMore(x: Interaction, events: seq<Event>, front: seq<Event>, last: Event)
    requires events != [] && front == events[..|events| - 1] && last == events[|events| - 1]
    ensures events == front + [last] && Streamed(x, events).notes == After(Streamed(x, front).notes, last)
  {
  }

  /** After any events the handler has gathered just that text and just that id. */
  lemma {:induction false} NotesAreGathered(x: Interaction, events: seq<Event>)
    ensures Gathered(x, events, Streamed(x, events).notes)
  {
    if events == [] {
      NothingGathered(x);
    } else {
      var front, last := events[..|events| - 1], events[|events| - 1];
      NotesAreGathered(x, front);
      NotesOneMore(x, events, front, last);
      NextGathers(x, front, Streamed(x, front).notes, last);
    }
  }

  // ---- What the posts tell ----

  /** The first `n` characters of a text, or all of it. */
  predicate IsStartOf(start: string, text: string, n: nat) {
    start <= text && |start| == if |text| < n then |text| else n
  }

  /** A post tells of an event. What exactly a thinking post says is the matter of `ThinkingIsConserved`. */
  predicate Tells(p: Chunk, e: Event) {
    match e
    case ReasoningDelta(_) => p.kind.Thinking? && p.content.Thought?
    case Message(content, tools) =>
      if tools == [] then
        && p.kind.Response? && p.content.Preview? && content != ""
        && IsStartOf(p.content.text, content, 200) && (p.content.more <==> |content| > 200)
      else p.kind.ToolCall? && p.content == Invoking(Listed(WorthShowing(tools)))
    case ToolStart(tool, description, command, arguments) =>
      && p.kind.ToolCall? && p.content.ToolStarted? && p.content.tool == tool
      && tool != "report_intent" && tool != "skill"
      && if description != "" then IsStartOf(p.content.description, description, 200)
         else if command != "" then IsStartOf(p.content.description, command, 200)
         else IsStartOf(p.content.description, arguments, 120)
    case ToolComplete(tool, output, detail, success) =>
      && p.kind.ToolResult? && p.content.ToolFinished? && p.content.tool == tool && p.content.success == success
      && tool != "report_intent" && tool != "skill"
      && IsStartOf(p.content.output, if output != "" then output else detail, 400)
    case SkillInvoked(skill) => p.kind.Info? && p.content == SkillLoaded(skill)
    case Subagent(agent, state) => p.kind.Info? && p.content == SubagentNote(agent, state)
    case _ => false
  }

  /** Events that may not go untold; of the reasoning, see `ThinkingIsConserved`. */
  ghost predicate Notable(e: Event) {
    match e
    case Message(content, tools) =>
      if tools == [] then content != "" else exists t :: t in tools && t !in ["report_intent", "skill", ""]
    case ToolStart(tool, _, _, _) => tool != "report_intent" && tool != "skill"
    case ToolComplete(tool, output, detail, _) =>
      && tool != "report_intent" && tool != "skill"
      && exists c :: c in (if output != "" then output else detail) && !IsSpace(c)
    case SkillInvoked(_) => true
    case Subagent(_, _) => true
    case _ => false
  }

  /** `told` are the posts made during the first `n` events: the k-th tells of the event at `from[k]`
      and carries the session id known by then. Events are told in their order, none of them twice,
      and no notable one is left out. */
  ghost predicate Tale(x: Interaction, n: nat, told: seq<Chunk>, from: seq<nat>) {
    && n <= |x.events| && |from| == |told|
    && (forall k :: 0 <= k < |from| ==>
          from[k] < n && Tells(told[k], x.events[from[k]])
          && IsSession(x, x.events[..from[k]], told[k].session))
    && (forall j, k :: 0 <= j < k < |from| ==> from[j] < from[k])
    && (forall i :: 0 <= i < n && Notable(x.events[i]) ==> i in from)
  }

  lemma {:induction false} StripIsEmptyIffBlank(s: string)
    ensures Strip(s) == "" <==> forall c :: c in s ==> IsSpace(c)
  {
    StripKeepsInk(s);
    InkIsEmptyIffBlank(s);
    InkIsEmptyIffBlank(Strip(s));
    StripIsTrimmed(s);
  }

  lemma {:induction false} InkIsEmptyIffBlank(s: string)
    ensures Ink(s) == "" <==> forall c :: c in s ==> IsSpace(c)
  {
    if s != "" { InkIsEmptyIffBlank(s[1..]); }
  }

  lemma {:induction false} ListedIsNotEmpty(names: seq<string>, name: string)
    requires name in names && name != ""
    ensures Listed(names) != ""
  {
  }

  /** The event is told by the one post, or there is no need to tell of it. */
  ghost predicate Told(e: Event, post: seq<Chunk>, session: string) {
    if post == [] then !Notable(e) else post == [post[0]] && Tells(post[0], e) && post[0].session == session
  }

  lemma {:induction false} PostTells(e: Event, buffer: string, n: nat, session: string)
    ensures Told(e, PostsOf(true, e, buffer, n, session), session)
  {
    match e
    case Message(_, tools) => MessageTells(e, buffer, n, session);
    case ToolStart(_, _, _, _) => ToolStartTells(e, buffer, n, session);
    case ToolComplete(_, output, detail, _) => StripIsEmptyIffBlank(Or(output, detail));
    case _ =>
  }

  lemma {:induction false} MessageTells(e: Event, buffer: string, n: nat, session: string)
    requires e.Message?
    ensures Told(e, PostsOf(true, e, buffer, n, session), session)
  {
    if t :| t in e.toolRequests && t !in ["report_intent", "skill", ""] {
      ListedIsNotEmpty(WorthShowing(e.toolRequests), t);
    }
  }

  lemma {:induction false} ToolStartTells(e: Event, buffer: string, n: nat, session: string)
    requires e.ToolStart?
    ensures Told(e, PostsOf(true, e, buffer, n, session), session)
  {
  }

  lemma {:induction false} SessionOfPosts(x: Interaction, events: seq<Event>)
    ensures IsSession(x, events, Or(Streamed(x, events).notes.session, x.sessionId))
  {
    NotesAreGathered(x, events);
  }

  lemma {:induction false} TaleOneMore(
      x: Interaction, n: nat, told: seq<Chunk>, from: seq<nat>, post: seq<Chunk>, session: string)
    requires Tale(x, n, told, from) && n < |x.events|
    requires Told(x.events[n], post, session) && IsSession(x, x.events[..n], session)
    ensures Tale(x, n + 1, told + post, if post == [] then from else from + [n])
  {
    if post == [] {
      assert told + post == told;
    } else {
      TaleGrows(x, n, told, from, post[0]);
    }
  }

  lemma {:induction false} TaleGrows(x: Interaction, n: nat, told: seq<Chunk>, from: seq<nat>, p: Chunk)
    requires Tale(x, n, told, from) && n < |x.events|
    requires Tells(p, x.events[n]) && IsSession(x, x.events[..n], p.session)
    ensures Tale(x, n + 1, told + [p], from + [n])
  {
    var more := from + [n];
    assert more[|from|] == n;
    forall i | 0 <= i < n + 1 && Notable(x.events[i]) ensures i in more {
      if i < n { assert i in from; }
    }
  }

  lemma {:induction false} ToldSoFar(x: Interaction, n: nat) returns (told: seq<Chunk>, from: seq<nat>)
    requires x.chunksOn && n <= |x.events|
    ensures Streamed(x, x.events[..n]).posts == FirstPosts(true, x.message, x.sessionId) + told
    ensures Tale(x, n, told, from)
  {
    told, from := [], [];
    for k := 0 to n
      invariant Streamed(x, x.events[..k]).posts == FirstPosts(true, x.message, x.sessionId) + told
      invariant Tale(x, k, told, from)
    {
      told, from := OneMoreTold(x, k, told, from);
    }
  }

  lemma {:induction false} OneMoreTold(x: Interaction, n: nat, told: seq<Chunk>, from: seq<nat>)
    returns (told': seq<Chunk>, from': seq<nat>)
    requires x.chunksOn && n < |x.events| && Tale(x, n, told, from)
    requires Streamed(x, x.events[..n]).posts == FirstPosts(true, x.message, x.sessionId) + told
    ensures Streamed(x, x.events[..n + 1]).posts == FirstPosts(true, x.message, x.sessionId) + told'
    ensures Tale(x, n + 1, told', from')
  {
    var s, e := Streamed(x, x.events[..n]), x.events[n];
    var session := Or(s.notes.session, x.sessionId);
    var post := PostsOf(true, e, s.buffer, |s.posts|, session);
    PostTells(e, s.buffer, |s.posts|, session);
    SessionOfPosts(x, x.events[..n]);
    TaleOneMore(x, n, told, from, post, session);
    told', from' := told + post, if post == [] then from else from + [n];
    StreamedAt(x, x.events, n);
    PostsGrow(x, s, e, FirstPosts(true, x.message, x.sessionId), told);
  }

  lemma {:induction false} PostsGrow(x: Interaction, s: State, e: Event, first: seq<Chunk>, told: seq<Chunk>)
    requires x.chunksOn && s.posts == first + told
    ensures Next(x.chunksOn, x.sessionId, s, e).posts
         == first + (told + PostsOf(true, e, s.buffer, |s.posts|, Or(s.notes.session, x.sessionId)))
  {
  }

  /** The posts are the opening one, the tale of the events and at most one more: the notice of a
      cancelled run, or a last thought. */
  ghost predicate TellsTheRun(x: Interaction, posts: seq<Chunk>, session: string) {
    exists told, from, last :: Tale(x, |x.events|, told, from) && EndsWith(x, posts, session, told, last)
  }

  ghost predicate EndsWith(x: Interaction, posts: seq<Chunk>, session: string, told: seq<Chunk>, last: seq<Chunk>) {
    && posts != [] && posts[1..] == told + last
    && posts[0].session == x.sessionId && posts[0].kind.Info? && posts[0].content.Processing?
    && IsStartOf(posts[0].content.message, x.message, 120)
    && (forall p :: p in last ==> p.session == session)
    && if SessionDeleted in x.events then |last| == 1 && last[0].kind.ErrorChunk? && last[0].content.CancelNotice?
       else |last| <= 1 && forall p :: p in last ==> p.kind.Thinking?
  }

  lemma {:induction false} PostsTellTheRun(x: Interaction)
    requires x.chunksOn
    ensures TellsTheRun(x, Posts(x), Or(Streamed(x, x.events).notes.session, x.sessionId))
  {
    var s := Streamed(x, x.events);
    var told, from := ToldSoFar(x, |x.events|);
    assert x.events[..|x.events|] == x.events;
    CancelledIffDeleted(x, x.events);
    RunEnds(x, s, told, Closing(true, x.sessionId, s));
  }

  lemma {:induction false} RunEnds(x: Interaction, s: State, told: seq<Chunk>, last: seq<Chunk>)
    requires s.posts == FirstPosts(true, x.message, x.sessionId) + told && last == Closing(true, x.sessionId, s)
    requires s.notes.cancelled <==> SessionDeleted in x.events
    ensures EndsWith(x, s.posts + last, Or(s.notes.session, x.sessionId), told, last)
  {
    assert (s.posts + last)[1..] == told + last;
  }

  // ---- What holds of it ----

  /** Sequence numbers 0, 1, 2, ... in posting order. */
  predicate Numbered(posts: seq<Chunk>) { forall k :: 0 <= k < |posts| ==> posts[k].sequence == k }

  /** In a numbered list each of 0..n-1 occurs, exactly once. */
  lemma {:induction false} NumberedOnce(posts: seq<Chunk>, n: nat)
    requires Numbered(posts)
    ensures (exists k :: 0 <= k < |posts| && posts[k].sequence == n) <==> n < |posts|
    ensures forall i, j :: 0 <= i < |posts| && 0 <= j < |posts| && posts[i].sequence == posts[j].sequence ==> i == j
  {
    if n < |posts| { assert posts[n].sequence == n; }
  }

  /** What the thinking posts say, in order. */
  function Shown(posts: seq<Chunk>): seq<Content> {
    if posts == [] then []
    else
      var last := posts[|posts| - 1];
      Shown(posts[..|posts| - 1]) + if last.kind.Thinking? then [last.content] else []
  }

  /** What thinking posts say of these texts: each cut to 300 characters. */
  function Cuts(texts: seq<string>): seq<Content> {
    if texts == [] then [] else Cuts(texts[..|texts| - 1]) + [Thought(Cut(texts[|texts| - 1], 300))]
  }

  /** The texts of thinking posts, one after the other. */
  function TextOf(shown: seq<Content>): string {
    if shown == [] then ""
    else
      var last := shown[|shown| - 1];
      TextOf(shown[..|shown| - 1]) + if last.Thought? then last.text else ""
  }

  /** The posts are numbered, the thinking posts are the cuts of the flushed sentences, and these
      with the buffer hold all the reasoning. */
  ghost predicate Lawful(chunksOn: bool, s: State, reasoning: string) {
    && Numbered(s.posts) && (!chunksOn ==> s.posts == [])
    && Shown(s.posts) == Cuts(s.flushed)
    && Conserved(s.flushed, s.buffer, reasoning) && AllSentences(s.flushed)
  }

  lemma {:induction false} ShownOneMore(posts: seq<Chunk>, last: Chunk)
    ensures Shown(posts + [last]) == Shown(posts) + if last.kind.Thinking? then [last.content] else []
  {
    assert (posts + [last])[..|posts|] == posts;
  }

  lemma {:induction false} CutsOneMore(texts: seq<string>, last: string)
    ensures Cuts(texts + [last]) == Cuts(texts) + [Thought(Cut(last, 300))]
  {
    assert (texts + [last])[..|texts|] == texts;
  }

  /** An event posts a thought exactly when it takes a text off the buffer, and then its cut. */
  lemma {:induction false} OnlyFlushesAreThoughts(e: Event, buffer: string)
    ensures var says := Says(e, buffer);
            if FlushOf(true, e, buffer) == [] then says.Some? ==> !says.value.Kind().Thinking?
            else says == Some(Thought(Cut(FlushOf(true, e, buffer)[0], 300)))
  {
  }

  lemma {:induction false} PostShows(
      posts: seq<Chunk>, chunksOn: bool, e: Event, buffer: string, n: nat, session: string)
    ensures Shown(posts + PostsOf(chunksOn, e, buffer, n, session)) == Shown(posts) + Cuts(FlushOf(chunksOn, e, buffer))
  {
    var post := PostsOf(chunksOn, e, buffer, n, session);
    if post == [] {
      assert posts + post == posts;
    } else {
      ShownOneMore(posts, post[0]);
    }
    if chunksOn {
      OnlyFlushesAreThoughts(e, buffer);
      CutsOfOne(FlushOf(true, e, buffer));
    }
  }

  lemma {:induction false} CutsOfOne(texts: seq<string>)
    ensures |texts| == 1 ==> Cuts(texts) == [Thought(Cut(texts[0], 300))]
  {
    if |texts| == 1 {
      CutsOneMore([], texts[0]);
      assert [] + [texts[0]] == texts;
    }
  }

  lemma {:induction false} CutsOfFlush(texts: seq<string>, chunksOn: bool, e: Event, buffer: string)
    ensures Cuts(texts + FlushOf(chunksOn, e, buffer)) == Cuts(texts) + Cuts(FlushOf(chunksOn, e, buffer))
  {
    var flush := FlushOf(chunksOn, e, buffer);
    if flush == [] {
      assert texts + flush == texts;
    } else {
      CutsOneMore(texts, flush[0]);
      CutsOneMore([], flush[0]);
      assert [] + [flush[0]] == flush;
    }
  }

  lemma {:induction false} NextConserves(
      chunksOn: bool, flushed: seq<string>, buffer: string, reasoning: string, e: Event)
    requires Conserved(flushed, buffer, reasoning) && AllSentences(flushed)
    ensures Conserved(flushed + FlushOf(chunksOn, e, buffer), BufferAfter(chunksOn, e, buffer), reasoning + DeltaOf(e))
    ensures AllSentences(flushed + FlushOf(chunksOn, e, buffer))
  {
    assert flushed + [] == flushed && reasoning + "" == reasoning;
    if Gathers(e) {
      GatheringConserves(flushed, buffer, reasoning, e.text);
      if chunksOn && HasStop(buffer + e.text) {
        FlushingConserves(flushed, buffer + e.text, reasoning + e.text);
      }
    }
  }

  lemma {:induction false} NextNumbers(posts: seq<Chunk>, chunksOn: bool, e: Event, buffer: string, session: string)
    requires Numbered(posts)
    ensures Numbered(posts + PostsOf(chunksOn, e, buffer, |posts|, session))
  {
  }

  lemma {:induction false} NextIsLawful(chunksOn: bool, sessionId: string, s: State, e: Event, reasoning: string)
    requires Lawful(chunksOn, s, reasoning)
    ensures Lawful(chunksOn, Next(chunksOn, sessionId, s, e), reasoning + DeltaOf(e))
  {
    var session := Or(s.notes.session, sessionId);
    NextNumbers(s.posts, chunksOn, e, s.buffer, session);
    PostShows(s.posts, chunksOn, e, s.buffer, |s.posts|, session);
    CutsOfFlush(s.flushed, chunksOn, e, s.buffer);
    NextConserves(chunksOn, s.flushed, s.buffer, reasoning, e);
  }

  lemma {:induction false} FirstPostsShowNothing(chunksOn: bool, message: string, sessionId: string)
    ensures Numbered(FirstPosts(chunksOn, message, sessionId))
    ensures Shown(FirstPosts(chunksOn, message, sessionId)) == []
  {
    if chunksOn {
      ShownOneMore([], FirstPosts(chunksOn, message, sessionId)[0]);
      assert [] + FirstPosts(chunksOn, message, sessionId) == FirstPosts(chunksOn, message, sessionId);
    }
  }

  lemma {:induction false} OpeningIsLawful(chunksOn: bool, message: string, sessionId: string, created: string)
    ensures Lawful(chunksOn, Opening(chunksOn, message, sessionId, created), "")
  {
    FirstPostsShowNothing(chunksOn, message, sessionId);
  }

  lemma {:induction false} StreamedIsLawful(x: Interaction, events: seq<Event>) returns (s: State)
    ensures s == Streamed(x, events) && Lawful(x.chunksOn, s, Reasoning(events))
  {
    if events == [] {
      s := Opening(x.chunksOn, x.message, x.sessionId, x.created);
      OpeningIsLawful(x.chunksOn, x.message, x.sessionId, x.created);
    } else {
      var front, last := events[..|events| - 1], events[|events| - 1];
      var before := StreamedIsLawful(x, front);
      NextIsLawful(x.chunksOn, x.sessionId, before, last, Reasoning(front));
      s := Next(x.chunksOn, x.sessionId, before, last);
    }
  }

  lemma {:induction false} StreamedIsShort(x: Interaction, events: seq<Event>)
    ensures |Streamed(x, events).posts| <= |events| + 1
  {
    if events != [] {
      StreamedIsShort(x, events[..|events| - 1]);
    }
  }

  lemma {:induction false} DeletedUpTo(events: seq<Event>, k: nat)
    requires k < |events|
    ensures SessionDeleted in events[..k + 1] <==> SessionDeleted in events[..k] || events[k] == SessionDeleted
  {
    assert events[..k + 1] == events[..k] + [events[k]];
  }

  lemma {:induction false} NextCancels(chunksOn: bool, sessionId: string, s: State, e: Event)
    ensures Next(chunksOn, sessionId, s, e).notes.cancelled <==> s.notes.cancelled || e == SessionDeleted
  {
  }

  lemma {:induction false} StreamedAt(x: Interaction, events: seq<Event>, k: nat)
    requires k < |events|
    ensures Streamed(x, events[..k + 1]) == Next(x.chunksOn, x.sessionId, Streamed(x, events[..k]), events[k])
  {
    assert events[..k + 1][..k] == events[..k];
  }

  lemma {:induction false} CancelledIffDeleted(x: Interaction, events: seq<Event>)
    ensures Streamed(x, events).notes.cancelled <==> SessionDeleted in events
  {
    for k := 0 to |events|
      invariant Streamed(x, events[..k]).notes.cancelled <==> SessionDeleted in events[..k]
    {
      StreamedAt(x, events, k);
      NextCancels(x.chunksOn, x.sessionId, Streamed(x, events[..k]), events[k]);
      DeletedUpTo(events, k);
    }
    assert events[..|events|] == events;
  }

  lemma {:induction false} ClosingIsLawful(chunksOn: bool, sessionId: string, s: State, reasoning: string)
    requires Lawful(chunksOn, s, reasoning)
    ensures Numbered(s.posts + Closing(chunksOn, sessionId, s))
    ensures Shown(s.posts + Closing(chunksOn, sessionId, s)) == Cuts(AllFlushed(chunksOn, s))
  {
    var closing := Closing(chunksOn, sessionId, s);
    if closing == [] {
      assert s.posts + closing == s.posts;
    } else {
      ShownOneMore(s.posts, closing[0]);
      if !s.notes.cancelled {
        CutsOneMore(s.flushed, Strip(s.buffer));
      }
    }
  }

  /** The posts of any interaction are numbered 0..n-1. */
  lemma {:induction false} PostsAreNumbered(x: Interaction)
    ensures Numbered(Posts(x)) && |Posts(x)| <= |x.events| + 2
    ensures !x.chunksOn ==> Posts(x) == []
    ensures x.chunksOn && SessionDeleted in x.events ==>
              Posts(x) != [] && Posts(x)[|Posts(x)| - 1].kind.ErrorChunk?
  {
    var s := StreamedIsLawful(x, x.events);
    StreamedIsShort(x, x.events);
    CancelledIffDeleted(x, x.events);
    ClosingIsLawful(x.chunksOn, x.sessionId, s, Reasoning(x.events));
  }

  /** With chunks on, the thinking posts are, in order, the first 300 characters of texts that hold
      all the reasoning received, up to white space; of a cancelled run, all but what is left in the
      buffer. */
  lemma {:induction false} ThinkingIsConserved(x: Interaction)
    requires x.chunksOn
    ensures Shown(Posts(x)) == Cuts(Thoughts(x))
    ensures SessionDeleted !in x.events ==> Ink(Concat(Thoughts(x))) == Ink(Reasoning(x.events))
    ensures SessionDeleted in x.events ==> Conserved(Thoughts(x), Streamed(x, x.events).buffer, Reasoning(x.events))
  {
    var s := StreamedIsLawful(x, x.events);
    CancelledIffDeleted(x, x.events);
    ClosingIsLawful(x.chunksOn, x.sessionId, s, Reasoning(x.events));
    LastFlushConserves(s.flushed, s.buffer, Reasoning(x.events));
  }

  lemma {:induction false} LastFlushConserves(flushed: seq<string>, buffer: string, reasoning: string)
    requires Conserved(flushed, buffer, reasoning)
    ensures Ink(Concat(if Strip(buffer) == "" then flushed else flushed + [Strip(buffer)])) == Ink(reasoning)
  {
    StripKeepsInk(buffer);
    if Strip(buffer) != "" {
      ConcatOneMore(flushed, Strip(buffer));
    }
  }

  /** If no sentence is longer than a post may be, the thinking posts themselves hold all the
      reasoning. */
  lemma {:induction false} ShortThoughtsAreShownInFull(x: Interaction)
    requires x.chunksOn && SessionDeleted !in x.events
    requires forall t :: t in Thoughts(x) ==> |t| <= 300
    ensures Ink(TextOf(Shown(Posts(x)))) == Ink(Reasoning(x.events))
  {
    ThinkingIsConserved(x);
    TextOfCuts(Thoughts(x));
  }

  lemma {:induction false} TextOfCuts(texts: seq<string>)
    requires forall t :: t in texts ==> |t| <= 300
    ensures TextOf(Cuts(texts)) == Concat(texts)
  {
    if texts != [] {
      var front, last := texts[..|texts| - 1], texts[|texts| - 1];
      TextOfCuts(front);
      var cuts := Cuts(texts);
      assert cuts[..|cuts| - 1] == Cuts(front);
      assert last in texts;
    }
  }

  // ---- The run ----

  const CANCELLED := "Request cancelled by user."
  const NO_RESPONSE := "No response captured"

  class StreamRun {
    const chunksOn: bool
    const sessionId: string
    var sequence: nat
    var responseText: string
    var resolvedSessionId: string
    var thinkingBuffer: string
    var cancelled: bool
    var done: bool
    var posts: seq<Chunk>
    ghost var flushed: seq<string>
    ghost var reasoning: string

    ghost function View(): State
      reads this
    {
      State(posts, thinkingBuffer, flushed, StreamNotes(responseText, resolvedSessionId, done, cancelled))
    }

    ghost predicate Valid()
      reads this
    {
      sequence == |posts| && Lawful(chunksOn, View(), reasoning)
    }

    constructor (chunksOn: bool, message: string, sessionId: string, created: string)
      ensures Valid() && this.chunksOn == chunksOn && this.sessionId == sessionId && reasoning == ""
      ensures View() == Opening(chunksOn, message, sessionId, created)
    {
      this.chunksOn, this.sessionId := chunksOn, sessionId;
      sequence, responseText, thinkingBuffer, cancelled, done := 0, "", "", false, false;
      resolvedSessionId := Or(created, sessionId);
      posts, flushed, reasoning := [], [], "";
      new;
      if chunksOn {
        PostChunk(sessionId, Processing(Cut(message, 120)));
      }
      OpeningIsLawful(chunksOn, message, sessionId, created);
    }

    method PostChunk(session: string, content: Content)
      requires sequence == |posts|
      modifies this`posts, this`sequence
      ensures sequence == |posts| && posts == old(posts) + [Chunk(|old(posts)|, session, content.Kind(), content)]
    {
      posts := posts + [Chunk(sequence, session, content.Kind(), content)];
      sequence := sequence + 1;
    }

    /** The session id a post carries. */
    function Session(): string
      reads this`resolvedSessionId
    {
      Or(resolvedSessionId, sessionId)
    }

    /** on_event: what `Next` says, and the laws hold on. */
    method OnEvent(e: Event)
      requires Valid()
      modifies this
      ensures Valid() && reasoning == old(reasoning) + DeltaOf(e)
      ensures View() == Next(chunksOn, sessionId, old(View()), e)
    {
      NextIsLawful(chunksOn, sessionId, View(), e, reasoning);
      reasoning := reasoning + DeltaOf(e);
      Handle(e);
    }

    method Handle(e: Event)
      requires sequence == |posts|
      modifies this`posts, this`sequence, this`thinkingBuffer, this`flushed,
               this`responseText, this`resolvedSessionId, this`done, this`cancelled
      ensures sequence == |posts|
      ensures View() == Next(chunksOn, sessionId, old(View()), e)
    {
      if e.ReasoningDelta? {
        Think(e.text);
      } else if e.Message? {
        OnMessage(e.content, e.toolRequests);
      } else if e.SessionCreated? || e.MessageDelta? || e.SessionIdle? || e.SessionDeleted? {
        OnSession(e);
      } else {
        OnActivity(e);
      }
    }

    /** The events that post nothing. */
    method OnSession(e: Event)
      requires e.SessionCreated? || e.MessageDelta? || e.SessionIdle? || e.SessionDeleted?
      modifies this`resolvedSessionId, this`responseText, this`done, this`cancelled
      ensures View().notes == After(old(View()).notes, e)
    {
      match e {
        case SessionCreated(id) =>
          resolvedSessionId := Or(id, resolvedSessionId);
        case MessageDelta(text) =>
          responseText := responseText + text;
        case SessionIdle =>
          done := true;
        case SessionDeleted =>
          cancelled := true;
          done := true;
      }
    }

    /** Tools, skills and sub-agents: these only post. */
    method OnActivity(e: Event)
      requires sequence == |posts|
      requires e.ToolStart? || e.ToolComplete? || e.SkillInvoked? || e.Subagent? || e.OtherEvent?
      modifies this`posts, this`sequence
      ensures sequence == |posts|
      ensures posts == old(posts) + PostsOf(chunksOn, e, thinkingBuffer, |old(posts)|, Session())
    {
      match e {
        case ToolStart(tool, description, command, arguments) =>
          OnToolStart(tool, description, command, arguments);
        case ToolComplete(tool, output, detail, success) =>
          OnToolComplete(tool, output, detail, success);
        case SkillInvoked(skill) =>
          OnNotice(SkillLoaded(skill));
        case Subagent(agent, state) =>
          OnNotice(SubagentNote(agent, state));
        case OtherEvent =>
      }
    }

    method OnNotice(content: Content)
      requires sequence == |posts|
      modifies this`posts, this`sequence
      ensures sequence == |posts|
      ensures posts == old(posts) + if chunksOn then [Chunk(|old(posts)|, Session(), content.Kind(), content)] else []
    {
      if chunksOn {
        PostChunk(Session(), content);
      }
    }

    method OnMessage(content: string, toolRequests: seq<string>)
      requires sequence == |posts|
      modifies this`posts, this`sequence, this`responseText
      ensures sequence == |posts|
      ensures posts == old(posts) + PostsOf(chunksOn, Message(content, toolRequests), thinkingBuffer,
                                            |old(posts)|, Session())
      ensures responseText == if content != "" && toolRequests == [] then content else old(responseText)
    {
      if content != "" && |toolRequests| == 0 {
        responseText := content;
        if chunksOn {
          PostChunk(Session(), Preview(Cut(content, 200), |content| > 200));
        }
      } else if |toolRequests| > 0 {
        var names := ToolNames(toolRequests);
        if names != "" && chunksOn {
          PostChunk(Session(), Invoking(names));
        }
      }
    }

    method OnToolStart(tool: string, description: string, command: string, arguments: string)
      requires sequence == |posts|
      modifies this`posts, this`sequence
      ensures sequence == |posts|
      ensures posts == old(posts) + PostsOf(chunksOn, ToolStart(tool, description, command, arguments),
                                            thinkingBuffer, |old(posts)|, Session())
    {
      if !Skipped(tool) && chunksOn {
        var desc := Or(description, Or(command, Cut(arguments, 120)));
        PostChunk(Session(), ToolStarted(tool, Cut(desc, 200)));
      }
    }

    method OnToolComplete(tool: string, output: string, detail: string, success: bool)
      requires sequence == |posts|
      modifies this`posts, this`sequence
      ensures sequence == |posts|
      ensures posts == old(posts) + PostsOf(chunksOn, ToolComplete(tool, output, detail, success),
                                            thinkingBuffer, |old(posts)|, Session())
    {
      if !Skipped(tool) && chunksOn {
        var shown := Or(output, detail);
        if Strip(shown) != "" {
          PostChunk(Session(), ToolFinished(tool, Cut(shown, 400), success));
        }
      }
    }

    /** A reasoning delta: gather it, and flush one sentence if there is one. */
    method Think(text: string)
      requires sequence == |posts|
      modifies this`thinkingBuffer, this`posts, this`sequence, this`flushed
      ensures sequence == |posts|
      ensures posts == old(posts) + PostsOf(chunksOn, ReasoningDelta(text), old(thinkingBuffer),
                                            |old(posts)|, Session())
      ensures thinkingBuffer == BufferAfter(chunksOn, ReasoningDelta(text), old(thinkingBuffer))
      ensures flushed == old(flushed) + FlushOf(chunksOn, ReasoningDelta(text), old(thinkingBuffer))
      ensures chunksOn && text != "" ==>
                forall stop :: EndsSentence(old(thinkingBuffer) + text, stop) ==>
                  Ink(thinkingBuffer) == Ink((old(thinkingBuffer) + text)[stop + 1..])
    {
      forall stop | EndsSentence(thinkingBuffer + text, stop)
        ensures Ink(KeptText(thinkingBuffer + text)) == Ink((thinkingBuffer + text)[stop + 1..])
      {
        SplitIsAtFirstEnd(thinkingBuffer + text, stop);
      }
      if text != "" {
        thinkingBuffer := thinkingBuffer + text;
        if chunksOn && HasStop(thinkingBuffer) {
          FlushSentence();
        }
      }
    }

    /** One split at the first sentence end; the head, if it is not blank, is posted. */
    method FlushSentence()
      requires sequence == |posts| && HasStop(thinkingBuffer)
      modifies this`thinkingBuffer, this`posts, this`sequence, this`flushed
      ensures sequence == |posts| && thinkingBuffer == KeptText(old(thinkingBuffer))
      ensures var text := FlushedText(old(thinkingBuffer));
              if text == "" then posts == old(posts) && flushed == old(flushed)
              else && posts == old(posts) + [Chunk(|old(posts)|, Session(), Thinking, Thought(Cut(text, 300)))]
                   && flushed == old(flushed) + [text]
    {
      var flushText, rest := SplitSentence(thinkingBuffer);
      thinkingBuffer := rest;
      if flushText != "" {
        flushed := flushed + [flushText];
        PostChunk(Session(), Thought(Cut(flushText, 300)));
      }
    }

    /** After the wait: a cancelled run posts its notice; any other flushes the rest of the buffer. */
    method Finish() returns (response: string, session: string)
      requires sequence == |posts|
      modifies this`posts, this`sequence, this`responseText, this`flushed
      ensures session == old(Session())
      ensures response == if cancelled then CANCELLED else Or(old(responseText), NO_RESPONSE)
      ensures posts == old(posts) + Closing(chunksOn, sessionId, old(View()))
      ensures flushed == AllFlushed(chunksOn, old(View()))
    {
      session := Session();
      if cancelled {
        response := CANCELLED;
        if chunksOn {
          PostChunk(session, CancelNotice);
        }
        return;
      }
      if responseText == "" {
        responseText := NO_RESPONSE;
      }
      response := responseText;
      var rest := Strip(thinkingBuffer);
      if rest != "" && chunksOn {
        PostChunk(session, Thought(Cut(rest, 300)));
        flushed := flushed + [rest];
      }
    }
  }

  /** The buffer is taken up to the first '.', '!', '?' or line end, and no further. */
  method SplitSentence(buffer: string) returns (flushText: string, rest: string)
    requires HasStop(buffer)
    ensures flushText == FlushedText(buffer) && rest == KeptText(buffer)
    ensures Ink(flushText) + Ink(rest) == Ink(buffer)
    ensures flushText != "" ==> OneSentence(flushText)
    ensures exists stop :: EndsSentence(buffer, stop) && Ink(flushText) == Ink(buffer[..stop + 1])
  {
    assert EndsSentence(buffer, FirstStop(buffer));
    SplitIsAtFirstEnd(buffer, FirstStop(buffer));
    var cut := FirstStop(buffer) + 1;
    flushText := Strip(buffer[..cut]);
    rest := Strip(TrimLeft(buffer[cut..]));
    SplitKeepsInk(buffer);
    if flushText != "" {
      FlushedIsOneSentence(buffer);
    }
  }

  /** The whole run, for every event sequence that ends the wait and no events after it: exactly the
      posts its events call for, numbered 0..n-1. With chunks on, its thinking posts are the first
      300 characters of the flushed texts in order, and unless it is cancelled these texts hold all
      the reasoning received, up to white space. */
  method RunStreaming(x: Interaction) returns (posts: seq<Chunk>, response: string, session: string)
    requires SessionIdle in x.events || SessionDeleted in x.events
    ensures posts == Posts(x) && Numbered(posts) && |posts| <= |x.events| + 2
    ensures x.chunksOn ==> Shown(posts) == Cuts(Thoughts(x))
    ensures x.chunksOn && SessionDeleted !in x.events ==> Ink(Concat(Thoughts(x))) == Ink(Reasoning(x.events))
    ensures x.chunksOn ==> TellsTheRun(x, posts, session)
    ensures IsSession(x, x.events, session)
    ensures SessionDeleted in x.events ==> response == CANCELLED
    ensures SessionDeleted !in x.events ==>
              IsResponse(x.events, response) || (IsResponse(x.events, "") && response == NO_RESPONSE)
  {
    posts, response, session := Converse(x);
    PostsAreNumbered(x);
    CancelledIffDeleted(x, x.events);
    NotesAreGathered(x, x.events);
    SessionOfPosts(x, x.events);
    if x.chunksOn {
      ThinkingIsConserved(x);
      PostsTellTheRun(x);
    }
  }

  method Converse(x: Interaction) returns (posts: seq<Chunk>, response: string, session: string)
    ensures posts == Posts(x)
    ensures session == Or(Streamed(x, x.events).notes.session, x.sessionId)
    ensures response == if Streamed(x, x.events).notes.cancelled then CANCELLED
                        else Or(Streamed(x, x.events).notes.response, NO_RESPONSE)
  {
    var run := new StreamRun(x.chunksOn, x.message, x.sessionId, x.created);
    HandleAll(run, x);
    response, session := run.Finish();
    posts := run.posts;
  }

  method HandleAll(run: StreamRun, x: Interaction)
    requires run.Valid() && run.chunksOn == x.chunksOn && run.sessionId == x.sessionId
    requires run.View() == Streamed(x, [])
    modifies run
    ensures run.Valid() && run.View() == Streamed(x, x.events)
  {
    for k := 0 to |x.events|
      invariant run.Valid() && run.View() == Streamed(x, x.events[..k])
    {
      HandleNext(run, x, k);
    }
    assert x.events[..|x.events|] == x.events;
  }

  method HandleNext(run: StreamRun, x: Interaction, k: nat)
    requires run.Valid() && run.chunksOn == x.chunksOn && run.sessionId == x.sessionId && k < |x.events|
    requires run.View() == Streamed(x, x.events[..k])
    modifies run
    ensures run.Valid() && run.View() == Streamed(x, x.events[..k + 1])
  {
    assert x.events[..k + 1][..k] == x.events[..k];
    run.OnEvent(x.events[k]);
  }
}
