/** From the agent's posts to the stored chunks: their names and create-once storage
    (`internal/webhook/server.go`), and the list a reader gets (`web-ui/app/k8s_client.py`). */
module ChunkDelivery {
  import opened Wrappers
  import S = ChunkStream

  // ---- Names ----

  function DigitChar(d: nat): char requires d < 10 { ('0' as int + d) as char }

  predicate IsDigit(c: char) { '0' <= c <= '9' }

  function Decimal(n: nat): (s: string)
    ensures s != "" && AllDigits(s)
  {
    if n < 10 then [DigitChar(n)] else Decimal(n / 10) + [DigitChar(n % 10)]
  }

  function Pad(s: string, width: nat): string
    decreases width - |s|
  {
    if |s| >= width then s else Pad("0" + s, width)
  }

  /** The verb %04d: at least four characters, the sign counted among them. */
  function FormatSequence(sequence: int): string {
    if sequence >= 0 then Pad(Decimal(sequence), 4) else "-" + Pad(Decimal(-sequence), 3)
  }

  function Tail12(s: string): string { if |s| > 12 then s[|s| - 12..] else s }

  function ChunkName(sendRef: string, sequence: int): string {
    "chunk-" + Tail12(sendRef) + "-" + FormatSequence(sequence)
  }

  function LastHyphen(s: string): (i: int)
    ensures -1 <= i < |s|
    ensures forall k :: i < k < |s| ==> s[k] != '-'
    ensures i >= 0 ==> s[i] == '-'
  {
    if s == "" then -1 else if s[|s| - 1] == '-' then |s| - 1 else LastHyphen(s[..|s| - 1])
  }

  predicate AllDigits(s: string) { forall k :: 0 <= k < |s| ==> IsDigit(s[k]) }

  function DigitValue(c: char): nat requires IsDigit(c) { c as int - '0' as int }

  function ReadDecimal(s: string): nat
    requires AllDigits(s)
  {
    if s == "" then 0
    else
      assert IsDigit(s[|s| - 1]);
      10 * ReadDecimal(s[..|s| - 1]) + DigitValue(s[|s| - 1])
  }

  /** Splits a name at its last hyphen and reads the number behind it. */
  function ParseName(name: string): Option<(string, int)> {
    var h := LastHyphen(name);
    if h < 6 || h + 1 == |name| || !AllDigits(name[h + 1..]) then None
    else Some((name[6..h], ReadDecimal(name[h + 1..])))
  }

  lemma {:induction false} PadKeepsNumber(s: string, width: nat)
    requires AllDigits(s)
    ensures AllDigits(Pad(s, width))
    ensures ReadDecimal(Pad(s, width)) == ReadDecimal(s) && |Pad(s, width)| >= |s|
    decreases width - |s|
  {
    if |s| < width {
      LeadingZero(s);
      PadKeepsNumber("0" + s, width);
    }
  }

  lemma {:induction false} LeadingZero(s: string)
    requires AllDigits(s)
    ensures ReadDecimal("0" + s) == ReadDecimal(s)
  {
    if s == "" {
      assert "0"[..0] == "";
      assert "0" + s == "0";
    } else {
      assert ("0" + s)[..|s|] == "0" + s[..|s| - 1];
      LeadingZero(s[..|s| - 1]);
    }
  }

  lemma {:induction false} DecimalReadsBack(n: nat)
    ensures ReadDecimal(Decimal(n)) == n
  {
    if n < 10 {
      assert [DigitChar(n)][..0] == "";
    } else {
      DecimalReadsBack(n / 10);
      assert (Decimal(n / 10) + [DigitChar(n % 10)])[..|Decimal(n / 10)|] == Decimal(n / 10);
    }
  }

  lemma {:induction false} DecimalHasNoLeadingZero(n: nat)
    ensures n > 0 ==> Decimal(n)[0] != '0'
    ensures n == 0 ==> Decimal(n) == "0"
  {
    if n >= 10 { DecimalHasNoLeadingZero(n / 10); }
  }

  lemma {:induction false} PadFillsUp(s: string, width: nat)
    ensures if |s| >= width then Pad(s, width) == s else |Pad(s, width)| == width
    decreases width - |s|
  {
    if |s| < width { PadFillsUp("0" + s, width); }
  }

  /** The decimal digits of the sequence, at least four of them, and no more than four unless the
      first is not a zero. */
  predicate IsPadded(number: string, sequence: int) {
    && AllDigits(number) && ReadDecimal(number) == sequence
    && |number| >= 4 && (|number| > 4 ==> number[0] != '0')
  }

  lemma {:induction false} SequenceIsPadded(sequence: nat)
    ensures IsPadded(FormatSequence(sequence), sequence)
  {
    PadKeepsNumber(Decimal(sequence), 4);
    DecimalReadsBack(sequence);
    DecimalHasNoLeadingZero(sequence);
    PadFillsUp(Decimal(sequence), 4);
  }

  lemma {:induction false} LastHyphenOf(a: string, b: string)
    requires '-' !in b
    ensures LastHyphen(a + "-" + b) == |a|
  {
    var s := a + "-" + b;
    if b != "" {
      assert s[|s| - 1] == b[|b| - 1];
      assert s[..|s| - 1] == a + "-" + b[..|b| - 1];
      LastHyphenOf(a, b[..|b| - 1]);
    }
  }

  lemma {:induction false} ParseJoined(front: string, number: string)
    requires |front| >= 6 && number != "" && AllDigits(number)
    ensures ParseName(front + "-" + number) == Some((front[6..], ReadDecimal(number)))
  {
    LastHyphenOf(front, number);
    var name := front + "-" + number;
    assert name[|front| + 1..] == number;
    assert name[6..|front|] == front[6..];
  }

  /** A name parses back to the end of the send's name and the sequence, whatever the width of the
      number, exactly when the sequence is not negative. */
  lemma {:induction false} NameParsesBack(sendRef: string, sequence: int)
    ensures ParseName(ChunkName(sendRef, sequence)) == Some((Tail12(sendRef), sequence)) <==> sequence >= 0
  {
    if sequence >= 0 {
      PadKeepsNumber(Decimal(sequence), 4);
      DecimalReadsBack(sequence);
      var front := "chunk-" + Tail12(sendRef);
      ParseJoined(front, FormatSequence(sequence));
      assert front[6..] == Tail12(sendRef);
    }
  }

  /** Two posts compete for one name exactly when they agree on the last twelve characters of the
      send and on the sequence. */
  lemma {:induction false} NamesCollide(a: string, i: int, b: string, j: int)
    requires i >= 0 && j >= 0
    ensures ChunkName(a, i) == ChunkName(b, j) <==> Tail12(a) == Tail12(b) && i == j
  {
    NameParsesBack(a, i);
    NameParsesBack(b, j);
  }

  /** With a negative sequence, which the agent never posts, different sends can collide. */
  lemma {:induction false} NegativeSequenceCollides()
    ensures ChunkName("a", -1000) == ChunkName("a-", 1000)
  {
    assert Decimal(1) == "1" && Decimal(10) == "10" && Decimal(100) == "100" && Decimal(1000) == "1000";
    assert Pad("1000", 4) == "1000" && Pad("1000", 3) == "1000";
    calc {
      ChunkName("a", -1000);
      "chunk-" + "a" + "-" + ("-" + "1000");
      "chunk-" + "a-" + "-" + "1000";
      ChunkName("a-", 1000);
    }
  }

  /** A send made by the web client is named after twelve random characters, and the chunk name
      keeps all of them. */
  lemma {:induction false} WebSendsKeepTheirIdentity(hex: string)
    requires |hex| == 12
    ensures Tail12("send-" + hex) == hex
  {
    assert ("send-" + hex)[5..] == hex;
  }

  // ---- The store ----

  datatype Payload = Payload(
    sendRef: string, sessionId: string, agentRef: string, namespace: string, sequence: int,
    kind: S.Kind, content: S.Content)

  datatype Stored = Stored(name: string, namespace: string, payload: Payload)

  /** The namespace a chunk is stored in. */
  function Home(namespace: string): string { if namespace == "" then "default" else namespace }

  function Named(p: Payload): Stored {
    Stored(ChunkName(p.sendRef, p.sequence), Home(p.namespace), p)
  }

  /** The object holds the payload, in its namespace or "default", under a name made of the last
      twelve characters of the send and the padded sequence. */
  ghost predicate IsObjectFor(s: Stored, p: Payload) {
    && s.payload == p && s.namespace == (if p.namespace == "" then "default" else p.namespace)
    && exists tail, number :: IsNameOf(s.name, tail, number, p)
  }

  predicate IsNameOf(name: string, tail: string, number: string, p: Payload) {
    && name == "chunk-" + tail + "-" + number
    && |tail| == (if |p.sendRef| < 12 then |p.sendRef| else 12) && p.sendRef[|p.sendRef| - |tail|..] == tail
    && (p.sequence >= 0 ==> IsPadded(number, p.sequence))
  }

  ghost predicate Adds(was: seq<Stored>, now: seq<Stored>, p: Payload) {
    exists chunk :: IsObjectFor(chunk, p) && now == was + [chunk]
  }

  lemma {:induction false} NamedIsObject(p: Payload)
    ensures IsObjectFor(Named(p), p)
  {
    if p.sequence >= 0 { SequenceIsPadded(p.sequence); }
    assert IsNameOf(Named(p).name, Tail12(p.sendRef), FormatSequence(p.sequence), p);
  }

  lemma {:induction false} NamedAdds(was: seq<Stored>, p: Payload)
    ensures Adds(was, was + [Named(p)], p)
  {
    NamedIsObject(p);
  }

  /** Every object is stored under the name of its payload, no two under one name. */
  predicate WellStored(chunks: seq<Stored>) {
    && (forall i :: 0 <= i < |chunks| ==> chunks[i] == Named(chunks[i].payload))
    && (forall i, j :: 0 <= i < j < |chunks| ==>
          chunks[i].name != chunks[j].name || chunks[i].namespace != chunks[j].namespace)
  }

  predicate Taken(chunks: seq<Stored>, s: Stored) {
    exists i :: 0 <= i < |chunks| && chunks[i].name == s.name && chunks[i].namespace == s.namespace
  }

  /** What one arrival does to the store: the first under a name wins. */
  function Arrive(chunks: seq<Stored>, p: Payload, apiUp: bool): seq<Stored> {
    chunks + if apiUp && !Taken(chunks, Named(p)) then [Named(p)] else []
  }

  class ChunkStore {
    var chunks: seq<Stored>

    constructor ()
      ensures chunks == []
    {
      chunks := [];
    }

    /** handleChunk: created once, under a name that depends on send and sequence alone. */
    method HandleChunk(p: Payload, apiUp: bool) returns (created: bool)
      requires WellStored(chunks)
      modifies this
      ensures WellStored(chunks)
      ensures created <==> apiUp && !Taken(old(chunks), Named(p))
      ensures chunks == Arrive(old(chunks), p, apiUp)
      ensures !created ==> chunks == old(chunks)
      ensures created ==> Adds(old(chunks), chunks, p)
    {
      var chunk := NameChunk(p);
      var taken := IsTaken(chunk.name, chunk.namespace);
      created := apiUp && !taken;
      if created {
        NamedAdds(chunks, p);
        chunks := chunks + [chunk];
      }
    }

    /** The object for a payload: its namespace, and a name from send and sequence. */
    method NameChunk(p: Payload) returns (chunk: Stored)
      ensures chunk == Named(p)
    {
      var namespace := p.namespace;
      if namespace == "" {
        namespace := "default";
      }
      var sendShort := p.sendRef;
      if |sendShort| > 12 {
        sendShort := sendShort[|sendShort| - 12..];
      }
      var name := "chunk-" + sendShort + "-" + FormatSequence(p.sequence);
      chunk := Stored(name, namespace, p);
    }

    method IsTaken(name: string, namespace: string) returns (taken: bool)
      ensures taken <==> exists i :: 0 <= i < |chunks| && chunks[i].name == name && chunks[i].namespace == namespace
    {
      for k := 0 to |chunks|
        invariant forall i :: 0 <= i < k ==> chunks[i].name != name || chunks[i].namespace != namespace
      {
        if chunks[k].name == name && chunks[k].namespace == namespace {
          return true;
        }
      }
      taken := false;
    }
  }

  /** Deliveries in any order, with losses (`apiUp` false, or simply absent) and repeats. */
  function Deliver(chunks: seq<Stored>, arrivals: seq<(Payload, bool)>): seq<Stored> {
    if arrivals == [] then chunks
    else
      var before, last := Deliver(chunks, arrivals[..|arrivals| - 1]), arrivals[|arrivals| - 1];
      Arrive(before, last.0, last.1)
  }

  lemma {:induction false} DeliveryIsWellStored(arrivals: seq<(Payload, bool)>)
    ensures WellStored(Deliver([], arrivals))
    ensures forall s :: s in Deliver([], arrivals) ==> exists i :: 0 <= i < |arrivals| && arrivals[i].0 == s.payload
  {
    if arrivals != [] {
      var front, last := arrivals[..|arrivals| - 1], arrivals[|arrivals| - 1];
      DeliveryIsWellStored(front);
      forall s | s in Deliver([], arrivals) ensures exists i :: 0 <= i < |arrivals| && arrivals[i].0 == s.payload {
        if s in Deliver([], front) {
          var i :| 0 <= i < |front| && front[i].0 == s.payload;
          assert arrivals[i].0 == s.payload;
        } else {
          assert arrivals[|arrivals| - 1].0 == s.payload;
        }
      }
    }
  }

  predicate Mine(s: Stored, sendRef: string, agentRef: string, namespace: string) {
    s.payload.sendRef == sendRef && s.payload.agentRef == agentRef && s.namespace == namespace
  }

  predicate SameSlot(s: Stored, t: Stored) {
    && s.namespace == t.namespace && s.payload.sendRef == t.payload.sendRef
    && s.payload.sequence == t.payload.sequence
  }

  /** At most one chunk per send and sequence. */
  lemma {:induction false} OnePerSequence(chunks: seq<Stored>, i: nat, j: nat)
    requires WellStored(chunks) && i < j < |chunks|
    ensures !SameSlot(chunks[i], chunks[j])
  {
    assert chunks[i] == Named(chunks[i].payload) && chunks[j] == Named(chunks[j].payload);
  }

  /** One item the agent was sent for a send: the interaction it ran, whose posts are what
      `RunStreaming` returns, and what it was told to post with. A send is posted once more for
      every status write that is lost. */
  datatype Dispatch = Dispatch(interaction: S.Interaction, agentRef: string, namespace: string)

  function PayloadOf(c: S.Chunk, d: Dispatch, sendRef: string): Payload {
    Payload(sendRef, c.session, d.agentRef, d.namespace, c.sequence, c.kind, c.content)
  }

  /** The payload is a post of this dispatch. */
  ghost predicate PostedBy(p: Payload, d: Dispatch, sendRef: string) {
    exists c :: c in S.Posts(d.interaction) && p == PayloadOf(c, d, sendRef)
  }

  /** The payload is the post of its number of this dispatch. */
  predicate IsPostOfItsNumber(p: Payload, d: Dispatch, sendRef: string) {
    && 0 <= p.sequence < |S.Posts(d.interaction)|
    && var c := S.Posts(d.interaction)[p.sequence];
       && p.kind == c.kind && p.content == c.content && p.sessionId == c.session
       && p.sendRef == sendRef && p.agentRef == d.agentRef && p.namespace == d.namespace
  }

  ghost predicate FromSome(p: Payload, dispatches: seq<Dispatch>, sendRef: string) {
    exists r :: 0 <= r < |dispatches| && PostedBy(p, dispatches[r], sendRef)
  }

  ghost predicate NumberedInSome(p: Payload, dispatches: seq<Dispatch>, sendRef: string) {
    exists r :: 0 <= r < |dispatches| && IsPostOfItsNumber(p, dispatches[r], sendRef)
  }

  lemma {:induction false} PostsCarryTheirNumber(p: Payload, d: Dispatch, sendRef: string)
    requires PostedBy(p, d, sendRef)
    ensures IsPostOfItsNumber(p, d, sendRef)
  {
    S.PostsAreNumbered(d.interaction);
    var c :| c in S.Posts(d.interaction) && p == PayloadOf(c, d, sendRef);
    var k :| 0 <= k < |S.Posts(d.interaction)| && S.Posts(d.interaction)[k] == c;
  }

  lemma {:induction false} NumberNamesThePost(p: Payload, d: Dispatch, sendRef: string)
    requires IsPostOfItsNumber(p, d, sendRef)
    ensures p == PayloadOf(S.Posts(d.interaction)[p.sequence], d, sendRef)
  {
    S.PostsAreNumbered(d.interaction);
  }

  /** End to end: in whatever order the posts of a send arrive, with whatever losses, repeats and
      posts of other sends between them, and however often the send was dispatched, each chunk
      stored for it is the post of its number of one of its dispatches. */
  lemma {:induction false} StoredChunksArePosts(
      dispatches: seq<Dispatch>, arrivals: seq<(Payload, bool)>, sendRef: string, s: Stored)
    requires forall i :: 0 <= i < |arrivals| && arrivals[i].0.sendRef == sendRef ==>
               FromSome(arrivals[i].0, dispatches, sendRef)
    requires s in Deliver([], arrivals) && s.payload.sendRef == sendRef
    ensures NumberedInSome(s.payload, dispatches, sendRef)
  {
    DeliveryIsWellStored(arrivals);
    var i :| 0 <= i < |arrivals| && arrivals[i].0 == s.payload;
    var r :| 0 <= r < |dispatches| && PostedBy(arrivals[i].0, dispatches[r], sendRef);
    PostsCarryTheirNumber(arrivals[i].0, dispatches[r], sendRef);
  }

  /** Two posts that would be stored under one name. */
  predicate Compete(p: Payload, q: Payload) {
    Named(p).name == Named(q).name && Named(p).namespace == Named(q).namespace
  }

  /** What is stored stays stored, and nothing comes in but by arrival. */
  lemma {:induction false} DeliveryGrows(arrivals: seq<(Payload, bool)>, m: nat, n: nat)
    requires m <= n <= |arrivals|
    ensures Deliver([], arrivals[..m]) <= Deliver([], arrivals[..n])
  {
    var was := Deliver([], arrivals[..m]);
    for k := m to n
      invariant was <= Deliver([], arrivals[..k])
    {
      OneMoreArrival(arrivals, k);
      Prefixes(was, Deliver([], arrivals[..k]), Deliver([], arrivals[..k + 1]));
    }
  }

  lemma {:induction false} Prefixes(a: seq<Stored>, b: seq<Stored>, c: seq<Stored>)
    requires a <= b <= c
    ensures a <= c
  {
  }

  lemma {:induction false} OneMoreArrival(arrivals: seq<(Payload, bool)>, n: nat)
    requires n < |arrivals|
    ensures Deliver([], arrivals[..n]) <= Deliver([], arrivals[..n + 1])
  {
    assert arrivals[..n + 1][..n] == arrivals[..n];
  }

  /** A post that arrives is stored, provided no other post takes its name. */
  lemma {:induction false} ArrivedIsStored(arrivals: seq<(Payload, bool)>, i: nat)
    requires i < |arrivals| && arrivals[i].1
    requires forall j :: 0 <= j < |arrivals| && Compete(arrivals[j].0, arrivals[i].0) ==> arrivals[j].0 == arrivals[i].0
    ensures Named(arrivals[i].0) in Deliver([], arrivals)
  {
    var before, mine := Deliver([], arrivals[..i]), Named(arrivals[i].0);
    if Taken(before, mine) {
      HolderIsRival(arrivals, i);
      var j :| 0 <= j < i && Compete(arrivals[j].0, arrivals[i].0) && Named(arrivals[j].0) in before;
      assert arrivals[j].0 == arrivals[i].0;
      StaysStored(arrivals, i, mine);
    } else {
      DeliveredAt(arrivals, i);
      ArrivalTakenIn(before, arrivals[i].0);
      StaysStored(arrivals, i + 1, mine);
    }
  }

  lemma {:induction false} DeliveredAt(arrivals: seq<(Payload, bool)>, i: nat)
    requires i < |arrivals|
    ensures Deliver([], arrivals[..i + 1]) == Arrive(Deliver([], arrivals[..i]), arrivals[i].0, arrivals[i].1)
  {
    assert arrivals[..i + 1][..i] == arrivals[..i];
  }

  lemma {:induction false} ArrivalTakenIn(chunks: seq<Stored>, p: Payload)
    requires !Taken(chunks, Named(p))
    ensures Named(p) in Arrive(chunks, p, true)
  {
    assert Arrive(chunks, p, true)[|chunks|] == Named(p);
  }

  lemma {:induction false} StaysStored(arrivals: seq<(Payload, bool)>, n: nat, s: Stored)
    requires n <= |arrivals| && s in Deliver([], arrivals[..n])
    ensures s in Deliver([], arrivals)
  {
    DeliveryGrows(arrivals, n, |arrivals|);
    assert arrivals[..|arrivals|] == arrivals;
  }

  /** Whatever holds the name of a post when it arrives came from an earlier rival. */
  lemma {:induction false} HolderIsRival(arrivals: seq<(Payload, bool)>, i: nat)
    requires i < |arrivals| && Taken(Deliver([], arrivals[..i]), Named(arrivals[i].0))
    ensures exists j :: 0 <= j < i && Compete(arrivals[j].0, arrivals[i].0)
             && Named(arrivals[j].0) in Deliver([], arrivals[..i])
  {
    var before, mine := Deliver([], arrivals[..i]), Named(arrivals[i].0);
    var k :| 0 <= k < |before| && before[k].name == mine.name && before[k].namespace == mine.namespace;
    DeliveryIsWellStored(arrivals[..i]);
    assert before[k] in before && before[k] == Named(before[k].payload);
    var j :| 0 <= j < |arrivals[..i]| && arrivals[..i][j].0 == before[k].payload;
    assert Compete(arrivals[j].0, arrivals[i].0);
  }

  // ---- Completeness ----

  /** Every post of the dispatch has arrived and was let in. */
  ghost predicate AllArrive(d: Dispatch, arrivals: seq<(Payload, bool)>, sendRef: string) {
    forall k :: 0 <= k < |S.Posts(d.interaction)| ==>
        (PayloadOf(S.Posts(d.interaction)[k], d, sendRef), true) in arrivals
  }

  /** Whatever arrives for the send is a post of this one dispatch. */
  ghost predicate OnlyDispatch(d: Dispatch, arrivals: seq<(Payload, bool)>, sendRef: string) {
    forall i :: 0 <= i < |arrivals| && arrivals[i].0.sendRef == sendRef ==> PostedBy(arrivals[i].0, d, sendRef)
  }

  /** Every other send posts numbers from zero on, and to another namespace or under a name with
      another end. */
  predicate NoRivals(d: Dispatch, arrivals: seq<(Payload, bool)>, sendRef: string) {
    forall i :: 0 <= i < |arrivals| && arrivals[i].0.sendRef != sendRef ==> SetApart(arrivals[i].0, d, sendRef)
  }

  predicate SetApart(p: Payload, d: Dispatch, sendRef: string) {
    p.sequence >= 0 && (Tail12(p.sendRef) != Tail12(sendRef) || Home(p.namespace) != Home(d.namespace))
  }

  lemma {:induction false} OwnPostsDoNotCompete(p: Payload, q: Payload, d: Dispatch, sendRef: string)
    requires IsPostOfItsNumber(p, d, sendRef) && IsPostOfItsNumber(q, d, sendRef) && Compete(p, q)
    ensures p == q
  {
    NamesCollide(p.sendRef, p.sequence, q.sendRef, q.sequence);
    NumberNamesThePost(p, d, sendRef);
    NumberNamesThePost(q, d, sendRef);
  }

  lemma {:induction false} OthersDoNotCompete(p: Payload, q: Payload, d: Dispatch, sendRef: string)
    requires SetApart(p, d, sendRef) && IsPostOfItsNumber(q, d, sendRef)
    ensures !Compete(p, q)
  {
    NamesCollide(p.sendRef, p.sequence, q.sendRef, q.sequence);
  }

  /** If every post of the only dispatch of a send arrives and no other send has a name of its own
      for them, all of them are stored, whatever the order and repeats. */
  lemma {:induction false} AllPostsAreStored(d: Dispatch, arrivals: seq<(Payload, bool)>, sendRef: string, k: nat)
    requires AllArrive(d, arrivals, sendRef) && OnlyDispatch(d, arrivals, sendRef) && NoRivals(d, arrivals, sendRef)
    requires k < |S.Posts(d.interaction)|
    ensures Named(PayloadOf(S.Posts(d.interaction)[k], d, sendRef)) in Deliver([], arrivals)
  {
    var post := PayloadOf(S.Posts(d.interaction)[k], d, sendRef);
    assert PostedBy(post, d, sendRef);
    PostsCarryTheirNumber(post, d, sendRef);
    assert (post, true) in arrivals;
    var i :| 0 <= i < |arrivals| && arrivals[i] == (post, true);
    forall j | 0 <= j < |arrivals| && Compete(arrivals[j].0, post) ensures arrivals[j].0 == post {
      if arrivals[j].0.sendRef == sendRef {
        PostsCarryTheirNumber(arrivals[j].0, d, sendRef);
        OwnPostsDoNotCompete(arrivals[j].0, post, d, sendRef);
      } else {
        OthersDoNotCompete(arrivals[j].0, post, d, sendRef);
      }
    }
    ArrivedIsStored(arrivals, i);
  }

  // ---- Listing ----

  predicate InOrder(xs: seq<Stored>) {
    forall i, j :: 0 <= i < j < |xs| ==> xs[i].payload.sequence <= xs[j].payload.sequence
  }

  /** No two with one sequence. */
  predicate Apart(xs: seq<Stored>) {
    forall i, j :: 0 <= i < j < |xs| ==> xs[i].payload.sequence != xs[j].payload.sequence
  }

  function Insert(x: Stored, xs: seq<Stored>): (ys: seq<Stored>)
    requires InOrder(xs)
    ensures InOrder(ys) && forall y :: y in ys <==> y == x || y in xs
    ensures |ys| == |xs| + 1
  {
    if xs == [] || x.payload.sequence < xs[0].payload.sequence then [x] + xs
    else
      var rest := Insert(x, xs[1..]);
      assert forall y :: y in xs <==> y == xs[0] || y in xs[1..];
      assert forall y :: y in rest ==> xs[0].payload.sequence <= y.payload.sequence;
      [xs[0]] + rest
  }

  /** The library's sort by sequence. */
  function SortBySequence(xs: seq<Stored>): (ys: seq<Stored>)
    ensures InOrder(ys) && forall y :: y in ys <==> y in xs
    ensures |ys| == |xs|
  {
    if xs == [] then []
    else
      assert forall y :: y in xs <==> y == xs[|xs| - 1] || y in xs[..|xs| - 1];
      Insert(xs[|xs| - 1], SortBySequence(xs[..|xs| - 1]))
  }

  lemma {:induction false} InsertKeepsApart(x: Stored, xs: seq<Stored>)
    requires InOrder(xs) && Apart(xs) && forall y :: y in xs ==> y.payload.sequence != x.payload.sequence
    ensures Apart(Insert(x, xs))
  {
    if xs != [] && x.payload.sequence >= xs[0].payload.sequence {
      InsertKeepsApart(x, xs[1..]);
      var rest := Insert(x, xs[1..]);
      forall y | y in rest ensures y.payload.sequence != xs[0].payload.sequence {
        if y != x { assert y in xs[1..]; }
      }
      assert Insert(x, xs) == [xs[0]] + rest;
    }
  }

  lemma {:induction false} SortKeepsApart(xs: seq<Stored>)
    requires Apart(xs)
    ensures Apart(SortBySequence(xs))
  {
    if xs != [] {
      var front, last := xs[..|xs| - 1], xs[|xs| - 1];
      SortKeepsApart(front);
      forall y | y in SortBySequence(front) ensures y.payload.sequence != last.payload.sequence {
        var i :| 0 <= i < |front| && front[i] == y;
        assert xs[i] == y;
      }
      InsertKeepsApart(last, SortBySequence(front));
    }
  }

  /** No two chunks of one send in one namespace share a sequence; every reachable store is so. */
  predicate DistinctSlots(chunks: seq<Stored>) {
    forall i, j :: 0 <= i < j < |chunks| ==> !SameSlot(chunks[i], chunks[j])
  }

  lemma {:induction false} ReachableStoresAreDistinct(arrivals: seq<(Payload, bool)>)
    ensures DistinctSlots(Deliver([], arrivals))
  {
    DeliveryIsWellStored(arrivals);
    var chunks := Deliver([], arrivals);
    forall i, j | 0 <= i < j < |chunks| ensures !SameSlot(chunks[i], chunks[j]) {
      OnePerSequence(chunks, i, j);
    }
  }

  /** list_chunks_for_send: the label selector, then the sort. */
  method ListChunksForSend(snapshot: seq<Stored>, sendRef: string, agentRef: string, namespace: string)
    returns (list: seq<Stored>)
    ensures InOrder(list)
    ensures forall s :: s in list <==>
              && s in snapshot && s.namespace == namespace
              && s.payload.sendRef == sendRef && s.payload.agentRef == agentRef
    ensures DistinctSlots(snapshot) ==> Apart(list)
  {
    var items: seq<Stored> := [];
    for k := 0 to |snapshot|
      invariant forall s :: s in items <==> s in snapshot[..k] && Mine(s, sendRef, agentRef, namespace)
      invariant DistinctSlots(snapshot) ==> Apart(items)
    {
      assert snapshot[..k + 1] == snapshot[..k] + [snapshot[k]];
      if Mine(snapshot[k], sendRef, agentRef, namespace) {
        if DistinctSlots(snapshot) {
          NewSlot(items, snapshot, k);
        }
        items := items + [snapshot[k]];
      }
    }
    assert snapshot[..|snapshot|] == snapshot;
    if DistinctSlots(snapshot) {
      SortKeepsApart(items);
    }
    list := SortBySequence(items);
  }

  lemma {:induction false} NewSlot(items: seq<Stored>, snapshot: seq<Stored>, k: nat)
    requires k < |snapshot| && DistinctSlots(snapshot) && Apart(items)
    requires forall s :: s in items ==>
               s in snapshot[..k] && s.namespace == snapshot[k].namespace
                 && s.payload.sendRef == snapshot[k].payload.sendRef
    ensures Apart(items + [snapshot[k]])
  {
    forall i | 0 <= i < |items| ensures items[i].payload.sequence != snapshot[k].payload.sequence {
      assert items[i] in items;
      var j :| 0 <= j < k && snapshot[j] == items[i];
      assert !SameSlot(snapshot[j], snapshot[k]);
    }
  }
}
