/** The agent server's chat requests (`server.py`): the bounded-concurrency queue, cancellation, and
    the history files that the queue and the synchronous endpoint share.

    asyncio switches tasks only at an `await`, so each event of `Step` is the code between two
    awaits. `ChatServer` is that code, segment by segment; its handler runs with any other
    events in between. */
module ChatQueue {
  import opened Wrappers

  datatype Item = Item(id: string, message: string)

  datatype Exchange = Exchange(user: string, assistant: string)

  /** Where the task of an item stands once it holds a permit. */
  datatype Job =
    | Holding(item: Item)
    | Streaming(item: Item, session: string)
    | Closing(item: Item)
    | Recorded(item: Item)

  datatype Author = Queued(id: string) | Direct

  /** One completed exchange and the file that now holds it. */
  datatype Entry = Entry(author: Author, session: string, exchange: Exchange)

  /** `accepted`, `finished`, `lost`, `cancelled` and `log` record what happened; the server itself
      keeps the other fields, `files` across restarts. */
  datatype World = World(
    limit: nat, permits: int, unfinished: int,
    queue: seq<Item>, waiting: map<string, Item>, running: map<string, Job>,
    active: map<string, string>, cancels: seq<string>, files: map<string, seq<Exchange>>,
    accepted: map<string, Item>, finished: set<string>, lost: set<string>, cancelled: set<string>,
    log: seq<Entry>)

  datatype Event =
    | Enqueue(item: Item)
    | Dispatch
    | Acquire(id: string)
    | Register(id: string, session: string)
    | Leave(id: string)
    | Record(id: string, session: string, response: string)
    | Finish(id: string)
    | CancelBegin(id: string)
    | CancelEnd(which: nat)
    | Chat(asked: string, resolved: string, message: string, response: string)
    | Restart(limit: nat)
  {
    /** A step of the handler of this item. */
    predicate Drives(item: string) {
      match this
      case Acquire(id) => id == item
      case Register(id, _) => id == item
      case Leave(id) => id == item
      case Record(id, _, _) => id == item
      case Finish(id) => id == item
      case _ => false
    }
  }

  const NO_RESPONSE: string := "No response"

  function Load(files: map<string, seq<Exchange>>, session: string): seq<Exchange> {
    if session in files then files[session] else []
  }

  function Append(files: map<string, seq<Exchange>>, session: string, exchange: Exchange): map<string, seq<Exchange>> {
    files[session := Load(files, session) + [exchange]]
  }

  /** The file of the id that was asked for moves to the id the runtime settled on, unless that
      one has a file already. */
  predicate Migrates(files: map<string, seq<Exchange>>, asked: string, resolved: string) {
    asked != "" && resolved != "" && asked != resolved && asked in files && resolved !in files
  }

  function Migrated(files: map<string, seq<Exchange>>, asked: string, resolved: string): map<string, seq<Exchange>> {
    if Migrates(files, asked, resolved) then (files - {asked})[resolved := files[asked]] else files
  }

  /** What was said in one session, in the order it was completed. */
  function Said(log: seq<Entry>, session: string): seq<Exchange> {
    if log == [] then []
    else
      var front, last := Said(log[..|log| - 1], session), log[|log| - 1];
      if last.session == session then front + [last.exchange] else front
  }

  function Moved(log: seq<Entry>, from: string, to: string): (moved: seq<Entry>)
    ensures |moved| == |log|
    ensures forall i :: 0 <= i < |log| ==>
              moved[i].author == log[i].author && moved[i].exchange == log[i].exchange
  {
    if log == [] then []
    else
      var last := log[|log| - 1];
      Moved(log[..|log| - 1], from, to) + [if last.session == from then last.(session := to) else last]
  }

  function Saved(w: World, entry: Entry): World {
    w.(files := Append(w.files, entry.session, entry.exchange), log := w.log + [entry])
  }

  function AfterMigration(w: World, asked: string, resolved: string): World {
    if Migrates(w.files, asked, resolved)
    then w.(files := Migrated(w.files, asked, resolved), log := Moved(w.log, asked, resolved))
    else w
  }

  function Ids(items: seq<Item>): seq<string> {
    seq(|items|, i requires 0 <= i < |items| => items[i].id)
  }

  function Rest(cancels: seq<string>, which: nat): seq<string>
    requires which < |cancels|
  {
    cancels[..which] + cancels[which + 1..]
  }

  // ---- The steps; one that does not fit the state changes nothing ----

  function Enqueued(w: World, item: Item): World {
    if item.id in w.accepted then w
    else w.(accepted := w.accepted[item.id := item], queue := w.queue + [item], unfinished := w.unfinished + 1)
  }

  function Dispatched(w: World): World {
    if w.queue == [] then w
    else w.(queue := w.queue[1..], waiting := w.waiting[w.queue[0].id := w.queue[0]])
  }

  function Acquired(w: World, id: string): World {
    if id !in w.waiting || w.permits <= 0 then w
    else w.(permits := w.permits - 1, waiting := w.waiting - {id}, running := w.running[id := Holding(w.waiting[id])])
  }

  function Joined(w: World, id: string, session: string): World {
    if id !in w.running || !w.running[id].Holding? then w
    else w.(running := w.running[id := Streaming(w.running[id].item, session)], active := w.active[id := session])
  }

  function Left(w: World, id: string): World {
    if id !in w.running || !w.running[id].Streaming? then w
    else w.(running := w.running[id := Closing(w.running[id].item)], active := w.active - {id})
  }

  function Completed(w: World, id: string, session: string, response: string): World {
    if id !in w.running || !w.running[id].Closing? then w
    else
      var item := w.running[id].item;
      Saved(w.(running := w.running[id := Recorded(item)]),
            Entry(Queued(id), session, Exchange(item.message, response)))
  }

  function Finished(w: World, id: string): World {
    if id !in w.running then w
    else w.(running := w.running - {id}, active := w.active - {id}, unfinished := w.unfinished - 1,
            permits := w.permits + 1, finished := w.finished + {id})
  }

  function CancelBegun(w: World, id: string): World {
    if id !in w.active then w else w.(cancels := w.cancels + [id])
  }

  function CancelEnded(w: World, which: nat): World {
    if which >= |w.cancels| then w
    else
      var id := w.cancels[which];
      w.(cancels := Rest(w.cancels, which), active := w.active - {id}, cancelled := w.cancelled + {id})
  }

  function Chatted(w: World, asked: string, resolved: string, message: string, response: string): World {
    Saved(AfterMigration(w, asked, resolved),
          Entry(Direct, Or(resolved, asked), Exchange(message, Or(response, NO_RESPONSE))))
  }

  function Restarted(w: World, limit: nat): World {
    w.(limit := limit, permits := limit, unfinished := 0, queue := [], waiting := map[], running := map[],
       active := map[], cancels := [], lost := LostOnRestart(w))
  }

  function LostOnRestart(w: World): set<string> {
    w.lost + InQueue(w.queue) + w.waiting.Keys + w.running.Keys
  }

  function InQueue(items: seq<Item>): set<string> {
    set i | 0 <= i < |items| :: items[i].id
  }

  function Step(w: World, e: Event): World {
    match e
    case Enqueue(item) => Enqueued(w, item)
    case Dispatch => Dispatched(w)
    case Acquire(id) => Acquired(w, id)
    case Register(id, session) => Joined(w, id, session)
    case Leave(id) => Left(w, id)
    case Record(id, session, response) => Completed(w, id, session, response)
    case Finish(id) => Finished(w, id)
    case CancelBegin(id) => CancelBegun(w, id)
    case CancelEnd(which) => CancelEnded(w, which)
    case Chat(asked, resolved, message, response) => Chatted(w, asked, resolved, message, response)
    case Restart(limit) => Restarted(w, limit)
  }

  function Start(limit: nat): World {
    World(limit, limit, 0, [], map[], map[], map[], [], map[], map[], {}, {}, {}, [])
  }

  function Run(w: World, events: seq<Event>): World {
    if events == [] then w else Step(Run(w, events[..|events| - 1]), events[|events| - 1])
  }

  // ---- What holds in every reachable state ----

  /** In how many places the item is: queue, waiting, running, finished, lost in a restart. */
  ghost function Places(w: World, id: string): nat {
    multiset(Ids(w.queue))[id] + One(id in w.waiting) + One(id in w.running) + One(id in w.finished) + One(id in w.lost)
  }

  /** Every accepted item is in one place and no other item is anywhere. */
  ghost predicate OnePlaceEach(w: World) {
    forall id :: Placed(w, id)
  }

  ghost predicate Placed(w: World, id: string) {
    Places(w, id) == One(id in w.accepted)
  }

  ghost predicate Located(w: World) {
    OnePlaceEach(w) && SameItems(w) && Counted(w)
  }

  ghost predicate SameItems(w: World) {
    && (forall i :: 0 <= i < |w.queue| ==> w.queue[i].id in w.accepted && w.accepted[w.queue[i].id] == w.queue[i])
    && (forall id :: id in w.waiting ==> id in w.accepted && w.accepted[id] == w.waiting[id])
    && (forall id :: id in w.running ==> id in w.accepted && w.accepted[id] == w.running[id].item)
    && (forall id :: id in w.accepted ==> w.accepted[id].id == id)
  }

  /** The semaphore counts the running items, and the queue's counter of unfinished items the rest. */
  predicate Counted(w: World) {
    && w.permits >= 0 && w.permits + |w.running| == w.limit
    && w.unfinished == |w.queue| + |w.waiting| + |w.running|
  }

  /** A registered session is the one its own running item streams from; a streaming item without
      one was cancelled. */
  predicate Registered(w: World) {
    && (forall id :: id in w.active ==> id in w.running && w.running[id] == Streaming(w.running[id].item, w.active[id]))
    && (forall id :: id in w.running && w.running[id].Streaming? && id !in w.active ==> id in w.cancelled)
  }

  /** Each history file is what was said in its session, in order. */
  ghost predicate Faithful(w: World) {
    forall s :: Load(w.files, s) == Said(w.log, s)
  }

  predicate HasEntry(log: seq<Entry>, id: string) {
    exists i :: 0 <= i < |log| && log[i].author == Queued(id)
  }

  predicate OneEntryEach(log: seq<Entry>) {
    forall i, j :: 0 <= i < j < |log| && log[i].author.Queued? ==> log[i].author != log[j].author
  }

  predicate OwnMessages(w: World) {
    forall i :: 0 <= i < |w.log| && w.log[i].author.Queued? ==>
        var id := w.log[i].author.id;
        id in w.accepted && w.log[i].exchange.user == w.accepted[id].message
  }

  /** An item is in the log once it has recorded, and never twice. */
  ghost predicate RecordedOnce(w: World) {
    && OneEntryEach(w.log) && OwnMessages(w)
    && (forall id :: HasEntry(w.log, id) ==> id in w.finished || id in w.lost || id in w.running)
    && (forall id :: id in w.running ==> (HasEntry(w.log, id) <==> w.running[id].Recorded?))
  }

  ghost predicate Inv(w: World) {
    Located(w) && Registered(w) && Faithful(w) && RecordedOnce(w)
  }

  // ---- Queue ----

  lemma {:induction false} IdsOf(items: seq<Item>, item: Item)
    ensures Ids(items + [item]) == Ids(items) + [item.id]
    ensures items != [] ==> Ids(items) == [items[0].id] + Ids(items[1..])
  {
  }

  lemma {:induction false} QueuedIsCounted(items: seq<Item>, i: nat)
    requires i < |items|
    ensures multiset(Ids(items))[items[i].id] > 0
  {
    assert Ids(items)[i] in multiset(Ids(items));
  }

  lemma {:induction false} CountedIsQueued(items: seq<Item>, id: string)
    ensures multiset(Ids(items))[id] > 0 ==> exists i :: 0 <= i < |items| && items[i].id == id
  {
    if multiset(Ids(items))[id] > 0 {
      assert id in Ids(items);
      var i :| 0 <= i < |items| && Ids(items)[i] == id;
    }
  }

  lemma {:induction false} Without<V>(m: map<string, V>, id: string)
    requires id in m
    ensures |m - {id}| == |m| - 1
  {
    assert (m - {id}).Keys == m.Keys - {id};
    assert |(m - {id}).Keys| == |m - {id}|;
  }

  lemma {:induction false} EnqueuedKeepsPlaceOfEach(w: World, item: Item)
    requires OnePlaceEach(w) && SameItems(w)
    ensures OnePlaceEach(Enqueued(w, item))
  {
    IdsOf(w.queue, item);
    assert Placed(w, item.id);
    var v := Enqueued(w, item);
    forall other ensures Placed(v, other) {
      assert Placed(w, other);
    }
  }

  lemma {:induction false} EnqueuedKeepsItems(w: World, item: Item)
    requires Located(w)
    ensures SameItems(Enqueued(w, item)) && Counted(Enqueued(w, item))
  {
    assert Placed(w, item.id);
  }

  lemma {:induction false} EnqueuedKeepsPlaces(w: World, item: Item)
    requires Located(w)
    ensures Located(Enqueued(w, item))
  {
    EnqueuedKeepsPlaceOfEach(w, item);
    EnqueuedKeepsItems(w, item);
  }

  lemma {:induction false} DispatchedKeepsPlaces(w: World)
    requires Located(w)
    ensures Located(Dispatched(w))
  {
    if w.queue != [] {
      IdsOf(w.queue, w.queue[0]);
      QueuedIsCounted(w.queue, 0);
      assert Placed(w, w.queue[0].id);
    }
    var v := Dispatched(w);
    forall other ensures Placed(v, other) {
      assert Placed(w, other);
    }
  }

  lemma {:induction false} AcquiredKeepsPlaceOfEach(w: World, id: string)
    requires OnePlaceEach(w) && SameItems(w)
    ensures OnePlaceEach(Acquired(w, id))
  {
    assert Placed(w, id);
    var v := Acquired(w, id);
    forall other ensures Placed(v, other) {
      assert Placed(w, other);
    }
  }

  lemma {:induction false} AcquiredKeepsItems(w: World, id: string)
    requires Located(w)
    ensures SameItems(Acquired(w, id)) && Counted(Acquired(w, id))
  {
    assert Placed(w, id);
    if id in w.waiting { Without(w.waiting, id); }
  }

  lemma {:induction false} AcquiredKeepsPlaces(w: World, id: string)
    requires Located(w)
    ensures Located(Acquired(w, id))
  {
    AcquiredKeepsPlaceOfEach(w, id);
    AcquiredKeepsItems(w, id);
  }

  lemma {:induction false} FinishedKeepsPlaces(w: World, id: string)
    requires Located(w)
    ensures Located(Finished(w, id))
  {
    assert Placed(w, id);
    if id in w.running { Without(w.running, id); }
    var v := Finished(w, id);
    forall other ensures Placed(v, other) {
      assert Placed(w, other);
    }
  }

  lemma {:induction false} RestartedKeepsPlaceOfEach(w: World, limit: nat)
    requires OnePlaceEach(w) && SameItems(w)
    ensures OnePlaceEach(Restarted(w, limit))
  {
    var v := Restarted(w, limit);
    forall id ensures Placed(v, id) {
      assert Placed(w, id);
      CountedIsQueued(w.queue, id);
      if id in InQueue(w.queue) {
        var i :| 0 <= i < |w.queue| && w.queue[i].id == id;
        QueuedIsCounted(w.queue, i);
      }
    }
  }

  lemma {:induction false} RestartedKeepsItems(w: World, limit: nat)
    requires Located(w)
    ensures SameItems(Restarted(w, limit)) && Counted(Restarted(w, limit))
  {
  }

  lemma {:induction false} RestartedKeepsPlaces(w: World, limit: nat)
    requires Located(w)
    ensures Located(Restarted(w, limit))
  {
    RestartedKeepsPlaceOfEach(w, limit);
    RestartedKeepsItems(w, limit);
  }

  lemma {:induction false} EnqueuedKeepsSessions(w: World, item: Item)
    requires Located(w) && Registered(w)
    ensures Registered(Enqueued(w, item))
  {
    assert Placed(w, item.id);
  }

  lemma {:induction false} EnqueuedKeepsRecords(w: World, item: Item)
    requires Located(w) && RecordedOnce(w)
    ensures RecordedOnce(Enqueued(w, item))
  {
    assert Placed(w, item.id);
  }

  lemma {:induction false} DispatchedKeepsSessions(w: World)
    requires Located(w) && Registered(w)
    ensures Registered(Dispatched(w))
  {
    if w.queue != [] {
      QueuedIsCounted(w.queue, 0);
      assert Placed(w, w.queue[0].id);
    }
  }

  lemma {:induction false} DispatchedKeepsRecords(w: World)
    requires Located(w) && RecordedOnce(w)
    ensures RecordedOnce(Dispatched(w))
  {
    if w.queue != [] {
      QueuedIsCounted(w.queue, 0);
      assert Placed(w, w.queue[0].id);
    }
  }

  lemma {:induction false} AcquiredKeepsSessions(w: World, id: string)
    requires Located(w) && Registered(w)
    ensures Registered(Acquired(w, id))
  {
    assert Placed(w, id);
  }

  lemma {:induction false} AcquiredKeepsRecords(w: World, id: string)
    requires Located(w) && RecordedOnce(w)
    ensures RecordedOnce(Acquired(w, id))
  {
    assert Placed(w, id);
  }

  lemma {:induction false} FinishedKeepsSessions(w: World, id: string)
    requires Located(w) && Registered(w)
    ensures Registered(Finished(w, id))
  {
  }

  lemma {:induction false} FinishedKeepsRecords(w: World, id: string)
    requires Located(w) && RecordedOnce(w)
    ensures RecordedOnce(Finished(w, id))
  {
  }

  lemma {:induction false} RestartedKeepsSessions(w: World, limit: nat)
    requires Located(w) && Registered(w)
    ensures Registered(Restarted(w, limit))
  {
  }

  lemma {:induction false} RestartedKeepsRecords(w: World, limit: nat)
    requires Located(w) && RecordedOnce(w)
    ensures RecordedOnce(Restarted(w, limit))
  {
  }

  /** The steps that change no item's place. */
  predicate SamePlaces(w: World, v: World) {
    && v.limit == w.limit && v.permits == w.permits && v.unfinished == w.unfinished
    && v.queue == w.queue && v.waiting == w.waiting && v.running.Keys == w.running.Keys
    && (forall id :: id in w.running ==> v.running[id].item == w.running[id].item)
    && v.accepted == w.accepted && v.finished == w.finished && v.lost == w.lost
  }

  lemma {:induction false} SamePlacesKeepPlaces(w: World, v: World)
    requires Located(w) && SamePlaces(w, v)
    ensures Located(v)
  {
    assert |v.running| == |v.running.Keys| && |w.running| == |w.running.Keys|;
    forall id ensures Placed(v, id) {
      assert Placed(w, id);
    }
  }

  lemma {:induction false} JoinedKeepsSessions(w: World, id: string, session: string)
    requires Registered(w)
    ensures Registered(Joined(w, id, session))
  {
  }

  lemma {:induction false} JoinedKeepsRecords(w: World, id: string, session: string)
    requires RecordedOnce(w)
    ensures RecordedOnce(Joined(w, id, session))
  {
  }

  lemma {:induction false} JoinedMovesNothing(w: World, id: string, session: string)
    ensures SamePlaces(w, Joined(w, id, session))
  {
  }

  lemma {:induction false} LeftKeepsSessions(w: World, id: string)
    requires Registered(w)
    ensures Registered(Left(w, id))
  {
  }

  lemma {:induction false} LeftKeepsRecords(w: World, id: string)
    requires RecordedOnce(w)
    ensures RecordedOnce(Left(w, id))
  {
  }

  lemma {:induction false} LeftMovesNothing(w: World, id: string)
    ensures SamePlaces(w, Left(w, id))
  {
  }

  lemma {:induction false} CancelBegunKeepsSessions(w: World, id: string)
    requires Registered(w)
    ensures Registered(CancelBegun(w, id))
  {
  }

  lemma {:induction false} CancelBegunKeepsRecords(w: World, id: string)
    requires RecordedOnce(w)
    ensures RecordedOnce(CancelBegun(w, id))
  {
  }

  lemma {:induction false} CancelBegunMovesNothing(w: World, id: string)
    ensures SamePlaces(w, CancelBegun(w, id))
  {
  }

  lemma {:induction false} CancelEndedKeepsSessions(w: World, which: nat)
    requires Registered(w)
    ensures Registered(CancelEnded(w, which))
  {
  }

  lemma {:induction false} CancelEndedKeepsRecords(w: World, which: nat)
    requires RecordedOnce(w)
    ensures RecordedOnce(CancelEnded(w, which))
  {
  }

  lemma {:induction false} CancelEndedMovesNothing(w: World, which: nat)
    ensures SamePlaces(w, CancelEnded(w, which))
  {
  }

  // ---- Histories ----

  lemma {:induction false} SaidAppends(log: seq<Entry>, entry: Entry, s: string)
    ensures Said(log + [entry], s) == if entry.session == s then Said(log, s) + [entry.exchange] else Said(log, s)
  {
    assert (log + [entry])[..|log|] == log;
  }

  /** Renaming a file onto a session in which nothing was said moves what was said there. */
  lemma {:induction false} SaidMoves(log: seq<Entry>, from: string, to: string, s: string)
    requires from != to && Said(log, to) == []
    ensures Said(Moved(log, from, to), s) == if s == to then Said(log, from) else if s == from then [] else Said(log, s)
  {
    if log != [] {
      var front := log[..|log| - 1];
      SaidMoves(front, from, to, s);
      assert Moved(log, from, to)[..|log| - 1] == Moved(front, from, to);
    }
  }

  lemma {:induction false} SavingKeepsFaith(w: World, entry: Entry)
    requires Faithful(w)
    ensures Faithful(Saved(w, entry))
  {
    forall s ensures Load(Saved(w, entry).files, s) == Said(w.log + [entry], s) {
      SaidAppends(w.log, entry, s);
      assert Load(w.files, s) == Said(w.log, s);
    }
  }

  lemma {:induction false} MigrationKeepsFaith(w: World, asked: string, resolved: string)
    requires Faithful(w)
    ensures Faithful(AfterMigration(w, asked, resolved))
  {
    var v := AfterMigration(w, asked, resolved);
    if Migrates(w.files, asked, resolved) {
      assert Load(w.files, resolved) == Said(w.log, resolved);
      forall s ensures Load(v.files, s) == Said(v.log, s) {
        SaidMoves(w.log, asked, resolved, s);
        assert Load(w.files, s) == Said(w.log, s) && Load(w.files, asked) == Said(w.log, asked);
      }
    }
  }

  lemma {:induction false} StepKeepsFaith(w: World, e: Event)
    requires Faithful(w)
    ensures Faithful(Step(w, e))
  {
    match e {
      case Record(id, session, response) =>
        if id in w.running && w.running[id].Closing? {
          var item := w.running[id].item;
          SavingKeepsFaith(w.(running := w.running[id := Recorded(item)]),
                           Entry(Queued(id), session, Exchange(item.message, response)));
        }
      case Chat(asked, resolved, message, response) =>
        MigrationKeepsFaith(w, asked, resolved);
        SavingKeepsFaith(AfterMigration(w, asked, resolved),
                         Entry(Direct, Or(resolved, asked), Exchange(message, Or(response, NO_RESPONSE))));
      case _ =>
    }
  }

  /** A log with the same authors has the same entries per item; one more entry adds its author. */
  lemma {:induction false} EntriesAfter(log: seq<Entry>, moved: seq<Entry>, entry: Entry, id: string)
    requires |moved| == |log| && forall i :: 0 <= i < |log| ==> moved[i].author == log[i].author
    ensures HasEntry(moved + [entry], id) <==> HasEntry(log, id) || entry.author == Queued(id)
  {
    var grown := moved + [entry];
    if i :| 0 <= i < |log| && log[i].author == Queued(id) { assert grown[i].author == Queued(id); }
    if entry.author == Queued(id) { assert grown[|log|].author == Queued(id); }
    if i :| 0 <= i < |grown| && grown[i].author == Queued(id) {
      if i < |log| { assert log[i].author == Queued(id); }
    }
  }

  lemma {:induction false} AppendingKeepsRecords(w: World, moved: seq<Entry>, entry: Entry)
    requires RecordedOnce(w)
    requires |moved| == |w.log|
    requires forall i :: 0 <= i < |w.log| ==>
               moved[i].author == w.log[i].author && moved[i].exchange == w.log[i].exchange
    requires entry.author.Queued? ==>
               var id := entry.author.id;
               !HasEntry(w.log, id) && id in w.accepted && entry.exchange.user == w.accepted[id].message
    ensures OneEntryEach(moved + [entry]) && OwnMessages(w.(log := moved + [entry]))
    ensures forall id :: HasEntry(moved + [entry], id) <==> HasEntry(w.log, id) || entry.author == Queued(id)
  {
    forall id ensures HasEntry(moved + [entry], id) <==> HasEntry(w.log, id) || entry.author == Queued(id) {
      EntriesAfter(w.log, moved, entry, id);
    }
    var grown := moved + [entry];
    forall i, j | 0 <= i < j < |grown| && grown[i].author.Queued? ensures grown[i].author != grown[j].author {
      assert w.log[i].author == grown[i].author;
      if j < |w.log| {
        assert w.log[j].author == grown[j].author;
      } else {
        assert HasEntry(w.log, grown[i].author.id);
      }
    }
  }

  lemma {:induction false} CompletedKeepsSessions(w: World, id: string, session: string, response: string)
    requires Registered(w)
    ensures Registered(Completed(w, id, session, response))
  {
  }

  lemma {:induction false} CompletedKeepsRecords(w: World, id: string, session: string, response: string)
    requires SameItems(w) && RecordedOnce(w)
    ensures RecordedOnce(Completed(w, id, session, response))
  {
    if id in w.running && w.running[id].Closing? {
      AppendingKeepsRecords(w, w.log, Entry(Queued(id), session, Exchange(w.running[id].item.message, response)));
    }
  }

  lemma {:induction false} CompletedMovesNothing(w: World, id: string, session: string, response: string)
    ensures SamePlaces(w, Completed(w, id, session, response))
  {
  }

  lemma {:induction false} ChattedKeepsSessions(
      w: World, asked: string, resolved: string, message: string, response: string)
    requires Registered(w)
    ensures Registered(Chatted(w, asked, resolved, message, response))
  {
  }

  lemma {:induction false} ChattedKeepsRecords(
      w: World, asked: string, resolved: string, message: string, response: string)
    requires RecordedOnce(w)
    ensures RecordedOnce(Chatted(w, asked, resolved, message, response))
  {
    AppendingKeepsRecords(w, AfterMigration(w, asked, resolved).log,
                          Entry(Direct, Or(resolved, asked), Exchange(message, Or(response, NO_RESPONSE))));
  }

  lemma {:induction false} ChattedMovesNothing(
      w: World, asked: string, resolved: string, message: string, response: string)
    ensures SamePlaces(w, Chatted(w, asked, resolved, message, response))
  {
  }

  lemma {:induction false} EnqueuedIsGood(w: World, item: Item)
    requires Inv(w)
    ensures Inv(Enqueued(w, item)) && Inv(Step(w, Enqueue(item)))
  {
    EnqueuedKeepsPlaces(w, item);
    EnqueuedKeepsSessions(w, item);
    EnqueuedKeepsRecords(w, item);
    StepKeepsFaith(w, Enqueue(item));
  }

  lemma {:induction false} DispatchedIsGood(w: World)
    requires Inv(w)
    ensures Inv(Dispatched(w)) && Inv(Step(w, Dispatch))
  {
    DispatchedKeepsPlaces(w);
    DispatchedKeepsSessions(w);
    DispatchedKeepsRecords(w);
    StepKeepsFaith(w, Dispatch);
  }

  lemma {:induction false} AcquiredIsGood(w: World, id: string)
    requires Inv(w)
    ensures Inv(Acquired(w, id)) && Inv(Step(w, Acquire(id)))
  {
    AcquiredKeepsPlaces(w, id);
    AcquiredKeepsSessions(w, id);
    AcquiredKeepsRecords(w, id);
    StepKeepsFaith(w, Acquire(id));
  }

  lemma {:induction false} JoinedIsGood(w: World, id: string, session: string)
    requires Inv(w)
    ensures Inv(Joined(w, id, session)) && Inv(Step(w, Register(id, session)))
  {
    JoinedMovesNothing(w, id, session);
    SamePlacesKeepPlaces(w, Joined(w, id, session));
    JoinedKeepsSessions(w, id, session);
    JoinedKeepsRecords(w, id, session);
    StepKeepsFaith(w, Register(id, session));
  }

  lemma {:induction false} LeftIsGood(w: World, id: string)
    requires Inv(w)
    ensures Inv(Left(w, id)) && Inv(Step(w, Leave(id)))
  {
    LeftMovesNothing(w, id);
    SamePlacesKeepPlaces(w, Left(w, id));
    LeftKeepsSessions(w, id);
    LeftKeepsRecords(w, id);
    StepKeepsFaith(w, Leave(id));
  }

  lemma {:induction false} CompletedIsGood(w: World, id: string, session: string, response: string)
    requires Inv(w)
    ensures Inv(Completed(w, id, session, response)) && Inv(Step(w, Record(id, session, response)))
  {
    CompletedMovesNothing(w, id, session, response);
    SamePlacesKeepPlaces(w, Completed(w, id, session, response));
    CompletedKeepsSessions(w, id, session, response);
    CompletedKeepsRecords(w, id, session, response);
    StepKeepsFaith(w, Record(id, session, response));
  }

  lemma {:induction false} FinishedIsGood(w: World, id: string)
    requires Inv(w)
    ensures Inv(Finished(w, id)) && Inv(Step(w, Finish(id)))
  {
    FinishedKeepsPlaces(w, id);
    FinishedKeepsSessions(w, id);
    FinishedKeepsRecords(w, id);
    StepKeepsFaith(w, Finish(id));
  }

  lemma {:induction false} CancelBegunIsGood(w: World, id: string)
    requires Inv(w)
    ensures Inv(CancelBegun(w, id)) && Inv(Step(w, CancelBegin(id)))
  {
    CancelBegunMovesNothing(w, id);
    SamePlacesKeepPlaces(w, CancelBegun(w, id));
    CancelBegunKeepsSessions(w, id);
    CancelBegunKeepsRecords(w, id);
    StepKeepsFaith(w, CancelBegin(id));
  }

  lemma {:induction false} CancelEndedIsGood(w: World, which: nat)
    requires Inv(w)
    ensures Inv(CancelEnded(w, which)) && Inv(Step(w, CancelEnd(which)))
  {
    CancelEndedMovesNothing(w, which);
    SamePlacesKeepPlaces(w, CancelEnded(w, which));
    CancelEndedKeepsSessions(w, which);
    CancelEndedKeepsRecords(w, which);
    StepKeepsFaith(w, CancelEnd(which));
  }

  lemma {:induction false} ChattedIsGood(
      w: World, asked: string, resolved: string, message: string, response: string)
    requires Inv(w)
    ensures Inv(Chatted(w, asked, resolved, message, response))
    ensures Inv(Step(w, Chat(asked, resolved, message, response)))
  {
    ChattedMovesNothing(w, asked, resolved, message, response);
    SamePlacesKeepPlaces(w, Chatted(w, asked, resolved, message, response));
    ChattedKeepsSessions(w, asked, resolved, message, response);
    ChattedKeepsRecords(w, asked, resolved, message, response);
    StepKeepsFaith(w, Chat(asked, resolved, message, response));
  }

  lemma {:induction false} RestartedIsGood(w: World, limit: nat)
    requires Inv(w)
    ensures Inv(Restarted(w, limit)) && Inv(Step(w, Restart(limit)))
  {
    RestartedKeepsPlaces(w, limit);
    RestartedKeepsSessions(w, limit);
    RestartedKeepsRecords(w, limit);
    StepKeepsFaith(w, Restart(limit));
  }

  lemma {:induction false} StepKeepsInv(w: World, e: Event)
    requires Inv(w)
    ensures Inv(Step(w, e))
  {
    match e {
      case Enqueue(item) => EnqueuedIsGood(w, item);
      case Dispatch => DispatchedIsGood(w);
      case Acquire(id) => AcquiredIsGood(w, id);
      case Register(id, session) => JoinedIsGood(w, id, session);
      case Leave(id) => LeftIsGood(w, id);
      case Record(id, session, response) => CompletedIsGood(w, id, session, response);
      case Finish(id) => FinishedIsGood(w, id);
      case CancelBegin(id) => CancelBegunIsGood(w, id);
      case CancelEnd(which) => CancelEndedIsGood(w, which);
      case Chat(asked, resolved, message, response) => ChattedIsGood(w, asked, resolved, message, response);
      case Restart(limit) => RestartedIsGood(w, limit);
    }
  }

  lemma {:induction false} RunKeepsInv(w: World, events: seq<Event>)
    requires Inv(w)
    ensures Inv(Run(w, events))
  {
    if events != [] {
      RunKeepsInv(w, events[..|events| - 1]);
      StepKeepsInv(Run(w, events[..|events| - 1]), events[|events| - 1]);
    }
  }

  lemma {:induction false} StartIsGood(limit: nat)
    ensures Inv(Start(limit))
  {
    forall id ensures Placed(Start(limit), id) {
    }
  }

  // ---- Main results ----

  /** At most `limit` items run, the semaphore never goes below zero, and a registered session is
      the one its running item streams from. */
  lemma {:induction false} ConcurrencyIsBounded(limit: nat, events: seq<Event>)
    ensures var w := Run(Start(limit), events);
            && |w.running| <= w.limit && w.permits == w.limit - |w.running|
            && w.unfinished == |w.queue| + |w.waiting| + |w.running|
            && forall id :: id in w.active ==>
                 id in w.running && id in w.accepted && w.running[id] == Streaming(w.accepted[id], w.active[id])
  {
    StartIsGood(limit);
    RunKeepsInv(Start(limit), events);
  }

  /** An accepted item is in exactly one place; an item never accepted is nowhere. */
  lemma {:induction false} EveryItemIsInOnePlace(limit: nat, events: seq<Event>, id: string)
    ensures var w := Run(Start(limit), events);
            Places(w, id) == One(id in w.accepted)
  {
    StartIsGood(limit);
    RunKeepsInv(Start(limit), events);
    assert Placed(Run(Start(limit), events), id);
  }

  /** The exchange of a queued item is in the log at most once, with the item's own message; while
      the item runs, exactly when its task has recorded it. */
  lemma {:induction false} ItemsAreRecordedOnce(limit: nat, events: seq<Event>, id: string)
    ensures var w := Run(Start(limit), events);
            && (forall i, j :: 0 <= i < j < |w.log| && w.log[i].author == Queued(id) ==> w.log[j].author != Queued(id))
            && (forall i :: 0 <= i < |w.log| && w.log[i].author == Queued(id) ==>
                  id in w.accepted && w.log[i].exchange.user == w.accepted[id].message)
            && (id in w.running ==> (HasEntry(w.log, id) <==> w.running[id].Recorded?))
  {
    StartIsGood(limit);
    RunKeepsInv(Start(limit), events);
  }

  function Exchanges(log: seq<Entry>): seq<Exchange> {
    seq(|log|, i requires 0 <= i < |log| => log[i].exchange)
  }

  /** The contents of the named files, one after the other. */
  function Gather(files: map<string, seq<Exchange>>, names: seq<string>): seq<Exchange> {
    if names == [] then [] else Load(files, names[0]) + Gather(files, names[1..])
  }

  predicate Distinct(names: seq<string>) {
    forall i, j :: 0 <= i < j < |names| ==> names[i] != names[j]
  }

  /** All files together hold every completed exchange exactly once; each file holds those of its
      session, in the order they were completed. */
  lemma {:induction false} HistoriesHoldEachExchangeOnce(limit: nat, events: seq<Event>, names: seq<string>)
    requires Distinct(names)
    requires forall name :: name in Run(Start(limit), events).files ==> name in names
    ensures var w := Run(Start(limit), events);
            && multiset(Gather(w.files, names)) == multiset(Exchanges(w.log))
            && forall s :: Load(w.files, s) == Said(w.log, s)
  {
    StartIsGood(limit);
    RunKeepsInv(Start(limit), events);
    var w := Run(Start(limit), events);
    forall i | 0 <= i < |w.log| ensures w.log[i].session in names {
      SaidHas(w.log, i);
      assert Load(w.files, w.log[i].session) == Said(w.log, w.log[i].session);
    }
    GatherIsLog(w.files, w.log, names);
  }

  lemma {:induction false} SaidHas(log: seq<Entry>, i: nat)
    requires i < |log|
    ensures Said(log, log[i].session) != []
  {
    if i < |log| - 1 {
      SaidHas(log[..|log| - 1], i);
    }
  }

  lemma {:induction false} GatherIsLog(files: map<string, seq<Exchange>>, log: seq<Entry>, names: seq<string>)
    requires Distinct(names) && forall s :: Load(files, s) == Said(log, s)
    requires forall i :: 0 <= i < |log| ==> log[i].session in names
    ensures multiset(Gather(files, names)) == multiset(Exchanges(log))
  {
    GatherSame(files, log, names);
    GatherSaid(log, names);
  }

  function GatherFromLog(log: seq<Entry>, names: seq<string>): seq<Exchange> {
    if names == [] then [] else Said(log, names[0]) + GatherFromLog(log, names[1..])
  }

  lemma {:induction false} GatherSame(files: map<string, seq<Exchange>>, log: seq<Entry>, names: seq<string>)
    requires forall s :: Load(files, s) == Said(log, s)
    ensures Gather(files, names) == GatherFromLog(log, names)
  {
    if names != [] {
      assert Load(files, names[0]) == Said(log, names[0]);
      GatherSame(files, log, names[1..]);
    }
  }

  lemma {:induction false} GatherSaid(log: seq<Entry>, names: seq<string>)
    requires Distinct(names) && forall i :: 0 <= i < |log| ==> log[i].session in names
    ensures multiset(GatherFromLog(log, names)) == multiset(Exchanges(log))
  {
    if log == [] {
      GatherNothing(names);
    } else {
      var front, last := log[..|log| - 1], log[|log| - 1];
      assert forall i :: 0 <= i < |front| ==> front[i] == log[i];
      GatherSaid(front, names);
      assert front + [last] == log;
      GatherOneMore(front, last, names);
      assert Exchanges(log) == Exchanges(front) + [last.exchange];
    }
  }

  lemma {:induction false} GatherNothing(names: seq<string>)
    ensures GatherFromLog([], names) == []
  {
    if names != [] {
      GatherNothing(names[1..]);
    }
  }

  lemma {:induction false} GatherOneMore(log: seq<Entry>, entry: Entry, names: seq<string>)
    requires Distinct(names)
    ensures multiset(GatherFromLog(log + [entry], names)) ==
            multiset(GatherFromLog(log, names))
            + if entry.session in names then multiset{entry.exchange} else multiset{}
  {
    if names != [] {
      SaidAppends(log, entry, names[0]);
      GatherOneMore(log, entry, names[1..]);
      assert entry.session in names <==> entry.session == names[0] || entry.session in names[1..];
      assert names[0] !in names[1..];
    }
  }

  /** Of the items queued in `w` the first `taken` are gone; the others stand in front in the same
      order, and behind them are only items accepted since. */
  predicate Served(w: World, v: World, taken: nat, added: seq<Item>) {
    && taken <= |w.queue| && v.queue == w.queue[taken..] + added
    && (forall i :: 0 <= i < |added| ==> added[i].id !in w.accepted)
    && w.accepted.Keys <= v.accepted.Keys
  }

  /** The queue is served first come, first served, whatever happens short of a restart. */
  lemma {:induction false} FirstComeFirstServed(w: World, events: seq<Event>) returns (taken: nat, added: seq<Item>)
    requires forall i :: 0 <= i < |events| ==> !events[i].Restart?
    ensures Served(w, Run(w, events), taken, added)
  {
    taken, added := 0, [];
    if events != [] {
      var front, e := events[..|events| - 1], events[|events| - 1];
      taken, added := FirstComeFirstServed(w, front);
      taken, added := ServedNext(w, Run(w, front), e, taken, added);
    }
  }

  lemma {:induction false} QueueChanges(v: World, e: Event)
    requires !e.Restart?
    ensures v.accepted.Keys <= Step(v, e).accepted.Keys
    ensures Step(v, e).queue == if e.Enqueue? && e.item.id !in v.accepted then v.queue + [e.item]
                                else if e.Dispatch? && v.queue != [] then v.queue[1..]
                                else v.queue
  {
  }

  lemma {:induction false} ServedNext(w: World, v: World, e: Event, taken: nat, added: seq<Item>)
    returns (taken': nat, added': seq<Item>)
    requires Served(w, v, taken, added) && !e.Restart?
    ensures Served(w, Step(v, e), taken', added')
  {
    QueueChanges(v, e);
    taken', added' := taken, added;
    if e.Enqueue? && e.item.id !in v.accepted {
      added' := added + [e.item];
    } else if e.Dispatch? && v.queue != [] {
      taken', added' := HeadTaken(w, v, taken, added);
    }
  }

  lemma {:induction false} HeadTaken(w: World, v: World, taken: nat, added: seq<Item>)
    returns (taken': nat, added': seq<Item>)
    requires Served(w, v, taken, added) && v.queue != []
    ensures Served(w, v.(queue := v.queue[1..]), taken', added')
  {
    if taken < |w.queue| {
      taken', added' := taken + 1, added;
    } else {
      assert v.queue[1..] == w.queue[taken..] + added[1..];
      taken', added' := taken, added[1..];
    }
  }

  predicate Begins(first: seq<Exchange>, whole: seq<Exchange>) { first <= whole }

  /** What the file holds is the beginning of some file later. */
  ghost predicate LivesOn(files: map<string, seq<Exchange>>, s: string, later: map<string, seq<Exchange>>) {
    exists t :: Begins(Load(files, s), Load(later, t))
  }

  /** What the history files hold is never lost, reordered or altered by what happens later,
      restarts included: each stays the beginning of some file, if not under the same name then
      under the one it migrated to. */
  lemma {:induction false} ExchangesAreKept(w: World, events: seq<Event>)
    ensures forall s :: LivesOn(w.files, s, Run(w, events).files)
  {
    forall s ensures LivesOn(w.files, s, Run(w, events).files) {
      var t := FileIsKept(w, events, s);
    }
  }

  lemma {:induction false} FileIsKept(w: World, events: seq<Event>, s: string) returns (t: string)
    ensures Begins(Load(w.files, s), Load(Run(w, events).files, t))
  {
    t := s;
    if events != [] {
      var front, last := events[..|events| - 1], events[|events| - 1];
      t := FileIsKept(w, front, s);
      t := StepKeepsFile(Run(w, front), last, t);
    }
  }

  lemma {:induction false} StepKeepsFile(w: World, e: Event, s: string) returns (t: string)
    ensures Begins(Load(w.files, s), Load(Step(w, e).files, t))
  {
    t := s;
    if e.Chat? {
      t := ChatKeepsFile(w, e.asked, e.resolved, e.message, e.response, s);
    }
  }

  lemma {:induction false} ChatKeepsFile(
      w: World, asked: string, resolved: string, message: string, response: string, s: string) returns (t: string)
    ensures Begins(Load(w.files, s), Load(Chatted(w, asked, resolved, message, response).files, t))
  {
    t := if Migrates(w.files, asked, resolved) && s == asked then resolved else s;
  }

  // ---- The handler among other tasks ----

  predicate LeavesAlone(events: seq<Event>, id: string) {
    forall i :: 0 <= i < |events| ==> !events[i].Drives(id) && !events[i].Restart?
  }

  lemma {:induction false} OthersLeaveJob(w: World, events: seq<Event>, id: string)
    requires id in w.running && LeavesAlone(events, id)
    ensures id in Run(w, events).running && Run(w, events).running[id] == w.running[id]
  {
    if events != [] {
      OthersLeaveJob(w, events[..|events| - 1], id);
      StepLeavesJob(Run(w, events[..|events| - 1]), events[|events| - 1], id);
    }
  }

  lemma {:induction false} StepLeavesJob(w: World, e: Event, id: string)
    requires id in w.running && !e.Drives(id) && !e.Restart?
    ensures id in Step(w, e).running && Step(w, e).running[id] == w.running[id]
  {
  }

  /** How the run of one item goes: its session cannot be begun, its message cannot be sent,
      its end fails, or it completes. */
  datatype Fate = NoSession | NoReply | NoEnd | Completes

  /** One segment of the handler, and what other tasks do at the await after it. */
  function Segment(w: World, e: Event, others: seq<Event>): World { Run(Step(w, e), others) }

  /** The handler of one item up to its `finally`. */
  function Worked(w: World, id: string, session: string, resolved: string, response: string, fate: Fate,
                  turns: seq<seq<Event>>): World
    requires |turns| == 4
  {
    var begun := Segment(w, Acquire(id), turns[0]);
    if fate.NoSession? then begun
    else
      var streamed := Segment(begun, Register(id, session), turns[1]);
      Closed(streamed, id, resolved, response, fate, turns[2], turns[3])
  }

  /** From the end of the wait on. */
  function Closed(streamed: World, id: string, resolved: string, response: string, fate: Fate,
                  others: seq<Event>, last: seq<Event>): World
  {
    if fate.NoReply? then Step(streamed, Leave(id))
    else
      var left := Segment(streamed, Leave(id), others);
      if fate.NoEnd? then left else Segment(left, Record(id, resolved, response), last)
  }

  function Handled(w: World, id: string, session: string, resolved: string, response: string, fate: Fate,
                   turns: seq<seq<Event>>): World
    requires |turns| == 4
  {
    Finished(Worked(w, id, session, resolved, response, fate, turns), id)
  }

  /** No chat request asks for this session, so its file is not renamed. */
  predicate NeverAsked(events: seq<Event>, session: string) {
    forall i :: 0 <= i < |events| ==> !(events[i].Chat? && events[i].asked == session)
  }

  /** Some file holds the exchange, and it is this session's file if no other task may have renamed that. */
  ghost predicate Stored(files: map<string, seq<Exchange>>, exchange: Exchange, session: string, others: seq<Event>) {
    && (exists t :: exchange in Load(files, t))
    && (NeverAsked(others, session) ==> exchange in Load(files, session))
  }

  lemma {:induction false} FileStays(w: World, events: seq<Event>, s: string)
    requires NeverAsked(events, s)
    ensures Begins(Load(w.files, s), Load(Run(w, events).files, s))
  {
    if events != [] {
      FileStays(w, events[..|events| - 1], s);
      StepLeavesFile(Run(w, events[..|events| - 1]), events[|events| - 1], s);
    }
  }

  lemma {:induction false} StepLeavesFile(w: World, e: Event, s: string)
    requires !(e.Chat? && e.asked == s)
    ensures Begins(Load(w.files, s), Load(Step(w, e).files, s))
  {
  }

  /** The recording segment adds one exchange to the file of the session and touches no other. */
  lemma {:induction false} RecordingAddsToOneFile(
      w: World, id: string, session: string, response: string, message: string)
    requires id in w.running && w.running[id].Closing? && w.running[id].item.message == message
    ensures var v := Completed(w, id, session, response);
            forall s :: Load(v.files, s) ==
              if s == session then Load(w.files, s) + [Exchange(message, response)] else Load(w.files, s)
  {
  }

  lemma {:induction false} AnswerIsStored(
      w: World, id: string, message: string, session: string, response: string, others: seq<Event>)
    requires id in w.running && w.running[id].Closing? && w.running[id].item.message == message
    ensures Stored(Run(Completed(w, id, session, response), others).files, Exchange(message, response), session, others)
  {
    RecordingAddsToOneFile(w, id, session, response, message);
    var v := Completed(w, id, session, response);
    var n := |Load(w.files, session)|;
    assert Load(v.files, session)[n] == Exchange(message, response);
    var t := FileIsKept(v, others, session);
    assert Load(Run(v, others).files, t)[n] == Exchange(message, response);
    if NeverAsked(others, session) {
      FileStays(v, others, session);
      assert Load(Run(v, others).files, session)[n] == Exchange(message, response);
    }
  }

  predicate At(w: World, id: string, job: Job) { id in w.running && w.running[id] == job }

  lemma {:induction false} AfterTurn(w: World, others: seq<Event>, id: string, job: Job)
    requires At(w, id, job) && LeavesAlone(others, id)
    ensures At(Run(w, others), id, job)
  {
    OthersLeaveJob(w, others, id);
  }

  /** The item has ended and is out of the way; `recorded` tells whether it left its entry. */
  ghost predicate Ended(w: World, id: string, recorded: bool) {
    id in w.finished && id !in w.running && (HasEntry(w.log, id) <==> recorded)
  }

  lemma {:induction false} FinishedEnds(w: World, id: string)
    requires RecordedOnce(w) && id in w.running
    ensures Ended(Finished(w, id), id, w.running[id].Recorded?)
  {
  }

  lemma {:induction false} SegmentIsGood(w: World, e: Event, others: seq<Event>)
    requires Inv(w)
    ensures Inv(Step(w, e)) && Inv(Segment(w, e, others))
  {
    StepKeepsInv(w, e);
    RunKeepsInv(Step(w, e), others);
  }

  lemma {:induction false} WorkedIsGood(
      w: World, id: string, session: string, resolved: string, response: string, fate: Fate, turns: seq<seq<Event>>)
    requires Inv(w) && |turns| == 4
    ensures Inv(Worked(w, id, session, resolved, response, fate, turns))
  {
    SegmentIsGood(w, Acquire(id), turns[0]);
    var begun := Segment(w, Acquire(id), turns[0]);
    if !fate.NoSession? {
      SegmentIsGood(begun, Register(id, session), turns[1]);
      ClosingIsGood(Segment(begun, Register(id, session), turns[1]), id, resolved, response, fate, turns[2], turns[3]);
    }
  }

  lemma {:induction false} ClosingIsGood(
      streamed: World, id: string, resolved: string, response: string, fate: Fate,
      others: seq<Event>, last: seq<Event>)
    requires Inv(streamed)
    ensures Inv(Closed(streamed, id, resolved, response, fate, others, last))
  {
    SegmentIsGood(streamed, Leave(id), others);
    SegmentIsGood(Segment(streamed, Leave(id), others), Record(id, resolved, response), last);
  }

  /** Where the task of the item stands when it comes to its `finally`. */
  function LastJob(item: Item, fate: Fate): Job {
    if fate.NoSession? then Holding(item) else if fate.Completes? then Recorded(item) else Closing(item)
  }

  lemma {:induction false} WorkedReachesLastJob(
      w: World, id: string, session: string, resolved: string, response: string, fate: Fate, turns: seq<seq<Event>>)
    requires id in w.waiting && w.permits > 0
    requires |turns| == 4 && forall i :: 0 <= i < |turns| ==> LeavesAlone(turns[i], id)
    ensures var v := Worked(w, id, session, resolved, response, fate, turns);
            && At(v, id, LastJob(w.waiting[id], fate))
            && (fate.Completes? ==>
                  Stored(v.files, Exchange(w.waiting[id].message, response), resolved, turns[3]))
  {
    var item := w.waiting[id];
    AfterTurn(Acquired(w, id), turns[0], id, Holding(item));
    var begun := Run(Acquired(w, id), turns[0]);
    AfterTurn(Joined(begun, id, session), turns[1], id, Streaming(item, session));
    var left := Left(Run(Joined(begun, id, session), turns[1]), id);
    AfterTurn(left, turns[2], id, Closing(item));
    var closed := Run(left, turns[2]);
    AfterTurn(Completed(closed, id, resolved, response), turns[3], id, Recorded(item));
    AnswerIsStored(closed, id, item.message, resolved, response, turns[3]);
  }

  /** Whatever other tasks do at its awaits, a handled item ends, gives its permit back, and leaves
      one entry if it completes and none if it fails; if it completes, its message and the agent's
      answer stand in a history file. */
  lemma {:induction false} HandlerLeavesOneEntry(
      w: World, id: string, session: string, resolved: string, response: string, fate: Fate, turns: seq<seq<Event>>)
    requires Inv(w) && id in w.waiting && w.permits > 0
    requires |turns| == 4 && forall i :: 0 <= i < |turns| ==> LeavesAlone(turns[i], id)
    ensures var v := Handled(w, id, session, resolved, response, fate, turns);
            && Inv(v) && Ended(v, id, fate.Completes?)
            && (fate.Completes? ==>
                  Stored(v.files, Exchange(w.waiting[id].message, response), resolved, turns[3]))
  {
    var v := Worked(w, id, session, resolved, response, fate, turns);
    WorkedIsGood(w, id, session, resolved, response, fate, turns);
    WorkedReachesLastJob(w, id, session, resolved, response, fate, turns);
    FinishedIsGood(v, id);
    FinishedEnds(v, id);
  }

  class ChatServer {
    var limit: nat
    var permits: int
    var unfinished: int
    var queue: seq<Item>
    var waiting: map<string, Item>
    var running: map<string, Job>
    var active: map<string, string>
    var cancels: seq<string>
    var files: map<string, seq<Exchange>>
    /** The queue ids given out so far; the source relies on random ids never repeating. */
    var accepted: map<string, Item>
    ghost var finished: set<string>
    ghost var lost: set<string>
    ghost var cancelled: set<string>
    ghost var log: seq<Entry>

    ghost function View(): World
      reads this
    {
      World(limit, permits, unfinished, queue, waiting, running, active, cancels, files,
            accepted, finished, lost, cancelled, log)
    }

    ghost predicate Valid()
      reads this
    {
      Inv(View())
    }

    constructor (limit: nat)
      ensures Valid() && View() == Start(limit)
    {
      StartIsGood(limit);
      this.limit, permits, unfinished := limit, limit, 0;
      queue, waiting, running, active, cancels, files, accepted := [], map[], map[], map[], [], map[], map[];
      finished, lost, cancelled, log := {}, {}, {}, [];
    }

    method AsyncChat(item: Item)
      modifies this
      ensures View() == Enqueued(old(View()), item)
      ensures item.id !in old(accepted) ==> queue == old(queue) + [item]
    {
      if item.id !in accepted {
        accepted := accepted[item.id := item];
        queue := queue + [item];
        unfinished := unfinished + 1;
      }
    }

    /** `_process_queue`: take the head of the queue, give it a task of its own. */
    method ProcessQueue()
      modifies this
      ensures View() == Dispatched(old(View()))
      ensures old(queue) != [] ==>
                queue == old(queue)[1..] && waiting == old(waiting)[old(queue)[0].id := old(queue)[0]]
    {
      if queue != [] {
        waiting := waiting[queue[0].id := queue[0]];
        queue := queue[1..];
      }
    }

    method Acquire(id: string)
      modifies this
      ensures View() == Acquired(old(View()), id)
    {
      if id in waiting && permits > 0 {
        permits := permits - 1;
        running := running[id := Holding(waiting[id])];
        waiting := waiting - {id};
      }
    }

    method Register(id: string, session: string)
      modifies this
      ensures View() == Joined(old(View()), id, session)
    {
      if id in running && running[id].Holding? {
        running := running[id := Streaming(running[id].item, session)];
        active := active[id := session];
      }
    }

    method Leave(id: string)
      modifies this
      ensures View() == Left(old(View()), id)
    {
      if id in running && running[id].Streaming? {
        running := running[id := Closing(running[id].item)];
        active := active - {id};
      }
    }

    /** load, append, save: no other task runs in between. */
    method Record(id: string, session: string, response: string)
      modifies this
      ensures View() == Completed(old(View()), id, session, response)
      ensures id in old(running) && old(running)[id].Closing? ==>
                forall s :: Load(files, s) ==
                  if s == session then Load(old(files), s) + [Exchange(old(running)[id].item.message, response)]
                  else Load(old(files), s)
    {
      if id in running && running[id].Closing? {
        var exchange := Exchange(running[id].item.message, response);
        running := running[id := Recorded(running[id].item)];
        var history := LoadSession(session);
        history := history + [exchange];
        SaveSession(session, history);
        log := log + [Entry(Queued(id), session, exchange)];
      }
    }

    method Finish(id: string)
      modifies this
      ensures View() == Finished(old(View()), id)
    {
      if id in running {
        active := active - {id};
        unfinished := unfinished - 1;
        permits := permits + 1;
        running := running - {id};
        finished := finished + {id};
      }
    }

    method LoadSession(session: string) returns (history: seq<Exchange>)
      ensures history == Load(files, session)
    {
      if session in files {
        return files[session];
      }
      return [];
    }

    method SaveSession(session: string, history: seq<Exchange>)
      modifies this`files
      ensures files == old(files)[session := history]
    {
      files := files[session := history];
    }

    /** `cancel_queue_item` up to its await: the session it will disconnect. */
    method CancelBegin(id: string) returns (session: Option<string>)
      modifies this
      ensures View() == CancelBegun(old(View()), id)
      ensures session == if id in old(active) then Some(old(active)[id]) else None
    {
      if id !in active {
        return None;
      }
      cancels := cancels + [id];
      return Some(active[id]);
    }

    method CancelEnd(which: nat)
      modifies this
      ensures View() == CancelEnded(old(View()), which)
      ensures which < |old(cancels)| ==> active == old(active) - {old(cancels)[which]}
    {
      if which < |cancels| {
        var id := cancels[which];
        active := active - {id};
        cancels := Rest(cancels, which);
        cancelled := cancelled + {id};
      }
    }

    method Migrate(asked: string, resolved: string)
      requires asked != "" && resolved != "" && asked != resolved
      modifies this
      ensures View() == AfterMigration(old(View()), asked, resolved)
    {
      if asked in files && resolved !in files {
        log := Moved(log, asked, resolved);
        files := (files - {asked})[resolved := files[asked]];
      }
    }

    /** The end of `chat`, after its last await: migrate the file, then load, append, save. */
    method Chat(asked: string, resolved: string, message: string, response: string)
      modifies this
      ensures View() == Chatted(old(View()), asked, resolved, message, response)
      ensures var session := if resolved != "" then resolved else asked;
              var renames := asked != "" && resolved != "" && asked != resolved
                             && asked in old(files) && resolved !in old(files);
              && Load(files, session) == (if renames then old(files)[asked] else Load(old(files), session))
                                         + [Exchange(message, if response != "" then response else "No response")]
              && (renames ==> asked !in files)
              && forall s :: s != session && !(renames && s == asked) ==> Load(files, s) == Load(old(files), s)
    {
      var session := if resolved != "" then resolved else asked;
      if asked != "" && resolved != "" && asked != resolved {
        Migrate(asked, resolved);
      }
      var exchange := Exchange(message, if response != "" then response else NO_RESPONSE);
      var history := LoadSession(session);
      history := history + [exchange];
      SaveSession(session, history);
      log := log + [Entry(Direct, session, exchange)];
    }

    /** The process dies and starts again: only the files survive. */
    method Restart(limit: nat)
      modifies this
      ensures View() == Restarted(old(View()), limit)
      ensures files == old(files) && queue == [] && waiting == map[] && running == map[] && active == map[]
    {
      MarkLost();
      DropTasks();
      DropQueue();
      SetLimit(limit);
    }

    ghost method MarkLost()
      modifies this`lost
      ensures View() == old(View()).(lost := LostOnRestart(old(View())))
    {
      lost := LostOnRestart(View());
    }

    method DropTasks()
      modifies this`waiting, this`running, this`active, this`cancels
      ensures View() == old(View()).(waiting := map[], running := map[], active := map[], cancels := [])
    {
      waiting, running, active, cancels := map[], map[], map[], [];
    }

    method DropQueue()
      modifies this`queue, this`unfinished
      ensures View() == old(View()).(queue := [], unfinished := 0)
    {
      queue, unfinished := [], 0;
    }

    method SetLimit(limit: nat)
      modifies this`limit, this`permits
      ensures View() == old(View()).(limit := limit, permits := limit)
    {
      this.limit, permits := limit, limit;
    }

    method Take(e: Event)
      modifies this
      ensures View() == Step(old(View()), e)
    {
      match e {
        case Enqueue(item) => AsyncChat(item);
        case Dispatch => ProcessQueue();
        case CancelBegin(id) => var _ := CancelBegin(id);
        case CancelEnd(which) => CancelEnd(which);
        case Chat(asked, resolved, message, response) => Chat(asked, resolved, message, response);
        case Restart(restarted) => Restart(restarted);
        case _ => TakeTurn(e);
      }
    }

    /** A step of the handler of some item. */
    method TakeTurn(e: Event)
      requires e.Acquire? || e.Register? || e.Leave? || e.Record? || e.Finish?
      modifies this
      ensures View() == Step(old(View()), e)
    {
      match e {
        case Acquire(id) => Acquire(id);
        case Register(id, session) => Register(id, session);
        case Leave(id) => Leave(id);
        case Record(id, session, response) => Record(id, session, response);
        case Finish(id) => Finish(id);
      }
    }

    /** An await: whatever other tasks do meanwhile. */
    method Await(events: seq<Event>)
      modifies this
      ensures View() == Run(old(View()), events)
    {
      ghost var before := View();
      for k := 0 to |events|
        invariant View() == Run(before, events[..k])
      {
        Take(events[k]);
        assert events[..k + 1][..k] == events[..k];
      }
      assert events[..|events|] == events;
    }

    /** Any events from a good state lead to a good state. */
    method Serve(events: seq<Event>)
      requires Valid()
      modifies this
      ensures Valid() && View() == Run(old(View()), events)
    {
      RunKeepsInv(View(), events);
      Await(events);
    }

    /** The body of the `try`: it ends early where an exception is raised. */
    method RunItem(id: string, session: string, resolved: string, response: string, fate: Fate,
                   turns: seq<seq<Event>>)
      requires |turns| == 4
      modifies this
      ensures View() == Worked(old(View()), id, session, resolved, response, fate, turns)
    {
      Acquire(id);
      Await(turns[0]);
      if fate.NoSession? {
        return;
      }
      Register(id, session);
      Await(turns[1]);
      CloseItem(id, resolved, response, fate, turns[2], turns[3]);
    }

    /** From the end of the wait on. */
    method CloseItem(id: string, resolved: string, response: string, fate: Fate, others: seq<Event>, last: seq<Event>)
      modifies this
      ensures View() == Closed(old(View()), id, resolved, response, fate, others, last)
    {
      Leave(id);
      if fate.NoReply? {
        return;
      }
      Await(others);
      if fate.NoEnd? {
        return;
      }
      Record(id, resolved, response);
      Await(last);
    }

    /** `_handle_async_item` once its turn at the semaphore has come. Whatever other tasks do at its
        awaits, the item ends and gives its permit back, it leaves exactly one exchange if it
        completes and none if it fails, that exchange is its message with the agent's answer, and no
        more items run than there are permits. */
    method HandleAsyncItem(id: string, session: string, resolved: string, response: string, fate: Fate,
                           turns: seq<seq<Event>>)
      requires Valid() && id in waiting && permits > 0
      requires |turns| == 4 && forall i :: 0 <= i < |turns| ==> LeavesAlone(turns[i], id)
      modifies this
      ensures Valid() && Ended(View(), id, fate.Completes?) && |running| <= limit
      ensures fate.Completes? ==>
                Stored(files, Exchange(old(waiting)[id].message, response), resolved, turns[3])
    {
      HandlerLeavesOneEntry(View(), id, session, resolved, response, fate, turns);
      RunItem(id, session, resolved, response, fate, turns);
      Finish(id);
    }
  }
}
