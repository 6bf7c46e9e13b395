/** The two readers of stored chunks: the web stream (`web-ui/app/main.py`), which remembers every
    sequence it has shown, and the command line (`cmd/cli/invoke.go`), which remembers only the
    highest. Each poll meets some snapshot of the store. */
module ChunkReaders {
  import opened ChunkDelivery
  import opened Wrappers
  import S = ChunkStream

  // ---- The web stream ----

  class WebStream {
    const sendRef: string
    const agentRef: string
    const namespace: string
    var seenSequences: set<int>
    var yielded: seq<Stored>

    ghost predicate Listed(s: Stored, snapshot: seq<Stored>) {
      s in snapshot && Mine(s, sendRef, agentRef, namespace)
    }

    ghost predicate Valid()
      reads this
    {
      && Apart(yielded)
      && (forall n :: n in seenSequences <==> exists k :: 0 <= k < |yielded| && yielded[k].payload.sequence == n)
      && (forall s :: s in yielded ==> Mine(s, sendRef, agentRef, namespace))
    }

    constructor (sendRef: string, agentRef: string, namespace: string)
      ensures Valid() && yielded == []
      ensures this.sendRef == sendRef && this.agentRef == agentRef && this.namespace == namespace
    {
      this.sendRef, this.agentRef, this.namespace := sendRef, agentRef, namespace;
      seenSequences, yielded := {}, [];
    }

    /** The initial load shows all that is listed, without looking at what was shown. */
    method Load(snapshot: seq<Stored>)
      requires Valid() && yielded == [] && DistinctSlots(snapshot)
      modifies this
      ensures Valid()
      ensures forall s :: s in yielded ==> Listed(s, snapshot)
      ensures forall s :: Listed(s, snapshot) ==> s.payload.sequence in seenSequences
    {
      var list := ListChunksForSend(snapshot, sendRef, agentRef, namespace);
      for k := 0 to |list|
        invariant Valid() && yielded == list[..k]
      {
        assert list[k] in list;
        Show(list[k]);
        assert list[..k + 1] == list[..k] + [list[k]];
      }
      assert list[..|list|] == list;
    }

    /** A later poll that succeeds: shows what is listed under a sequence not shown before. */
    method Poll(snapshot: seq<Stored>)
      requires Valid() && DistinctSlots(snapshot)
      modifies this
      ensures Valid() && old(yielded) <= yielded
      ensures forall s :: s in yielded ==> s in old(yielded) || Listed(s, snapshot)
      ensures forall s :: Listed(s, snapshot) ==> s.payload.sequence in seenSequences
      ensures old(seenSequences) <= seenSequences
    {
      var list := ListChunksForSend(snapshot, sendRef, agentRef, namespace);
      for k := 0 to |list|
        invariant Valid() && old(yielded) <= yielded && old(seenSequences) <= seenSequences
        invariant forall s :: s in yielded ==> s in old(yielded) || Listed(s, snapshot)
        invariant forall i :: 0 <= i < k ==> list[i].payload.sequence in seenSequences
      {
        var chunk := list[k];
        if chunk.payload.sequence !in seenSequences {
          Show(chunk);
        }
        assert chunk in list;
      }
    }

    method Show(chunk: Stored)
      requires Valid() && chunk.payload.sequence !in seenSequences && Mine(chunk, sendRef, agentRef, namespace)
      modifies this
      ensures Valid() && yielded == old(yielded) + [chunk]
      ensures seenSequences == old(seenSequences) + {chunk.payload.sequence}
    {
      seenSequences := seenSequences + {chunk.payload.sequence};
      yielded := yielded + [chunk];
      forall n ensures n in seenSequences <==> exists k :: 0 <= k < |yielded| && yielded[k].payload.sequence == n {
        if n == chunk.payload.sequence {
          assert yielded[|yielded| - 1].payload.sequence == n;
        }
        if k :| 0 <= k < |old(yielded)| && old(yielded)[k].payload.sequence == n {
          assert yielded[k].payload.sequence == n;
        }
      }
    }
  }

  /** Snapshots grow; `None` is a poll that failed. */
  ghost predicate Growing(polls: seq<Option<seq<Stored>>>) {
    forall i, j :: 0 <= i < j < |polls| && polls[i].Some? && polls[j].Some? ==>
        forall s :: s in polls[i].value ==> s in polls[j].value
  }

  ghost predicate SeenIn(s: Stored, polls: seq<Option<seq<Stored>>>, n: nat)
    requires n <= |polls|
  {
    exists i :: 0 <= i < n && polls[i].Some? && s in polls[i].value
  }

  ghost predicate SequenceShown(yielded: seq<Stored>, s: Stored) {
    exists t :: t in yielded && t.payload.sequence == s.payload.sequence
  }

  /** chunks_stream over any schedule of polls. If the first poll fails the stream ends. Otherwise
      every sequence of the send that any successful poll met is shown exactly once; and if chunks
      are only ever added, then after a successful poll exactly the chunks stored then are shown. */
  method ChunksStream(polls: seq<Option<seq<Stored>>>, sendRef: string, agentRef: string, namespace: string)
    returns (yielded: seq<Stored>)
    requires polls != [] && forall i :: 0 <= i < |polls| && polls[i].Some? ==> DistinctSlots(polls[i].value)
    ensures polls[0].None? ==> yielded == []
    ensures Apart(yielded)
    ensures forall s :: s in yielded ==> Mine(s, sendRef, agentRef, namespace) && SeenIn(s, polls, |polls|)
    ensures polls[0].Some? ==>
              forall s :: SeenIn(s, polls, |polls|) && Mine(s, sendRef, agentRef, namespace) ==>
                SequenceShown(yielded, s)
    ensures polls[0].Some? && Growing(polls) && polls[|polls| - 1].Some? ==>
              ShowsExactly(yielded, polls[|polls| - 1].value, sendRef, agentRef, namespace)
  {
    if polls[0].None? {
      return [];
    }
    var stream := new WebStream(sendRef, agentRef, namespace);
    stream.Load(polls[0].value);
    for n := 1 to |polls|
      invariant stream.Valid()
      invariant stream.sendRef == sendRef && stream.agentRef == agentRef && stream.namespace == namespace
      invariant forall s :: s in stream.yielded ==> SeenIn(s, polls, n)
      invariant forall s :: SeenIn(s, polls, n) && Mine(s, sendRef, agentRef, namespace) ==>
                  s.payload.sequence in stream.seenSequences
    {
      ghost var before := stream.yielded;
      if polls[n].Some? {
        stream.Poll(polls[n].value);
      }
      forall s | s in stream.yielded ensures SeenIn(s, polls, n + 1) {
        if s !in before { assert polls[n].Some? && s in polls[n].value; }
      }
    }
    yielded := stream.yielded;
    forall s | SeenIn(s, polls, |polls|) && Mine(s, sendRef, agentRef, namespace)
      ensures SequenceShown(yielded, s)
    {
      var k :| 0 <= k < |yielded| && yielded[k].payload.sequence == s.payload.sequence;
      assert yielded[k] in yielded;
    }
    if Growing(polls) && polls[|polls| - 1].Some? {
      ShowsExactlyTheLast(polls, yielded, sendRef, agentRef, namespace);
    }
  }

  lemma {:induction false} ShowsExactlyTheLast(
      polls: seq<Option<seq<Stored>>>, yielded: seq<Stored>, sendRef: string, agentRef: string, namespace: string)
    requires polls != [] && Growing(polls) && polls[|polls| - 1].Some?
    requires DistinctSlots(polls[|polls| - 1].value)
    requires forall s :: s in yielded ==> Mine(s, sendRef, agentRef, namespace) && SeenIn(s, polls, |polls|)
    requires forall s :: SeenIn(s, polls, |polls|) && Mine(s, sendRef, agentRef, namespace) ==>
               SequenceShown(yielded, s)
    ensures ShowsExactly(yielded, polls[|polls| - 1].value, sendRef, agentRef, namespace)
  {
    var last := polls[|polls| - 1].value;
    forall s | s in yielded ensures s in last {
      SeenIsInLast(polls, s);
    }
    forall s | s in last && Mine(s, sendRef, agentRef, namespace) ensures s in yielded {
      assert SeenIn(s, polls, |polls|);
      OnlyOneWithSequence(last, yielded, s, sendRef, agentRef, namespace);
    }
  }

  lemma {:induction false} OnlyOneWithSequence(
      last: seq<Stored>, yielded: seq<Stored>, s: Stored, sendRef: string, agentRef: string, namespace: string)
    requires DistinctSlots(last) && s in last && Mine(s, sendRef, agentRef, namespace)
    requires SequenceShown(yielded, s)
    requires forall t :: t in yielded ==> t in last && Mine(t, sendRef, agentRef, namespace)
    ensures s in yielded
  {
    var t :| t in yielded && t.payload.sequence == s.payload.sequence;
    assert SameSlot(s, t);
  }

  lemma {:induction false} SeenIsInLast(polls: seq<Option<seq<Stored>>>, s: Stored)
    requires polls != [] && Growing(polls) && polls[|polls| - 1].Some? && SeenIn(s, polls, |polls|)
    ensures s in polls[|polls| - 1].value
  {
    var i :| 0 <= i < |polls| && polls[i].Some? && s in polls[i].value;
    if i < |polls| - 1 { assert s in polls[|polls| - 1].value; }
  }

  predicate Within(arrivals: seq<(Payload, bool)>, polls: seq<Option<nat>>) {
    forall k :: 0 <= k < |polls| && polls[k].Some? ==> polls[k].value <= |arrivals|
  }

  /** What the polls meet: at `polls[k] == Some(n)` the first `n` arrivals are in the store; `None`
      is a poll that failed. */
  function Snapshots(arrivals: seq<(Payload, bool)>, polls: seq<Option<nat>>): (shots: seq<Option<seq<Stored>>>)
    requires Within(arrivals, polls)
    ensures |shots| == |polls|
    ensures forall k :: 0 <= k < |polls| ==>
              shots[k] == if polls[k].Some? then Some(Deliver([], arrivals[..polls[k].value])) else None
  {
    if polls == [] then []
    else
      var last := polls[|polls| - 1];
      Snapshots(arrivals, polls[..|polls| - 1])
        + [if last.Some? then Some(Deliver([], arrivals[..last.value])) else None]
  }

  predicate Forward(polls: seq<Option<nat>>) {
    forall i, j :: 0 <= i < j < |polls| && polls[i].Some? && polls[j].Some? ==> polls[i].value <= polls[j].value
  }

  lemma {:induction false} SnapshotsGrow(arrivals: seq<(Payload, bool)>, polls: seq<Option<nat>>)
    requires Forward(polls) && Within(arrivals, polls)
    ensures Growing(Snapshots(arrivals, polls))
  {
    var shots := Snapshots(arrivals, polls);
    forall i, j | 0 <= i < j < |shots| && shots[i].Some? && shots[j].Some?
      ensures forall s :: s in shots[i].value ==> s in shots[j].value
    {
      var m, n := polls[i].value, polls[j].value;
      DeliveryGrows(arrivals[..n], m, n);
      assert arrivals[..n][..m] == arrivals[..m] && arrivals[..n][..n] == arrivals[..n];
    }
  }

  /** From the agent to the browser. The posts of a send come from any number of interactions, each
      numbering its own; they arrive in any order, with losses, repeats and posts of other sends
      between them; polls come at any time and may fail. Every sequence is shown at most once, every
      chunk shown is the post of its number of one of the interactions, and after a poll that
      succeeds exactly the send's chunks stored by then have been shown. If all posts of the only
      interaction have arrived by then, unrivalled, that is the whole interaction, each post once. */
  method WatchSend(dispatches: seq<Dispatch>, arrivals: seq<(Payload, bool)>, polls: seq<Option<nat>>,
                   sendRef: string, agentRef: string, namespace: string)
    returns (yielded: seq<Stored>)
    requires forall i :: 0 <= i < |arrivals| && arrivals[i].0.sendRef == sendRef ==>
               FromSome(arrivals[i].0, dispatches, sendRef)
    requires polls != [] && Forward(polls)
    requires Within(arrivals, polls)
    ensures Apart(yielded)
    ensures forall s :: s in yielded ==> NumberedInSome(s.payload, dispatches, sendRef)
    ensures polls[0].Some? && polls[|polls| - 1].Some? ==>
              ShowsExactly(yielded, Deliver([], arrivals[..polls[|polls| - 1].value]), sendRef, agentRef, namespace)
    ensures polls[0].Some? && polls[|polls| - 1] == Some(|arrivals|) && |dispatches| == 1 &&
            Undisputed(dispatches[0], arrivals, sendRef, agentRef, namespace) ==>
              ShowsWhole(yielded, dispatches[0], sendRef) && |yielded| == |S.Posts(dispatches[0].interaction)|
  {
    var shots := Snapshots(arrivals, polls);
    SnapshotsAreDistinct(arrivals, polls);
    SnapshotsGrow(arrivals, polls);
    yielded := ChunksStream(shots, sendRef, agentRef, namespace);
    SeenArePosts(yielded, dispatches, arrivals, polls, sendRef);
    if polls[0].Some? && polls[|polls| - 1] == Some(|arrivals|) && |dispatches| == 1 &&
       Undisputed(dispatches[0], arrivals, sendRef, agentRef, namespace) {
      assert arrivals[..|arrivals|] == arrivals;
      WholeInteractionIsShown(yielded, dispatches[0], arrivals, sendRef);
    }
  }

  /** All posts of the dispatch arrive, to be seen where the stream looks, and no other dispatch or
      send interferes. */
  ghost predicate Undisputed(
      d: Dispatch, arrivals: seq<(Payload, bool)>, sendRef: string, agentRef: string, namespace: string)
  {
    && AllArrive(d, arrivals, sendRef) && OnlyDispatch(d, arrivals, sendRef) && NoRivals(d, arrivals, sendRef)
    && agentRef == d.agentRef && namespace == Home(d.namespace)
  }

  /** Every post of the dispatch is shown, and nothing else. */
  ghost predicate ShowsWhole(yielded: seq<Stored>, d: Dispatch, sendRef: string) {
    forall s :: s in yielded <==> IsPost(s, d, sendRef)
  }

  ghost predicate IsPost(s: Stored, d: Dispatch, sendRef: string) {
    s == Named(s.payload) && PostedBy(s.payload, d, sendRef)
  }

  /** Once every post of a send's only dispatch has arrived, and no other send takes one of their
      names, a stream that shows exactly what is stored shows the whole interaction: each post
      once, as many as there are. */
  lemma {:induction false} WholeInteractionIsShown(
      yielded: seq<Stored>, d: Dispatch, arrivals: seq<(Payload, bool)>, sendRef: string)
    requires Apart(yielded) && ShowsExactly(yielded, Deliver([], arrivals), sendRef, d.agentRef, Home(d.namespace))
    requires AllArrive(d, arrivals, sendRef) && OnlyDispatch(d, arrivals, sendRef) && NoRivals(d, arrivals, sendRef)
    ensures ShowsWhole(yielded, d, sendRef) && |yielded| == |S.Posts(d.interaction)|
  {
    DeliveryIsWellStored(arrivals);
    var stored := Deliver([], arrivals);
    forall s ensures s in yielded <==> IsPost(s, d, sendRef) {
      if s in yielded {
        var i :| 0 <= i < |arrivals| && arrivals[i].0 == s.payload;
        var k :| 0 <= k < |stored| && stored[k] == s;
      }
      if IsPost(s, d, sendRef) {
        PostsCarryTheirNumber(s.payload, d, sendRef);
        NumberNamesThePost(s.payload, d, sendRef);
        AllPostsAreStored(d, arrivals, sendRef, s.payload.sequence);
      }
    }
    CountShown(yielded, d, sendRef);
  }

  lemma {:induction false} CountShown(yielded: seq<Stored>, d: Dispatch, sendRef: string)
    requires Apart(yielded) && ShowsWhole(yielded, d, sendRef)
    ensures |yielded| == |S.Posts(d.interaction)|
  {
    var n := |S.Posts(d.interaction)|;
    forall i | 0 <= i < |yielded| ensures 0 <= yielded[i].payload.sequence < n {
      assert yielded[i] in yielded;
      PostsCarryTheirNumber(yielded[i].payload, d, sendRef);
    }
    forall k | 0 <= k < n ensures NumberShown(yielded, k) {
      PostIsShown(yielded, d, sendRef, k);
    }
    CountNumbers(yielded, n);
  }

  ghost predicate NumberShown(yielded: seq<Stored>, k: int) {
    exists i :: 0 <= i < |yielded| && yielded[i].payload.sequence == k
  }

  lemma {:induction false} PostIsShown(yielded: seq<Stored>, d: Dispatch, sendRef: string, k: nat)
    requires ShowsWhole(yielded, d, sendRef) && k < |S.Posts(d.interaction)|
    ensures NumberShown(yielded, k)
  {
    var post := PayloadOf(S.Posts(d.interaction)[k], d, sendRef);
    S.PostsAreNumbered(d.interaction);
    assert S.Posts(d.interaction)[k] in S.Posts(d.interaction);
    assert PostedBy(post, d, sendRef) && IsPost(Named(post), d, sendRef);
    var i :| 0 <= i < |yielded| && yielded[i] == Named(post);
  }

  /** Different numbers, all below `n` and each of these there: `n` of them. */
  lemma {:induction false} CountNumbers(yielded: seq<Stored>, n: nat)
    requires Apart(yielded) && forall i :: 0 <= i < |yielded| ==> 0 <= yielded[i].payload.sequence < n
    requires forall k :: 0 <= k < n ==> NumberShown(yielded, k)
    ensures |yielded| == n
  {
    var numbers := set i | 0 <= i < |yielded| :: yielded[i].payload.sequence;
    CountDistinct(yielded);
    forall k | k in Below(n) ensures k in numbers {
      assert NumberShown(yielded, k);
    }
    assert numbers == Below(n);
  }

  function Below(n: nat): (numbers: set<int>)
    ensures |numbers| == n && forall k :: k in numbers <==> 0 <= k < n
  {
    if n == 0 then {} else Below(n - 1) + {n - 1}
  }

  lemma {:induction false} CountDistinct(yielded: seq<Stored>)
    requires Apart(yielded)
    ensures |set i | 0 <= i < |yielded| :: yielded[i].payload.sequence| == |yielded|
  {
    if yielded != [] {
      var front, last := yielded[..|yielded| - 1], yielded[|yielded| - 1];
      CountDistinct(front);
      assert (set i | 0 <= i < |yielded| :: yielded[i].payload.sequence)
          == (set i | 0 <= i < |front| :: front[i].payload.sequence) + {last.payload.sequence};
    }
  }

  lemma {:induction false} SeenArePosts(
      yielded: seq<Stored>, dispatches: seq<Dispatch>, arrivals: seq<(Payload, bool)>, polls: seq<Option<nat>>,
      sendRef: string)
    requires forall i :: 0 <= i < |arrivals| && arrivals[i].0.sendRef == sendRef ==>
               FromSome(arrivals[i].0, dispatches, sendRef)
    requires Within(arrivals, polls)
    requires forall s :: s in yielded ==>
               s.payload.sendRef == sendRef && SeenIn(s, Snapshots(arrivals, polls), |polls|)
    ensures forall s :: s in yielded ==> NumberedInSome(s.payload, dispatches, sendRef)
  {
    forall s | s in yielded ensures NumberedInSome(s.payload, dispatches, sendRef) {
      SeenWasDelivered(arrivals, polls, s);
      StoredChunksArePosts(dispatches, arrivals, sendRef, s);
    }
  }

  ghost predicate ShowsExactly(
      yielded: seq<Stored>, stored: seq<Stored>, sendRef: string, agentRef: string, namespace: string)
  {
    forall s :: s in yielded <==>
        s in stored && s.payload.sendRef == sendRef && s.payload.agentRef == agentRef && s.namespace == namespace
  }

  lemma {:induction false} SnapshotsAreDistinct(arrivals: seq<(Payload, bool)>, polls: seq<Option<nat>>)
    requires Within(arrivals, polls)
    ensures forall k :: 0 <= k < |polls| && Snapshots(arrivals, polls)[k].Some? ==>
              DistinctSlots(Snapshots(arrivals, polls)[k].value)
  {
    forall k | 0 <= k < |polls| && polls[k].Some? ensures DistinctSlots(Snapshots(arrivals, polls)[k].value) {
      ReachableStoresAreDistinct(arrivals[..polls[k].value]);
    }
  }

  lemma {:induction false} SeenWasDelivered(arrivals: seq<(Payload, bool)>, polls: seq<Option<nat>>, s: Stored)
    requires Within(arrivals, polls)
    requires SeenIn(s, Snapshots(arrivals, polls), |polls|)
    ensures s in Deliver([], arrivals)
  {
    var shots := Snapshots(arrivals, polls);
    var k :| 0 <= k < |polls| && shots[k].Some? && s in shots[k].value;
    StaysStored(arrivals, polls[k].value, s);
  }

  // ---- The command line ----

  ghost predicate Rising(out: seq<Stored>) {
    forall i, j :: 0 <= i < j < |out| ==> out[i].payload.sequence < out[j].payload.sequence
  }

  /** Of this send, `size` chunks numbered 0..size-1, each once. */
  ghost predicate GapFree(snapshot: seq<Stored>, sendRef: string, size: nat) {
    && (forall s :: s in snapshot && s.payload.sendRef == sendRef ==> 0 <= s.payload.sequence < size)
    && (forall n :: 0 <= n < size ==> Offers(snapshot, sendRef, n))
  }

  ghost predicate Offers(snapshot: seq<Stored>, sendRef: string, n: int) {
    exists s :: s in snapshot && s.payload.sendRef == sendRef && s.payload.sequence == n
  }

  ghost predicate NumberedFromZero(out: seq<Stored>) {
    forall k :: 0 <= k < |out| ==> out[k].payload.sequence == k
  }

  ghost predicate Shown(out: seq<Stored>, from: nat, n: int) {
    exists j :: from <= j < |out| && out[j].payload.sequence == n
  }

  /** The first `k` listed sequences that reach the mark are among those shown from `from` on. */
  ghost predicate ShowsPrefix(out: seq<Stored>, from: nat, relevant: seq<Stored>, k: nat, mark: int)
    requires k <= |relevant|
  {
    forall i :: 0 <= i < k && relevant[i].payload.sequence >= mark ==> Shown(out, from, relevant[i].payload.sequence)
  }

  lemma {:induction false} PrefixGrows(
      out: seq<Stored>, from: nat, relevant: seq<Stored>, k: nat, mark: int, chunk: Stored)
    requires k < |relevant| && relevant[k] == chunk && from <= |out| && ShowsPrefix(out, from, relevant, k, mark)
    ensures ShowsPrefix(out + [chunk], from, relevant, k + 1, mark)
  {
    var grown := out + [chunk];
    forall i | 0 <= i <= k && relevant[i].payload.sequence >= mark
      ensures Shown(grown, from, relevant[i].payload.sequence)
    {
      if i == k {
        assert grown[|out|] == chunk;
      } else {
        var j :| from <= j < |out| && out[j].payload.sequence == relevant[i].payload.sequence;
        assert grown[j] == out[j];
      }
    }
  }

  lemma {:induction false} PrefixIsAll(
      out: seq<Stored>, from: nat, relevant: seq<Stored>, snapshot: seq<Stored>, sendRef: string, mark: int)
    requires ShowsPrefix(out, from, relevant, |relevant|, mark)
    requires forall s :: s in snapshot && s.payload.sendRef == sendRef ==> s in relevant
    ensures ShowsAll(out, from, snapshot, sendRef, mark)
  {
    forall s | s in snapshot && s.payload.sendRef == sendRef && s.payload.sequence >= mark
      ensures Shown(out, from, s.payload.sequence)
    {
      var i :| 0 <= i < |relevant| && relevant[i] == s;
    }
  }

  ghost predicate FromSnapshot(out: seq<Stored>, from: nat, snapshot: seq<Stored>, sendRef: string, mark: int) {
    forall k :: from <= k < |out| ==>
        out[k] in snapshot && out[k].payload.sendRef == sendRef && out[k].payload.sequence >= mark
  }

  ghost predicate ShowsAll(out: seq<Stored>, from: nat, snapshot: seq<Stored>, sendRef: string, mark: int) {
    forall s :: s in snapshot && s.payload.sendRef == sendRef && s.payload.sequence >= mark ==>
        Shown(out, from, s.payload.sequence)
  }

  /** What a poll adds to the output: chunks of the snapshot at or above the mark, and every
      sequence the snapshot has there. */
  ghost predicate Extends(was: seq<Stored>, out: seq<Stored>, snapshot: seq<Stored>, sendRef: string, mark: int) {
    was <= out && FromSnapshot(out, |was|, snapshot, sendRef, mark) && ShowsAll(out, |was|, snapshot, sendRef, mark)
  }

  class ChunkPrinter {
    const sendRef: string
    var printed: int
    var out: seq<Stored>

    /** The watermark is one more than the last sequence printed. */
    ghost predicate Valid()
      reads this
    {
      && Rising(out) && (forall s :: s in out ==> s.payload.sendRef == sendRef && s.payload.sequence >= 0)
      && printed == if out == [] then 0 else out[|out| - 1].payload.sequence + 1
    }

    constructor (sendRef: string)
      ensures Valid() && out == [] && printed == 0 && this.sendRef == sendRef
    {
      this.sendRef, printed, out := sendRef, 0, [];
    }

    /** One poll prints, in order and once each, exactly the sequences of the send that reach the
        watermark. */
    method Poll(snapshot: seq<Stored>)
      requires Valid()
      modifies this
      ensures Valid() && Extends(old(out), out, snapshot, sendRef, old(printed))
    {
      var relevant := Relevant(snapshot);
      ghost var was, mark := out, printed;
      PrintNew(relevant, snapshot);
      PrefixIsAll(out, |was|, relevant, snapshot, sendRef, mark);
    }

    method PrintNew(relevant: seq<Stored>, ghost snapshot: seq<Stored>)
      requires Valid() && InOrder(relevant)
      requires forall s :: s in relevant ==> s in snapshot && s.payload.sendRef == sendRef
      modifies this
      ensures Valid() && old(out) <= out
      ensures FromSnapshot(out, |old(out)|, snapshot, sendRef, old(printed))
      ensures ShowsPrefix(out, |old(out)|, relevant, |relevant|, old(printed))
    {
      ghost var was, mark := out, printed;
      for k := 0 to |relevant|
        invariant Valid() && was <= out && printed >= mark
        invariant FromSnapshot(out, |was|, snapshot, sendRef, mark)
        invariant printed == mark || (k > 0 && printed == relevant[k - 1].payload.sequence + 1)
        invariant ShowsPrefix(out, |was|, relevant, k, mark)
      {
        var chunk := relevant[k];
        assert chunk in relevant;
        if chunk.payload.sequence < printed {
          continue;
        }
        ghost var before := out;
        Print(chunk);
        PrefixGrows(before, |was|, relevant, k, mark, chunk);
      }
    }

    method Print(chunk: Stored)
      requires Valid() && chunk.payload.sendRef == sendRef && chunk.payload.sequence >= printed
      modifies this
      ensures Valid() && out == old(out) + [chunk] && printed == chunk.payload.sequence + 1
    {
      out := out + [chunk];
      printed := chunk.payload.sequence + 1;
    }

    method Relevant(snapshot: seq<Stored>) returns (relevant: seq<Stored>)
      ensures InOrder(relevant)
      ensures forall s :: s in relevant <==> s in snapshot && s.payload.sendRef == sendRef
    {
      relevant := [];
      for k := 0 to |snapshot|
        invariant forall s :: s in relevant <==> s in snapshot[..k] && s.payload.sendRef == sendRef
      {
        assert snapshot[..k + 1] == snapshot[..k] + [snapshot[k]];
        if snapshot[k].payload.sendRef == sendRef {
          relevant := relevant + [snapshot[k]];
        }
      }
      assert snapshot[..|snapshot|] == snapshot;
      relevant := SortBySequence(relevant);
    }
  }

  lemma {:induction false} RisingMonotone(out: seq<Stored>, i: nat, j: nat)
    requires Rising(out) && i <= j < |out|
    ensures out[i].payload.sequence <= out[j].payload.sequence
  {
  }

  lemma {:induction false} GapFreeShows(
      was: seq<Stored>, out: seq<Stored>, snapshot: seq<Stored>, sendRef: string, n: nat, k: nat)
    requires Extends(was, out, snapshot, sendRef, |was|) && GapFree(snapshot, sendRef, n) && |was| <= k < n
    ensures Shown(out, |was|, k)
  {
    assert Offers(snapshot, sendRef, k);
    var s :| s in snapshot && s.payload.sendRef == sendRef && s.payload.sequence == k;
  }

  /** A poll of a gap-free prefix extends a gap-free output to that prefix. */
  lemma {:induction false} GapFreePoll(
      was: seq<Stored>, out: seq<Stored>, snapshot: seq<Stored>, sendRef: string, n: nat)
    requires NumberedFromZero(was) && Rising(out) && GapFree(snapshot, sendRef, n)
    requires Extends(was, out, snapshot, sendRef, |was|)
    ensures NumberedFromZero(out) && |out| == if n > |was| then n else |was|
  {
    for k := 0 to |out|
      invariant forall i :: 0 <= i < k ==> out[i].payload.sequence == i
    {
      if k < |was| {
        assert out[k] == was[k];
      } else {
        if k > 0 { assert out[k - 1].payload.sequence < out[k].payload.sequence; }
        assert out[k] in snapshot && out[k].payload.sendRef == sendRef;
        GapFreeShows(was, out, snapshot, sendRef, n, k);
        var j :| |was| <= j < |out| && out[j].payload.sequence == k;
        RisingMonotone(out, k, j);
      }
    }
    GapFreeLength(was, out, snapshot, sendRef, n);
  }

  lemma {:induction false} GapFreeLength(
      was: seq<Stored>, out: seq<Stored>, snapshot: seq<Stored>, sendRef: string, n: nat)
    requires NumberedFromZero(out) && GapFree(snapshot, sendRef, n) && Extends(was, out, snapshot, sendRef, |was|)
    ensures |out| == if n > |was| then n else |was|
  {
    if |out| > |was| { assert out[|out| - 1] in snapshot; }
    if n > |was| { GapFreeShows(was, out, snapshot, sendRef, n, n - 1); }
  }

  // What the polls make the command line print, in their own terms.

  /** No chunk of the send met before the k-th poll has a higher number. */
  ghost predicate NoHigher(polls: seq<seq<Stored>>, k: nat, sendRef: string, n: int)
    requires k <= |polls|
  {
    forall j, s :: 0 <= j < k && s in polls[j] && s.payload.sendRef == sendRef ==> s.payload.sequence <= n
  }

  ghost predicate InTimeAt(polls: seq<seq<Stored>>, k: nat, sendRef: string, n: int)
    requires k < |polls|
  {
    Offers(polls[k], sendRef, n) && NoHigher(polls, k, sendRef, n)
  }

  /** Some poll offers this number before any poll has met a higher one. */
  ghost predicate InTime(polls: seq<seq<Stored>>, upTo: nat, sendRef: string, n: int)
    requires upTo <= |polls|
  {
    n >= 0 && exists k :: 0 <= k < upTo && InTimeAt(polls, k, sendRef, n)
  }

  ghost predicate PrintedIffInTime(out: seq<Stored>, polls: seq<seq<Stored>>, upTo: nat, sendRef: string)
    requires upTo <= |polls|
  {
    forall n :: Shown(out, 0, n) <==> InTime(polls, upTo, sendRef, n)
  }

  /** The watermark is above all that was met. */
  ghost predicate MetBelow(polls: seq<seq<Stored>>, upTo: nat, sendRef: string, mark: int)
    requires upTo <= |polls|
  {
    forall j, s :: 0 <= j < upTo && s in polls[j] && s.payload.sendRef == sendRef ==> s.payload.sequence < mark
  }

  /** The watermark is one more than the last number printed. */
  ghost predicate MarkOf(out: seq<Stored>, mark: int) {
    mark == if out == [] then 0 else out[|out| - 1].payload.sequence + 1
  }

  lemma {:induction false} PollStaysAbove(
      was: seq<Stored>, out: seq<Stored>, polls: seq<seq<Stored>>, k: nat, sendRef: string, mark: int, next: int)
    requires k < |polls| && MetBelow(polls, k, sendRef, mark) && Extends(was, out, polls[k], sendRef, mark)
    requires Rising(out) && MarkOf(was, mark) && MarkOf(out, next)
    ensures MetBelow(polls, k + 1, sendRef, next)
  {
    if was != out {
      assert out[|out| - 1].payload.sequence >= mark;
    }
    forall j, s | 0 <= j < k + 1 && s in polls[j] && s.payload.sendRef == sendRef ensures s.payload.sequence < next {
      if j == k && s.payload.sequence >= mark {
        var i :| |was| <= i < |out| && out[i].payload.sequence == s.payload.sequence;
        RisingMonotone(out, i, |out| - 1);
      }
    }
  }

  lemma {:induction false} NewIsInTime(
      was: seq<Stored>, out: seq<Stored>, polls: seq<seq<Stored>>, k: nat, sendRef: string, mark: int, n: int)
    requires k < |polls| && MetBelow(polls, k, sendRef, mark) && mark >= 0
    requires Extends(was, out, polls[k], sendRef, mark) && PrintedIffInTime(was, polls, k, sendRef)
    requires Shown(out, 0, n)
    ensures InTime(polls, k + 1, sendRef, n)
  {
    var i :| 0 <= i < |out| && out[i].payload.sequence == n;
    if i < |was| {
      assert was[i] == out[i];
      assert Shown(was, 0, n);
      var j :| 0 <= j < k && InTimeAt(polls, j, sendRef, n);
      assert 0 <= j < k + 1 && InTimeAt(polls, j, sendRef, n);
    } else {
      assert out[i] in polls[k];
      assert InTimeAt(polls, k, sendRef, n);
    }
  }

  lemma {:induction false} StaysShown(was: seq<Stored>, out: seq<Stored>, n: int)
    requires was <= out && Shown(was, 0, n)
    ensures Shown(out, 0, n)
  {
    var i :| 0 <= i < |was| && was[i].payload.sequence == n;
    assert out[i] == was[i];
  }

  lemma {:induction false} InTimeIsNew(
      was: seq<Stored>, out: seq<Stored>, polls: seq<seq<Stored>>, k: nat, sendRef: string, mark: int, n: int)
    requires k < |polls| && AllMet(was, polls, k) && MarkOf(was, mark)
    requires forall s :: s in was ==> s.payload.sendRef == sendRef
    requires Extends(was, out, polls[k], sendRef, mark) && PrintedIffInTime(was, polls, k, sendRef)
    requires InTime(polls, k + 1, sendRef, n)
    ensures Shown(out, 0, n)
  {
    var j :| 0 <= j < k + 1 && InTimeAt(polls, j, sendRef, n);
    if j < k {
      assert InTime(polls, k, sendRef, n);
      StaysShown(was, out, n);
    } else if n >= mark {
      var s :| s in polls[k] && s.payload.sendRef == sendRef && s.payload.sequence == n;
      var i :| |was| <= i < |out| && out[i].payload.sequence == n;
      assert 0 <= i < |out|;
    } else {
      LastIsHighest(was, polls, k, sendRef, mark, n);
      StaysShown(was, out, n);
    }
  }

  /** A number in time below the watermark is the one printed last. */
  lemma {:induction false} LastIsHighest(
      was: seq<Stored>, polls: seq<seq<Stored>>, k: nat, sendRef: string, mark: int, n: int)
    requires k < |polls| && AllMet(was, polls, k) && MarkOf(was, mark) && 0 <= n < mark
    requires NoHigher(polls, k, sendRef, n)
    requires forall s :: s in was ==> s.payload.sendRef == sendRef
    ensures Shown(was, 0, n)
  {
    var last := was[|was| - 1];
    assert last in was && MetBy(last, polls, k);
    var t :| 0 <= t < k && last in polls[t];
    assert last.payload.sequence <= n;
  }

  lemma {:induction false} PollKeepsPrinted(
      was: seq<Stored>, out: seq<Stored>, polls: seq<seq<Stored>>, k: nat, sendRef: string, mark: int)
    requires k < |polls| && AllMet(was, polls, k) && MarkOf(was, mark) && mark >= 0
    requires MetBelow(polls, k, sendRef, mark) && forall s :: s in was ==> s.payload.sendRef == sendRef
    requires Extends(was, out, polls[k], sendRef, mark) && PrintedIffInTime(was, polls, k, sendRef)
    ensures PrintedIffInTime(out, polls, k + 1, sendRef)
  {
    forall n ensures Shown(out, 0, n) <==> InTime(polls, k + 1, sendRef, n) {
      if Shown(out, 0, n) {
        NewIsInTime(was, out, polls, k, sendRef, mark, n);
      }
      if InTime(polls, k + 1, sendRef, n) {
        InTimeIsNew(was, out, polls, k, sendRef, mark, n);
      }
    }
  }

  /** Whatever the polls, a number none of them offers until one has met a higher number of the send
      is never printed. */
  lemma {:induction false} LateIsNeverPrinted(
      out: seq<Stored>, polls: seq<seq<Stored>>, sendRef: string, n: int, j: nat, higher: Stored)
    requires PrintedIffInTime(out, polls, |polls|, sendRef)
    requires j < |polls| && higher in polls[j] && higher.payload.sendRef == sendRef && higher.payload.sequence > n
    requires forall k :: 0 <= k <= j ==> !Offers(polls[k], sendRef, n)
    ensures !Shown(out, 0, n)
  {
    forall k | 0 <= k < |polls| ensures !InTimeAt(polls, k, sendRef, n) {
      if k > j {
        assert higher in polls[j];
      }
    }
  }

  /** The chunks of the send that the polls meet under one number are one object. */
  ghost predicate OneObjectEach(polls: seq<seq<Stored>>, sendRef: string) {
    forall s, t :: MetBy(s, polls, |polls|) && MetBy(t, polls, |polls|) && OneNumber(s, t, sendRef) ==> s == t
  }

  predicate OneNumber(s: Stored, t: Stored, sendRef: string) {
    && s.payload.sendRef == sendRef && t.payload.sendRef == sendRef
    && s.payload.sequence == t.payload.sequence
  }

  /** A store that only takes in what arrives meets that condition, in one namespace. */
  lemma {:induction false} StoreHasOneObjectEach(
      arrivals: seq<(Payload, bool)>, polls: seq<seq<Stored>>, sendRef: string, namespace: string)
    requires forall k, s :: 0 <= k < |polls| && s in polls[k] ==> s in Deliver([], arrivals) && s.namespace == namespace
    ensures OneObjectEach(polls, sendRef)
  {
    ReachableStoresAreDistinct(arrivals);
    var stored := Deliver([], arrivals);
    forall s, t | MetBy(s, polls, |polls|) && MetBy(t, polls, |polls|) && OneNumber(s, t, sendRef) ensures s == t {
      var i :| 0 <= i < |stored| && stored[i] == s;
      var j :| 0 <= j < |stored| && stored[j] == t;
      assert SameSlot(stored[i], stored[j]) && SameSlot(stored[j], stored[i]);
    }
  }

  ghost predicate MetInTime(s: Stored, polls: seq<seq<Stored>>, sendRef: string) {
    && s.payload.sendRef == sendRef && s.payload.sequence >= 0
    && exists k :: 0 <= k < |polls| && s in polls[k] && NoHigher(polls, k, sendRef, s.payload.sequence)
  }

  lemma {:induction false} PrintedWasInTime(out: seq<Stored>, polls: seq<seq<Stored>>, sendRef: string, s: Stored)
    requires PrintedIffInTime(out, polls, |polls|, sendRef) && OneObjectEach(polls, sendRef)
    requires AllMet(out, polls, |polls|) && s in out && s.payload.sendRef == sendRef
    ensures MetInTime(s, polls, sendRef)
  {
    var n := s.payload.sequence;
    var i :| 0 <= i < |out| && out[i] == s;
    assert Shown(out, 0, n);
    assert InTime(polls, |polls|, sendRef, n);
    var k :| 0 <= k < |polls| && InTimeAt(polls, k, sendRef, n);
    var t :| t in polls[k] && t.payload.sendRef == sendRef && t.payload.sequence == n;
    assert MetBy(s, polls, |polls|) && MetBy(t, polls, |polls|) && OneNumber(s, t, sendRef);
  }

  lemma {:induction false} MetInTimeIsPrinted(out: seq<Stored>, polls: seq<seq<Stored>>, sendRef: string, s: Stored)
    requires PrintedIffInTime(out, polls, |polls|, sendRef) && OneObjectEach(polls, sendRef)
    requires AllMet(out, polls, |polls|) && forall t :: t in out ==> t.payload.sendRef == sendRef
    requires MetInTime(s, polls, sendRef)
    ensures s in out
  {
    var n := s.payload.sequence;
    var k :| 0 <= k < |polls| && s in polls[k] && NoHigher(polls, k, sendRef, n);
    assert Offers(polls[k], sendRef, n);
    assert InTimeAt(polls, k, sendRef, n);
    assert InTime(polls, |polls|, sendRef, n);
    assert Shown(out, 0, n);
    var i :| 0 <= i < |out| && out[i].payload.sequence == n;
    assert out[i] in out;
    assert MetBy(out[i], polls, |polls|) && MetBy(s, polls, |polls|) && OneNumber(s, out[i], sendRef);
  }

  /** Then the chunks printed are exactly those some poll met before any had met a higher one. */
  lemma {:induction false} PrintedObjects(out: seq<Stored>, polls: seq<seq<Stored>>, sendRef: string)
    requires PrintedIffInTime(out, polls, |polls|, sendRef) && OneObjectEach(polls, sendRef)
    requires AllMet(out, polls, |polls|) && forall t :: t in out ==> t.payload.sendRef == sendRef
    ensures forall s :: s in out <==> MetInTime(s, polls, sendRef)
  {
    forall s ensures s in out <==> MetInTime(s, polls, sendRef) {
      if s in out {
        PrintedWasInTime(out, polls, sendRef, s);
      }
      if MetInTime(s, polls, sendRef) {
        MetInTimeIsPrinted(out, polls, sendRef, s);
      }
    }
  }

  function Largest(sizes: seq<nat>): nat {
    if sizes == [] then 0
    else
      var front, last := Largest(sizes[..|sizes| - 1]), sizes[|sizes| - 1];
      if last > front then last else front
  }

  ghost predicate MetBy(s: Stored, polls: seq<seq<Stored>>, n: nat)
    requires n <= |polls|
  {
    exists t :: 0 <= t < n && s in polls[t]
  }

  lemma {:induction false} MetByMore(s: Stored, polls: seq<seq<Stored>>, n: nat)
    requires n < |polls| && MetBy(s, polls, n)
    ensures MetBy(s, polls, n + 1)
  {
    var t :| 0 <= t < n && s in polls[t];
    assert 0 <= t < n + 1 && s in polls[t];
  }

  ghost predicate AllMet(out: seq<Stored>, polls: seq<seq<Stored>>, n: nat)
    requires n <= |polls|
  {
    forall s :: s in out ==> MetBy(s, polls, n)
  }

  lemma {:induction false} OutputIsMet(
      was: seq<Stored>, out: seq<Stored>, polls: seq<seq<Stored>>, n: nat, sendRef: string, mark: int)
    requires n < |polls| && AllMet(was, polls, n) && Extends(was, out, polls[n], sendRef, mark)
    ensures AllMet(out, polls, n + 1)
  {
    forall s | s in out ensures MetBy(s, polls, n + 1) {
      var k :| 0 <= k < |out| && out[k] == s;
      if k < |was| {
        assert was[k] in was;
        MetByMore(s, polls, n);
      } else {
        assert s in polls[n];
      }
    }
  }

  ghost predicate AllGapFree(polls: seq<seq<Stored>>, sendRef: string, sizes: seq<nat>) {
    |sizes| == |polls| && forall t :: 0 <= t < |polls| ==> GapFree(polls[t], sendRef, sizes[t])
  }

  /** The output is the gap-free prefix of this length, and the watermark agrees. */
  ghost predicate PrintedUpTo(out: seq<Stored>, mark: int, size: nat) {
    NumberedFromZero(out) && |out| == size == mark
  }

  lemma {:induction false} GapFreeTurn(
      was: seq<Stored>, out: seq<Stored>, polls: seq<seq<Stored>>, sizes: seq<nat>, n: nat, sendRef: string, next: int)
    requires AllGapFree(polls, sendRef, sizes) && n < |polls| && Rising(out)
    requires PrintedUpTo(was, |was|, Largest(sizes[..n])) && Extends(was, out, polls[n], sendRef, |was|)
    requires next == if out == [] then 0 else out[|out| - 1].payload.sequence + 1
    ensures PrintedUpTo(out, next, Largest(sizes[..n + 1]))
  {
    assert sizes[..n + 1][..n] == sizes[..n];
    GapFreePoll(was, out, polls[n], sendRef, sizes[n]);
  }

  /** streamChunks over any sequence of polls: strictly rising sequences of the one send, so each at
      most once; exactly the numbers that some poll offered before any had met a higher one; and if
      every poll met a gap-free prefix, exactly the longest of these prefixes. */
  method StreamChunks(polls: seq<seq<Stored>>, sendRef: string, ghost sizes: seq<nat>) returns (out: seq<Stored>)
    ensures Rising(out)
    ensures forall s :: s in out ==> s.payload.sendRef == sendRef
    ensures AllMet(out, polls, |polls|)
    ensures PrintedIffInTime(out, polls, |polls|, sendRef)
    ensures OneObjectEach(polls, sendRef) ==> forall s :: s in out <==> MetInTime(s, polls, sendRef)
    ensures AllGapFree(polls, sendRef, sizes) ==> NumberedFromZero(out) && |out| == Largest(sizes)
  {
    var printer := new ChunkPrinter(sendRef);
    for n := 0 to |polls|
      invariant printer.Valid() && printer.sendRef == sendRef
      invariant Reached(printer.out, printer.printed, polls, n, sendRef)
      invariant AllGapFree(polls, sendRef, sizes) ==> PrintedUpTo(printer.out, printer.printed, Largest(sizes[..n]))
    {
      ghost var was, mark := printer.out, printer.printed;
      printer.Poll(polls[n]);
      PollReaches(was, printer.out, polls, n, sendRef, mark, printer.printed);
      if AllGapFree(polls, sendRef, sizes) {
        GapFreeTurn(was, printer.out, polls, sizes, n, sendRef, printer.printed);
      }
    }
    assert |sizes| == |polls| ==> sizes[..|polls|] == sizes;
    out := printer.out;
    if OneObjectEach(polls, sendRef) {
      PrintedObjects(out, polls, sendRef);
    }
  }

  /** What is known after so many polls. */
  ghost predicate Reached(out: seq<Stored>, mark: int, polls: seq<seq<Stored>>, n: nat, sendRef: string)
    requires n <= |polls|
  {
    AllMet(out, polls, n) && MetBelow(polls, n, sendRef, mark) && PrintedIffInTime(out, polls, n, sendRef)
  }

  lemma {:induction false} PollReaches(
      was: seq<Stored>, out: seq<Stored>, polls: seq<seq<Stored>>, n: nat, sendRef: string, mark: int, next: int)
    requires n < |polls| && Reached(was, mark, polls, n, sendRef) && Extends(was, out, polls[n], sendRef, mark)
    requires Rising(out) && MarkOf(was, mark) && MarkOf(out, next) && mark >= 0
    requires forall s :: s in was ==> s.payload.sendRef == sendRef
    ensures Reached(out, next, polls, n + 1, sendRef)
  {
    OutputIsMet(was, out, polls, n, sendRef, mark);
    PollStaysAbove(was, out, polls, n, sendRef, mark, next);
    PollKeepsPrinted(was, out, polls, n, sendRef, mark);
  }
}
