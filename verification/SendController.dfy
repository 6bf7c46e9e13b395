/** Dispatch of one send: `kubecopilotsend_controller.go`.

    `Step` is the protocol, one event for each call the reconciler makes and for each thing its
    surroundings may do between two calls: the user edits the send, policies change, the process
    dies, a read is stale, a status write is refused or lost. `SendReconciler.Reconcile` is the
    source's function under any such surroundings and is proved to take only these steps, so
    what is proved about every `Run` holds for it. */
module SendController {
  import P = PolicyEvaluator
  import opened Wrappers

  datatype Phase = New | PendingApproval | Done | Error | Denied {
    predicate Terminal() { Done? || Error? || Denied? }
  }

  /** `secretRef`: the session configuration names a provider secret. */
  datatype Spec = Spec(agentRef: string, message: string, approved: bool, secretRef: bool)

  /** One stored version of the send; `version` is its resource version. */
  datatype Send = Send(version: nat, spec: Spec, phase: Phase, queueId: string)

  datatype AgentAnswer = Missing | NotRunning | Running

  /** What came of one POST to the agent. */
  datatype Reply = Queued(queueId: string) | CallFailed | BadStatus | BadBody

  /** One POST: the version of the send it was made from and the policy list it was screened by. */
  datatype Post = Post(read: Send, seen: nat, reply: Reply)

  /** Where the one worker of this send stands. */
  datatype Worker =
    | Idle
    | Loaded(read: Send)
    | AgentFound(read: Send)
    | Screened(read: Send, seen: nat)
    | Ready(read: Send, seen: nat)
    | Writing(local: Send, post: Option<nat>)
  {
    function Left(): nat {
      if Loaded? then 5 else if AgentFound? then 4 else if Screened? then 3 else if Ready? then 2
      else if Writing? then 1 else 0
    }
  }

  /** `versions` and `policies` keep every version there ever was, because a read may be stale.
      `lost` counts the status writes that follow a POST and never reach the store; `recorded` is
      the POST whose status write did. */
  datatype World = World(
    lower: char -> char, versions: seq<Send>, policies: seq<seq<P.Policy>>,
    worker: Worker, posts: seq<Post>, lost: nat, recorded: Option<nat>)
  {
    function Latest(): Send requires versions != [] { versions[|versions| - 1] }
  }

  datatype Event =
    | EditSpec(spec: Spec)
    | ChangePolicies(policies: seq<P.Policy>)
    | Crash
    | Read(version: nat)
    | GetAgent(answer: AgentAnswer)
    | ListPolicies(listed: Option<nat>)
    | GetSecret(found: bool)
    | PostMessage(reply: Reply)
    | WriteStatus(delivered: bool)
  {
    predicate FromOutside() { EditSpec? || ChangePolicies? }
  }

  function Wanted(lower: char -> char, send: Send): P.Request {
    P.Request(lower, send.spec.agentRef, send.spec.message)
  }

  function AfterReply(read: Send, reply: Reply): Send {
    match reply
    case Queued(id) => read.(phase := Done, queueId := id)
    case _ => read.(phase := Error)
  }

  function AfterDecision(decision: P.Decision, read: Send, seen: nat): Worker {
    if decision.Denied? then Writing(read.(phase := Denied), None)
    else if decision.NeedsApproval? && !read.spec.approved then Writing(read.(phase := PendingApproval), None)
    else if read.spec.secretRef then Screened(read, seen)
    else Ready(read, seen)
  }

  ghost function AfterScreening(w: World, read: Send, seen: nat): Worker
    requires seen < |w.policies|
  {
    AfterDecision(P.Strictest(Wanted(w.lower, read), w.policies[seen]), read, seen)
  }

  /** A stored status write. Version numbers are positions in `versions`, so a write made from
      any version but the latest conflicts. */
  predicate Accepted(w: World, delivered: bool)
    requires w.worker.Writing?
  {
    delivered && w.versions != [] && w.worker.local.version == w.Latest().version
  }

  ghost function GiveUp(w: World): World {
    w.(worker := Idle, lost := w.lost + One(WritePending(w)))
  }

  /** A POST was made and its status write is still to come. */
  predicate WritePending(w: World) { w.worker.Writing? && w.worker.post.Some? }

  /** The protocol. An event that does not fit the state changes nothing. */
  ghost function Step(w: World, e: Event): World {
    match e
    case EditSpec(spec) =>
      if w.versions == [] then w
      else w.(versions := w.versions + [w.Latest().(version := |w.versions|, spec := spec)])
    case ChangePolicies(policies) => w.(policies := w.policies + [policies])
    case Crash => GiveUp(w)
    case Read(i) =>
      if !w.worker.Idle? || i >= |w.versions| then w
      else
        var read := w.versions[i];
        if read.phase.Terminal() || (read.phase.PendingApproval? && !read.spec.approved) then w
        else w.(worker := Loaded(read))
    case GetAgent(answer) =>
      if !w.worker.Loaded? then w
      else
        var read := w.worker.read;
        w.(worker := if answer.Missing? then Writing(read.(phase := Error), None)
                     else if answer.NotRunning? then Idle
                     else AgentFound(read))
    case ListPolicies(listed) =>
      if !w.worker.AgentFound? || (listed.Some? && listed.value >= |w.policies|) then w
      else if listed.None? then w.(worker := Writing(w.worker.read.(phase := Error), None))
      else w.(worker := AfterScreening(w, w.worker.read, listed.value))
    case GetSecret(found) =>
      if !w.worker.Screened? then w
      else if found then w.(worker := Ready(w.worker.read, w.worker.seen))
      else w.(worker := Writing(w.worker.read.(phase := Error), None))
    case PostMessage(reply) =>
      if !w.worker.Ready? then w
      else w.(worker := Writing(AfterReply(w.worker.read, reply), Some(|w.posts|)),
              posts := w.posts + [Post(w.worker.read, w.worker.seen, reply)])
    case WriteStatus(delivered) =>
      if !w.worker.Writing? then w
      else if Accepted(w, delivered) then
        w.(worker := Idle,
           versions := w.versions + [w.worker.local.(version := |w.versions|)],
           recorded := if w.worker.post.Some? then w.worker.post else w.recorded)
      else GiveUp(w)
  }

  ghost function Run(w: World, events: seq<Event>): World {
    if events == [] then w
    else Step(Run(w, events[..|events| - 1]), events[|events| - 1])
  }

  lemma {:induction false} RunOneMore(w: World, events: seq<Event>, e: Event)
    ensures Run(w, events + [e]) == Step(Run(w, events), e)
  {
    assert (events + [e])[..|events|] == events;
  }

  lemma {:induction false} RunInParts(w: World, a: seq<Event>, b: seq<Event>)
    ensures Run(w, a + b) == Run(Run(w, a), b)
  {
    if b == [] {
      assert a + b == a;
    } else {
      var front := b[..|b| - 1];
      assert a + b == (a + front) + [b[|b| - 1]];
      RunOneMore(w, a + front, b[|b| - 1]);
      RunInParts(w, a, front);
    }
  }

  ghost predicate Initial(w: World) {
    && |w.versions| == 1 && w.versions[0].version == 0 && w.versions[0].phase.New? && w.versions[0].queueId == ""
    && |w.policies| == 1 && w.worker.Idle? && w.posts == [] && w.lost == 0 && w.recorded.None?
  }

  // ---- The invariant ----

  /** A rule of this kind, in an active policy for the send's agent or for all agents, matches the
      message of the send. */
  ghost predicate SomeRuleMatches(lower: char -> char, send: Send, policies: seq<P.Policy>, kind: P.RuleType) {
    P.SomeRuleMatches(lower, send.spec.agentRef, send.spec.message, policies, kind)
  }

  /** The screening behind a POST, judged on the send and the policies it actually read. */
  ghost predicate Cleared(w: World, p: Post) {
    && p.read in w.versions && p.seen < |w.policies|
    && !SomeRuleMatches(w.lower, p.read, w.policies[p.seen], P.DenyRule)
    && (SomeRuleMatches(w.lower, p.read, w.policies[p.seen], P.ApprovalRule) ==> p.read.spec.approved)
  }

  /** What the evaluation of the wanted request decides, in terms of the send and the rules. */
  lemma {:induction false} ScreeningJudgesTheSend(lower: char -> char, send: Send, policies: seq<P.Policy>)
    ensures var decision := P.Strictest(Wanted(lower, send), policies);
            && (decision.Denied? <==> SomeRuleMatches(lower, send, policies, P.DenyRule))
            && (decision.NeedsApproval? <==> !SomeRuleMatches(lower, send, policies, P.DenyRule)
                                             && SomeRuleMatches(lower, send, policies, P.ApprovalRule))
  {
    P.StrictestJudges(Wanted(lower, send), policies);
  }

  ghost predicate VersionsInOrder(versions: seq<Send>) {
    && versions != []
    && (forall i :: 0 <= i < |versions| ==> versions[i].version == i)
  }

  /** The version a reconcile holds is one of the stored ones and was not terminal. */
  ghost predicate Holds(w: World, read: Send) {
    read.version < |w.versions| && w.versions[read.version] == read && !read.phase.Terminal()
  }

  ghost predicate WorkerOk(w: World) {
    match w.worker
    case Idle => true
    case Loaded(read) => Holds(w, read)
    case AgentFound(read) => Holds(w, read)
    case Screened(read, seen) => Holds(w, read) && Cleared(w, Post(read, seen, CallFailed))
    case Ready(read, seen) => Holds(w, read) && Cleared(w, Post(read, seen, CallFailed))
    case Writing(local, post) =>
      && local.version < |w.versions|
      && var read := w.versions[local.version];
         && Holds(w, read)
         && if post.None? then local.phase in {Error, Denied, PendingApproval} && local == read.(phase := local.phase)
            else post.value == |w.posts| - 1 && w.posts[post.value].read == read
                 && local == AfterReply(read, w.posts[post.value].reply)
  }

  /** Nothing but the recorded POST has put a queue id, or Done, into the store. */
  ghost predicate RecordOk(w: World)
    requires w.versions != []
  {
    if w.recorded.None? then w.Latest().queueId == "" && !w.Latest().phase.Done?
    else
      && w.recorded.value < |w.posts|
      && w.Latest().phase == AfterReply(w.posts[w.recorded.value].read, w.posts[w.recorded.value].reply).phase
      && (w.Latest().phase.Done? ==> w.posts[w.recorded.value].reply == Queued(w.Latest().queueId))
  }

  ghost predicate Inv(w: World) {
    && VersionsInOrder(w.versions) && w.policies != []
    && WorkerOk(w)
    && (forall p :: p in w.posts ==> Cleared(w, p))
    && RecordOk(w)
    && |w.posts| == w.lost + One(w.recorded.Some?) + One(WritePending(w))
  }

  lemma {:induction false} ClearedStays(w: World, w': World)
    requires w.lower == w'.lower && w.versions <= w'.versions && w.policies <= w'.policies
    ensures forall p :: Cleared(w, p) ==> Cleared(w', p)
  {
    forall p | Cleared(w, p) ensures Cleared(w', p) {
      var i :| 0 <= i < |w.versions| && w.versions[i] == p.read;
      assert w'.versions[i] == p.read;
      assert w'.policies[p.seen] == w.policies[p.seen];
    }
  }

  lemma {:induction false} EditKeepsInv(w: World, spec: Spec)
    requires Inv(w)
    ensures Inv(Step(w, EditSpec(spec)))
  {
    ClearedStays(w, Step(w, EditSpec(spec)));
  }

  lemma {:induction false} WriteKeepsInv(w: World, delivered: bool)
    requires Inv(w)
    ensures Inv(Step(w, WriteStatus(delivered)))
  {
    if w.worker.Writing? && Accepted(w, delivered) {
      assert Holds(w, w.Latest());
      ClearedStays(w, Step(w, WriteStatus(delivered)));
    }
  }

  lemma {:induction false} PostKeepsInv(w: World, reply: Reply)
    requires Inv(w)
    ensures Inv(Step(w, PostMessage(reply)))
  {
    if w.worker.Ready? {
      var w' := Step(w, PostMessage(reply));
      var p := Post(w.worker.read, w.worker.seen, reply);
      ClearedStays(w, w');
      assert Cleared(w, Post(p.read, p.seen, CallFailed));
      assert w'.posts == w.posts + [p];
      if w.recorded.Some? { assert w'.posts[w.recorded.value] == w.posts[w.recorded.value]; }
    }
  }

  lemma {:induction false} ScreeningKeepsInv(w: World, listed: Option<nat>)
    requires Inv(w)
    ensures Inv(Step(w, ListPolicies(listed)))
  {
    ClearedStays(w, Step(w, ListPolicies(listed)));
    if w.worker.AgentFound? && listed.Some? && listed.value < |w.policies| {
      DecisionIsOk(w, w.worker.read, listed.value);
    }
  }

  /** Whatever the screening decides, the worker may go on with it. */
  lemma {:induction false} DecisionIsOk(w: World, read: Send, seen: nat)
    requires Holds(w, read) && seen < |w.policies|
    ensures WorkerOk(w.(worker := AfterScreening(w, read, seen)))
  {
    assert read in w.versions;
    ScreeningJudgesTheSend(w.lower, read, w.policies[seen]);
  }

  lemma {:induction false} StepKeepsInv(w: World, e: Event)
    requires Inv(w)
    ensures Inv(Step(w, e))
  {
    match e
    case EditSpec(spec) => EditKeepsInv(w, spec);
    case WriteStatus(delivered) => WriteKeepsInv(w, delivered);
    case PostMessage(reply) => PostKeepsInv(w, reply);
    case ListPolicies(listed) => ScreeningKeepsInv(w, listed);
    case ChangePolicies(policies) => ListsKeepInv(w, policies);
    case Crash => CrashKeepsInv(w);
    case Read(i) => ReadKeepsInv(w, i);
    case GetAgent(answer) => AgentKeepsInv(w, answer);
    case GetSecret(found) => SecretKeepsInv(w, found);
  }

  lemma {:induction false} ListsKeepInv(w: World, policies: seq<P.Policy>)
    requires Inv(w)
    ensures Inv(Step(w, ChangePolicies(policies)))
  {
    ClearedStays(w, Step(w, ChangePolicies(policies)));
  }

  lemma {:induction false} CrashKeepsInv(w: World)
    requires Inv(w)
    ensures Inv(Step(w, Crash))
  {
    ClearedStays(w, Step(w, Crash));
  }

  lemma {:induction false} ReadKeepsInv(w: World, i: nat)
    requires Inv(w)
    ensures Inv(Step(w, Read(i)))
  {
    ClearedStays(w, Step(w, Read(i)));
  }

  lemma {:induction false} AgentKeepsInv(w: World, answer: AgentAnswer)
    requires Inv(w)
    ensures Inv(Step(w, GetAgent(answer)))
  {
    ClearedStays(w, Step(w, GetAgent(answer)));
  }

  lemma {:induction false} SecretKeepsInv(w: World, found: bool)
    requires Inv(w)
    ensures Inv(Step(w, GetSecret(found)))
  {
    ClearedStays(w, Step(w, GetSecret(found)));
  }

  lemma {:induction false} RunKeepsInv(w: World, events: seq<Event>)
    requires Inv(w)
    ensures Inv(Run(w, events))
  {
    if events != [] {
      RunKeepsInv(w, events[..|events| - 1]);
      StepKeepsInv(Run(w, events[..|events| - 1]), events[|events| - 1]);
    }
  }

  lemma {:induction false} Reached(w: World, events: seq<Event>)
    requires Initial(w)
    ensures Inv(Run(w, events))
  {
    RunKeepsInv(w, events);
  }

  // ---- Main results ----

  /** Every POST of every run was screened: no deny rule matches its message, and it was approved if
      an approval rule does, in the send and the policies that very reconcile had read. */
  lemma {:induction false} EveryPostWasScreened(w: World, events: seq<Event>, p: Post)
    requires Initial(w) && p in Run(w, events).posts
    ensures Cleared(Run(w, events), p)
  {
    Reached(w, events);
  }

  /** From the m-th version of the send and the n-th policy list on, a deny rule matches. */
  ghost predicate DeniedFrom(w: World, m: nat, n: nat) {
    forall i, j :: m <= i < |w.versions| && n <= j < |w.policies| ==>
      SomeRuleMatches(w.lower, w.versions[i], w.policies[j], P.DenyRule)
  }

  /** Reads meet no version and no list older than these. */
  predicate ReadsFrom(events: seq<Event>, m: nat, n: nat) {
    forall k :: 0 <= k < |events| ==>
      && (events[k].Read? ==> events[k].version >= m)
      && (events[k].ListPolicies? && events[k].listed.Some? ==> events[k].listed.value >= n)
  }

  /** A deny rule beats approval. Let the worker rest, for instance because the send waits for
      approval; from then on let reads meet only versions and policy lists in which a deny rule
      fires. Whatever happens, approval included, no further POST is made. */
  lemma {:induction false} DenyBeatsApproval(w: World, events: seq<Event>, more: seq<Event>, m: nat, n: nat)
    requires Initial(w) && Run(w, events).worker.Idle?
    requires ReadsFrom(more, m, n) && DeniedFrom(Run(w, events + more), m, n)
    ensures Run(w, events + more).posts == Run(w, events).posts
  {
    Reached(w, events);
    RunInParts(w, events, more);
    NoPostIfDenied(Run(w, events), more, m, n);
  }

  /** No screening was passed, and what the worker holds is no older than the m-th version. */
  predicate HeldBack(w: World, m: nat) {
    && !w.worker.Screened? && !w.worker.Ready?
    && (w.worker.Loaded? || w.worker.AgentFound? ==> w.worker.read.version >= m)
  }

  lemma {:induction false} NoPostIfDenied(w: World, more: seq<Event>, m: nat, n: nat)
    requires Inv(w) && w.worker.Idle? && ReadsFrom(more, m, n) && DeniedFrom(Run(w, more), m, n)
    ensures HeldBack(Run(w, more), m) && Run(w, more).posts == w.posts
  {
    if more != [] {
      var front, e := more[..|more| - 1], more[|more| - 1];
      var v := Run(w, front);
      RunKeepsInv(w, front);
      StepOnlyAdds(v, e);
      DeniedBefore(v, Step(v, e), m, n);
      assert ReadsFrom(front, m, n);
      NoPostIfDenied(w, front, m, n);
      StepHoldsBack(v, e, m, n);
    }
  }

  lemma {:induction false} StepOnlyAdds(w: World, e: Event)
    ensures w.versions <= Step(w, e).versions && w.policies <= Step(w, e).policies && Step(w, e).lower == w.lower
  {
  }

  lemma {:induction false} DeniedBefore(w: World, v: World, m: nat, n: nat)
    requires w.versions <= v.versions && w.policies <= v.policies && v.lower == w.lower && DeniedFrom(v, m, n)
    ensures DeniedFrom(w, m, n)
  {
    forall i, j | m <= i < |w.versions| && n <= j < |w.policies|
      ensures SomeRuleMatches(w.lower, w.versions[i], w.policies[j], P.DenyRule)
    {
      assert w.versions[i] == v.versions[i] && w.policies[j] == v.policies[j];
    }
  }

  lemma {:induction false} StepHoldsBack(w: World, e: Event, m: nat, n: nat)
    requires Inv(w) && HeldBack(w, m) && ReadsFrom([e], m, n) && DeniedFrom(w, m, n)
    ensures HeldBack(Step(w, e), m) && Step(w, e).posts == w.posts
  {
    assert [e][0] == e;
    if e.ListPolicies? && w.worker.AgentFound? && e.listed.Some? && e.listed.value < |w.policies| {
      var read := w.worker.read;
      assert w.versions[read.version] == read;
      assert SomeRuleMatches(w.lower, read, w.policies[e.listed.value], P.DenyRule);
      ScreeningJudgesTheSend(w.lower, read, w.policies[e.listed.value]);
    }
  }

  /** Every POST but one is paid for by a status write that was lost: at most one POST is recorded,
      and at most one has its write still pending. Between reconciles the count is at most one
      more than the writes lost. */
  lemma {:induction false} PostsAreBounded(w: World, events: seq<Event>)
    requires Initial(w)
    ensures var v := Run(w, events);
            && |v.posts| == v.lost + One(v.recorded.Some?) + One(WritePending(v))
            && (!WritePending(v) ==> |v.posts| <= 1 + v.lost)
  {
    Reached(w, events);
  }

  /** Done, Error and Denied are never left, and the queue id stays with them. */
  lemma {:induction false} TerminalIsFinal(
      w: World, events: seq<Event>, more: seq<Event>, phase: Phase, queueId: string)
    requires Initial(w)
    requires phase in {Done, Error, Denied} && Stands(Run(w, events), phase, queueId)
    ensures Stands(Run(w, events + more), phase, queueId)
  {
    RunInParts(w, events, more);
    Reached(w, events);
    FinalStays(Run(w, events), more, phase, queueId);
  }

  lemma {:induction false} FinalStays(w: World, more: seq<Event>, phase: Phase, queueId: string)
    requires Inv(w) && phase.Terminal() && Stands(w, phase, queueId)
    ensures Stands(Run(w, more), phase, queueId)
  {
    if more != [] {
      var v := Run(w, more[..|more| - 1]);
      FinalStays(w, more[..|more| - 1], phase, queueId);
      RunKeepsInv(w, more[..|more| - 1]);
      FinalStepStays(v, more[|more| - 1], phase, queueId);
    }
  }

  lemma {:induction false} FinalStepStays(w: World, e: Event, phase: Phase, queueId: string)
    requires Inv(w) && phase.Terminal() && Stands(w, phase, queueId)
    ensures Stands(Step(w, e), phase, queueId)
  {
    if e.WriteStatus? && w.worker.Writing? && Accepted(w, e.delivered) {
      assert false;
    }
  }

  ghost predicate Stands(w: World, phase: Phase, queueId: string) {
    w.versions != [] && w.Latest().phase == phase && w.Latest().queueId == queueId
  }

  /** Done holds exactly the queue id that the agent returned for the recorded POST. */
  lemma {:induction false} DoneRecordsItsOwnPost(w: World, events: seq<Event>, queueId: string)
    requires Initial(w)
    requires Stands(Run(w, events), Done, queueId)
    ensures var v := Run(w, events);
            && v.recorded.Some? && v.recorded.value < |v.posts|
            && v.posts[v.recorded.value].reply == Queued(queueId)
  {
    Reached(w, events);
  }

  // ---- The reconciler ----

  /** Everything that is not the reconciler's own choice in one call of `Reconcile`: what its calls
      are answered, after how many calls the process dies (0: never), what happens outside before each. */
  datatype Fate = Fate(
    read: nat, agent: AgentAnswer, listed: Option<nat>, secretFound: bool, reply: Reply, delivered: bool,
    dies: nat, gaps: seq<seq<Event>>)
  {
    function Gap(k: nat): seq<Event> { if k < |gaps| then gaps[k] else [] }

    predicate Fits(stored: nat, lists: nat) {
      read < stored && (listed.Some? ==> listed.value < lists)
      && forall k, i :: 0 <= k < |gaps| && 0 <= i < |gaps[k]| ==> gaps[k][i].FromOutside()
    }

    /** Nothing interferes and the process lives. */
    predicate Quiet() { dies == 0 && gaps == [] }

    function NextCall(worker: Worker): Event {
      match worker
      case Idle => Read(read)
      case Loaded(_) => GetAgent(agent)
      case AgentFound(_) => ListPolicies(listed)
      case Screened(_, _) => GetSecret(secretFound)
      case Ready(_, _) => PostMessage(reply)
      case Writing(_, _) => WriteStatus(delivered)
    }
  }

  /** The rest of a reconcile in which nothing interferes. */
  ghost function Settled(w: World, fate: Fate): World
    decreases w.worker.Left()
  {
    var v := Step(w, fate.NextCall(w.worker));
    if v.worker.Left() >= w.worker.Left() then w else Settled(v, fate)
  }

  ghost function Reconciled(w: World, fate: Fate): World { Settled(Step(w, Read(fate.read)), fate) }

  /** The source returns at once for a send that is done with, or waits for an approval it does not have. */
  predicate IsLeftAlone(send: Send) {
    send.phase in {Done, Error, Denied} || (send.phase.PendingApproval? && !send.spec.approved)
  }

  /** One undisturbed reconcile that reads the latest version, finds the agent running and lists
      policies: a POST is made exactly when the screening lets it through, and the phase says which. */
  lemma {:induction false} WhatOneReconcileDoes(w: World, fate: Fate)
    requires w.versions != [] && w.worker.Idle?
    requires fate.read == |w.versions| - 1 && fate.agent.Running? && fate.delivered && fate.secretFound
    requires fate.listed.Some? && fate.listed.value < |w.policies|
    ensures var send, v, policies := w.Latest(), Reconciled(w, fate), w.policies[fate.listed.value];
            if IsLeftAlone(send) then v == w
            else if SomeRuleMatches(w.lower, send, policies, P.DenyRule) then
              v.posts == w.posts && Stands(v, Denied, send.queueId)
            else if SomeRuleMatches(w.lower, send, policies, P.ApprovalRule) && !send.spec.approved then
              v.posts == w.posts && Stands(v, PendingApproval, send.queueId)
            else
              && v.posts == w.posts + [Post(send, fate.listed.value, fate.reply)]
              && v.lost == w.lost && v.recorded == Some(|w.posts|)
              && if fate.reply.Queued? then Stands(v, Done, fate.reply.queueId) else Stands(v, Error, send.queueId)
  {
    var send := w.Latest();
    if IsLeftAlone(send) {
      SettleIdle(w, fate);
    } else {
      SettleLoaded(w.(worker := Loaded(send)), send, fate);
      ScreeningJudgesTheSend(w.lower, send, w.policies[fate.listed.value]);
      DecisionIsCarriedOut(
        w, P.Strictest(Wanted(w.lower, send), w.policies[fate.listed.value]), send, fate);
    }
  }

  lemma {:induction false} DecisionIsCarriedOut(w: World, decision: P.Decision, send: Send, fate: Fate)
    requires w.versions != [] && send == w.Latest() && fate.delivered && fate.secretFound
    requires fate.listed.Some? && fate.listed.value < |w.policies|
    requires decision == P.Strictest(Wanted(w.lower, send), w.policies[fate.listed.value])
    ensures var v := Settled(w.(worker := AfterDecision(decision, send, fate.listed.value)), fate);
            if decision.Denied? then v.posts == w.posts && Stands(v, Denied, send.queueId)
            else if decision.NeedsApproval? && !send.spec.approved then
              v.posts == w.posts && Stands(v, PendingApproval, send.queueId)
            else
              && v.posts == w.posts + [Post(send, fate.listed.value, fate.reply)]
              && v.lost == w.lost && v.recorded == Some(|w.posts|)
              && if fate.reply.Queued? then Stands(v, Done, fate.reply.queueId) else Stands(v, Error, send.queueId)
  {
    SettleScreening(w.(worker := AfterDecision(decision, send, fate.listed.value)), send, fate);
  }

  /** The other ways an undisturbed reconcile of the latest version ends, all without a POST: an
      agent that is not running yet changes nothing; a missing agent, a failed policy list and, once
      the screening lets the send through, a missing provider secret each end it in Error. */
  lemma {:induction false} WhatAFailedCallDoes(w: World, fate: Fate)
    requires w.versions != [] && w.worker.Idle? && fate.read == |w.versions| - 1 && fate.delivered
    requires !IsLeftAlone(w.Latest())
    ensures var send, v := w.Latest(), Reconciled(w, fate);
            && (fate.agent.NotRunning? ==> v == w)
            && (fate.agent.Missing? || (fate.agent.Running? && fate.listed.None?) ==>
                  v.posts == w.posts && Stands(v, Error, send.queueId))
            && (fate.agent.Running? && fate.listed.Some? && fate.listed.value < |w.policies|
                && send.spec.secretRef && !fate.secretFound
                && !SomeRuleMatches(w.lower, send, w.policies[fate.listed.value], P.DenyRule)
                && (SomeRuleMatches(w.lower, send, w.policies[fate.listed.value], P.ApprovalRule) ==>
                      send.spec.approved) ==>
                  v.posts == w.posts && Stands(v, Error, send.queueId))
  {
    var send := w.Latest();
    var loaded := w.(worker := Loaded(send));
    var failed := w.(worker := Writing(send.(phase := Error), None));
    SettleIdle(w, fate);
    SettleWrite(failed, fate);
    if fate.agent.NotRunning? {
      SettleNext(loaded, w, fate);
    } else if fate.agent.Missing? {
      SettleNext(loaded, failed, fate);
    } else {
      var found := w.(worker := AgentFound(send));
      SettleNext(loaded, found, fate);
      if fate.listed.None? {
        SettleNext(found, failed, fate);
      } else if fate.listed.value < |w.policies| {
        ScreeningJudgesTheSend(w.lower, send, w.policies[fate.listed.value]);
        var screened := w.(worker := AfterScreening(w, send, fate.listed.value));
        SettleNext(found, screened, fate);
        if screened.worker.Screened? && !fate.secretFound { SettleNext(screened, failed, fate); }
      }
    }
  }

  lemma {:induction false} SettleIdle(w: World, fate: Fate)
    requires w.worker.Idle?
    ensures Settled(w, fate) == w
  {
  }

  lemma {:induction false} SettleNext(w: World, v: World, fate: Fate)
    requires v == Step(w, fate.NextCall(w.worker)) && v.worker.Left() < w.worker.Left()
    ensures Settled(w, fate) == Settled(v, fate)
  {
  }

  lemma {:induction false} SettleLoaded(w: World, send: Send, fate: Fate)
    requires w.worker == Loaded(send) && fate.agent.Running?
    requires fate.listed.Some? && fate.listed.value < |w.policies|
    ensures Settled(w, fate) == Settled(w.(worker := AfterScreening(w, send, fate.listed.value)), fate)
  {
    var found := w.(worker := AgentFound(send));
    SettleNext(w, found, fate);
    SettleListed(found, send, fate);
  }

  lemma {:induction false} SettleListed(w: World, send: Send, fate: Fate)
    requires w.worker == AgentFound(send) && fate.listed.Some? && fate.listed.value < |w.policies|
    ensures Settled(w, fate) == Settled(w.(worker := AfterScreening(w, send, fate.listed.value)), fate)
  {
    SettleNext(w, w.(worker := AfterScreening(w, send, fate.listed.value)), fate);
  }

  lemma {:induction false} SettleScreening(w: World, send: Send, fate: Fate)
    requires fate.delivered && fate.secretFound && w.versions != [] && send.version == w.Latest().version
    requires fate.listed.Some? && fate.listed.value < |w.policies|
    requires w.worker == AfterScreening(w, send, fate.listed.value)
    ensures match w.worker
            case Writing(local, _) =>
              Settled(w, fate) == w.(worker := Idle, versions := w.versions + [local.(version := |w.versions|)])
            case _ => Settled(w, fate) == Dispatched(w, send, fate)
  {
    match w.worker
    case Writing(_, _) => SettleWrite(w, fate);
    case Ready(_, _) => SettleReady(w, send, fate);
    case Screened(_, _) => SettleScreened(w, send, fate);
  }

  lemma {:induction false} SettleScreened(w: World, send: Send, fate: Fate)
    requires fate.delivered && fate.secretFound && w.versions != [] && send.version == w.Latest().version
    requires fate.listed.Some? && w.worker == Screened(send, fate.listed.value)
    ensures Settled(w, fate) == Dispatched(w, send, fate)
  {
    var ready := w.(worker := Ready(send, fate.listed.value));
    SettleNext(w, ready, fate);
    SettleReady(ready, send, fate);
  }

  /** After the POST and the status write that records it. */
  function Dispatched(w: World, send: Send, fate: Fate): World
    requires fate.listed.Some?
  {
    w.(worker := Idle, posts := w.posts + [Post(send, fate.listed.value, fate.reply)],
       versions := w.versions + [AfterReply(send, fate.reply).(version := |w.versions|)],
       recorded := Some(|w.posts|))
  }

  lemma {:induction false} SettleReady(w: World, send: Send, fate: Fate)
    requires fate.delivered && fate.listed.Some? && w.versions != [] && send.version == w.Latest().version
    requires w.worker == Ready(send, fate.listed.value)
    ensures Settled(w, fate) == Dispatched(w, send, fate)
  {
    var a := Step(w, PostMessage(fate.reply));
    assert Settled(w, fate) == Settled(a, fate);
    SettleWrite(a, fate);
  }

  lemma {:induction false} SettleWrite(w: World, fate: Fate)
    requires w.worker.Writing? && fate.delivered && w.versions != []
    ensures Settled(w, fate) == Step(w, WriteStatus(true))
  {
    var v := Step(w, WriteStatus(true));
    assert v.worker.Idle?;
    assert Settled(w, fate) == Settled(v, fate);
  }

  /** The API server and the agent as the reconciler meets them, and the reconciler itself.
      `history` is every event since `origin`. */
  class SendReconciler {
    const lower: char -> char
    var versions: seq<Send>
    var policies: seq<seq<P.Policy>>
    var fate: Fate
    var calls: nat
    ghost var posts: seq<Post>
    ghost var worker: Worker
    ghost var lost: nat
    ghost var recorded: Option<nat>
    ghost const origin: World
    ghost var history: seq<Event>

    ghost function View(): World
      reads this
    {
      World(lower, versions, policies, worker, posts, lost, recorded)
    }

    ghost predicate Valid()
      reads this
    {
      View() == Run(origin, history) && versions != [] && policies != [] && fate.Fits(|versions|, |policies|)
    }

    /** Only steps of the protocol were taken; if nothing disturbs them they are the worker's next
        calls, so they lead where the rest of the reconcile leads. */
    twostate predicate Kept()
      reads this
    {
      && Valid() && old(history) <= history && fate == old(fate)
      && (fate.Quiet() ==> Settled(View(), fate) == Settled(old(View()), fate))
    }

    constructor (lower: char -> char, spec: Spec, policies: seq<P.Policy>)
      ensures Valid() && Initial(origin) && history == [] && worker.Idle?
      ensures versions == [Send(0, spec, New, "")] && this.policies == [policies] && this.lower == lower
    {
      this.lower := lower;
      this.versions, this.policies, this.posts := [Send(0, spec, New, "")], [policies], [];
      this.fate, this.calls := Fate(0, Running, None, true, BadBody, true, 0, []), 0;
      this.worker, this.lost, this.recorded, this.history := Idle, 0, None, [];
      this.origin := World(lower, [Send(0, spec, New, "")], [policies], Idle, [], 0, None);
    }

    /** Takes the machine's step for `e` on the parts only the proof knows about. */
    ghost method Note(e: Event)
      requires Valid()
      modifies this`worker, this`posts, this`lost, this`recorded, this`history
      ensures var next := Step(old(View()), e);
              && worker == next.worker && posts == next.posts && lost == next.lost && recorded == next.recorded
              && Run(origin, history) == next
      ensures history == old(history) + [e]
    {
      RunOneMore(origin, history, e);
      var next := Step(View(), e);
      worker, posts, lost, recorded := next.worker, next.posts, next.lost, next.recorded;
      history := history + [e];
    }

    method Interfere(events: seq<Event>)
      requires Valid() && forall i :: 0 <= i < |events| ==> events[i].FromOutside()
      modifies this
      ensures Valid() && worker == old(worker) && old(history) <= history
      ensures fate == old(fate) && calls == old(calls)
      ensures events == [] ==> View() == old(View())
    {
      for k := 0 to |events|
        invariant Valid() && worker == old(worker) && old(history) <= history
        invariant fate == old(fate) && calls == old(calls)
        invariant k == 0 ==> View() == old(View())
      {
        Note(events[k]);
        match events[k] {
          case EditSpec(spec) =>
            versions := versions + [versions[|versions| - 1].(version := |versions|, spec := spec)];
          case ChangePolicies(ps) =>
            policies := policies + [ps];
          case _ =>
        }
      }
    }

    /** What precedes every call: others may act, and the process may die. */
    method Begin() returns (alive: bool)
      requires Valid()
      modifies this
      ensures Valid() && old(history) <= history && fate == old(fate)
      ensures worker == if alive then old(worker) else Idle
      ensures fate.Quiet() ==> alive && View() == old(View())
    {
      Interfere(fate.Gap(calls));
      calls := calls + 1;
      alive := fate.dies != calls;
      if !alive {
        Note(Crash);
      }
    }

    method Get() returns (got: Option<Send>)
      requires Valid() && worker.Idle?
      modifies this
      ensures Valid() && old(history) <= history && fate == old(fate)
      ensures fate.Quiet() ==> got.Some? && View() == Step(old(View()), Read(fate.read))
      ensures worker == if got.None? || got.value.phase in {Done, Error, Denied}
                           || (got.value.phase.PendingApproval? && !got.value.spec.approved) then Idle
                        else Loaded(got.value)
    {
      var alive := Begin();
      if !alive {
        return None;
      }
      Note(Read(fate.read));
      got := Some(versions[fate.read]);
    }

    /** `None`: the process died. */
    method GetAgentPhase(send: Send) returns (answer: Option<AgentAnswer>)
      requires Valid() && worker == Loaded(send)
      modifies this
      ensures Kept()
      ensures worker == if answer.None? || answer.value.NotRunning? then Idle
                        else if answer.value.Missing? then Writing(send.(phase := Error), None)
                        else AgentFound(send)
    {
      var alive := Begin();
      if !alive {
        return None;
      }
      Note(GetAgent(fate.agent));
      answer := Some(fate.agent);
    }

    /** `None`: the process died; `Some(None)`: the call failed. */
    method GetPolicies(send: Send) returns (listing: Option<Option<seq<P.Policy>>>)
      requires Valid() && worker == AgentFound(send)
      modifies this
      ensures Kept()
      ensures listing.Some? && listing.value.Some? ==> fate.listed.Some?
      ensures worker ==
        if listing.None? then Idle
        else if listing.value.None? then Writing(send.(phase := Error), None)
        else AfterDecision(P.Strictest(Wanted(lower, send), listing.value.value), send, fate.listed.value)
    {
      var alive := Begin();
      if !alive {
        return None;
      }
      Note(ListPolicies(fate.listed));
      listing := Some(if fate.listed.Some? then Some(policies[fate.listed.value]) else None);
    }

    /** `None`: the process died. */
    method GetProviderSecret(send: Send, ghost seen: nat) returns (found: Option<bool>)
      requires Valid() && worker == Screened(send, seen)
      modifies this
      ensures Kept()
      ensures worker == if found.None? then Idle
                        else if found.value then Ready(send, seen) else Writing(send.(phase := Error), None)
    {
      var alive := Begin();
      if !alive {
        return None;
      }
      Note(GetSecret(fate.secretFound));
      found := Some(fate.secretFound);
    }

    /** `None`: the process died before the POST. */
    method CallAgent(send: Send, ghost seen: nat) returns (resp: Option<Reply>)
      requires Valid() && worker == Ready(send, seen)
      modifies this
      ensures Kept()
      ensures resp.Some? ==> posts != []
      ensures worker == if resp.None? then Idle
                        else Writing(AfterReply(send, resp.value), Some(|posts| - 1))
    {
      var alive := Begin();
      if !alive {
        return None;
      }
      Note(PostMessage(fate.reply));
      resp := Some(fate.reply);
    }

    method UpdateStatus(local: Send)
      requires Valid() && worker.Writing? && worker.local == local
      modifies this
      ensures Kept() && worker.Idle?
    {
      var alive := Begin();
      if !alive {
        return;
      }
      ghost var before := View();
      StoreStatus(local);
      if fate.Quiet() {
        SettleNext(before, View(), fate);
      }
    }

    /** The write itself: stored only if it is delivered and made from the latest version. */
    method StoreStatus(local: Send)
      requires Valid() && worker.Writing? && worker.local == local
      modifies this`versions, this`worker, this`posts, this`lost, this`recorded, this`history
      ensures Valid() && old(history) <= history && worker.Idle?
      ensures View() == Step(old(View()), WriteStatus(fate.delivered))
    {
      Note(WriteStatus(fate.delivered));
      if fate.delivered && local.version == versions[|versions| - 1].version {
        versions := versions + [local.(version := |versions|)];
      }
    }

    /** The source's Reconcile. Whatever happens around it, it leaves the store as some run of the
        protocol does, so every POST it makes was screened and the POST count stays bounded. */
    method Reconcile(fate: Fate)
      requires Valid() && Initial(origin) && worker.Idle? && fate.Fits(|versions|, |policies|)
      modifies this
      ensures Valid() && worker.Idle? && old(history) <= history
      ensures fate.Quiet() ==> View() == Reconciled(old(View()), fate)
      ensures forall p :: p in posts ==> Cleared(View(), p)
      ensures |posts| <= 1 + lost
    {
      this.fate, this.calls := fate, 0;
      Attempt();
      Reached(origin, history);
      PostsAreBounded(origin, history);
    }

    method Attempt()
      requires Valid() && worker.Idle?
      modifies this
      ensures Valid() && worker.Idle? && old(history) <= history && fate == old(fate)
      ensures fate.Quiet() ==> View() == Reconciled(old(View()), fate)
    {
      var got := Get();
      if got.None? {
        return;
      }
      var send := got.value;
      if send.phase.Terminal() {
        return;
      }
      if send.phase.PendingApproval? && !send.spec.approved {
        return;
      }
      Screen(send);
    }

    /** From the agent lookup on. */
    method Screen(send: Send)
      requires Valid() && worker == Loaded(send)
      modifies this
      ensures Kept() && worker.Idle?
    {
      var answer := GetAgentPhase(send);
      if answer.None? || answer.value.NotRunning? {
        return;
      }
      if answer.value.Missing? {
        UpdateStatus(send.(phase := Error));
        return;
      }
      var listing := GetPolicies(send);
      if listing.None? {
        return;
      }
      var evalResult := P.EvaluatePolicies(listing.value, Wanted(lower, send));
      if evalResult.None? {
        UpdateStatus(send.(phase := Error));
        return;
      }
      match evalResult.value.decision {
        case Denied =>
          UpdateStatus(send.(phase := Denied));
          return;
        case NeedsApproval =>
          if !send.spec.approved {
            UpdateStatus(send.(phase := PendingApproval));
            return;
          }
        case Allow =>
      }
      Dispatch(send, fate.listed.value);
    }

    /** From the provider secret on. */
    method Dispatch(send: Send, ghost seen: nat)
      requires Valid()
      requires worker == if send.spec.secretRef then Screened(send, seen) else Ready(send, seen)
      modifies this
      ensures Kept() && worker.Idle?
    {
      if send.spec.secretRef {
        var found := GetProviderSecret(send, seen);
        if found.None? {
          return;
        }
        if !found.value {
          UpdateStatus(send.(phase := Error));
          return;
        }
      }
      var resp := CallAgent(send, seen);
      if resp.None? {
        return;
      }
      match resp.value {
        case Queued(id) =>
          UpdateStatus(send.(phase := Done, queueId := id));
        case _ =>
          UpdateStatus(send.(phase := Error));
      }
    }
  }
}
