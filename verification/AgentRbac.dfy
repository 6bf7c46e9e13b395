/** RBAC of an agent: the RBAC part of `kubecopilotagent_controller.go`.

    Role, binding and service account live in the agent's namespace and are collected with it.
    ClusterRole and ClusterRoleBinding are not: the reconciler guards them with a finalizer. `Step`
    is the protocol, one event for each API call and for each thing that may happen in between;
    a process that dies around a call looks like a refused call or a lost reply. */
module AgentRbac {
  import opened Wrappers

  /** `RbacCleanup` is the controller's own finalizer, "kubecopilot.io/rbac-cleanup". */
  datatype Finalizer = RbacCleanup | Foreign(name: string)

  const FINALIZER := RbacCleanup

  /** The three fields of `spec.rbac`; a rule is a text here. */
  datatype Rbac = Rbac(account: string, rules: seq<string>, clusterRules: seq<string>)

  datatype Agent = Agent(
    uid: nat, version: nat, deleting: bool, finalizers: seq<Finalizer>, rbac: Option<Rbac>, hasId: bool)

  /** A namespaced object and the agent it was created for. */
  datatype Owned<+T> = Owned(owner: nat, value: T)

  datatype Worker =
    | Idle
    | SaveId(s: Agent)
    | GetAccount(s: Agent)
    | CreateAccount(s: Agent)
    | GetRole(s: Agent)
    | WriteRole(s: Agent, known: bool)
    | GetBinding(s: Agent)
    | WriteBinding(s: Agent, known: bool)
    | AddFinalizer(s: Agent)
    | GetClusterRole(s: Agent)
    | WriteClusterRole(s: Agent, known: bool)
    | GetClusterBinding(s: Agent)
    | WriteClusterBinding(s: Agent, known: bool)
    | FindClusterBinding(s: Agent)
    | DeleteClusterBinding(s: Agent)
    | FindClusterRole(s: Agent)
    | DeleteClusterRole(s: Agent)
    | RemoveFinalizer(s: Agent)
  {
    predicate Cleaning() {
      FindClusterBinding? || DeleteClusterBinding? || FindClusterRole? || DeleteClusterRole? || RemoveFinalizer?
    }

    predicate OnCluster() {
      GetClusterRole? || WriteClusterRole? || GetClusterBinding? || WriteClusterBinding?
    }

    /** A bound on the calls still to come. */
    function Left(): nat {
      match this
      case Idle => 0
      case SaveId(_) => 14
      case GetAccount(_) => 13
      case CreateAccount(_) => 12
      case GetRole(_) => 11
      case WriteRole(_, _) => 10
      case GetBinding(_) => 9
      case WriteBinding(_, _) => 8
      case AddFinalizer(_) => 7
      case GetClusterRole(_) => 6
      case WriteClusterRole(_, _) => 5
      case GetClusterBinding(_) => 4
      case WriteClusterBinding(_, _) => 3
      case FindClusterBinding(_) => 5
      case DeleteClusterBinding(_) => 4
      case FindClusterRole(_) => 3
      case DeleteClusterRole(_) => 2
      case RemoveFinalizer(_) => 1
    }
  }

  /** `binding` and `clusterBinding` hold the service account they name. */
  datatype World = World(
    name: string, agent: Option<Agent>, clock: nat,
    accounts: map<string, nat>, role: Option<Owned<seq<string>>>, binding: Option<Owned<string>>,
    clusterRole: Option<seq<string>>, clusterBinding: Option<string>, worker: Worker)

  /** `Unreadable`: a read that answers neither found nor not-found. */
  datatype Fault = Fine | Refused | ReplyLost | Unreadable

  datatype Event =
    | CreateAgent(finalizers: seq<Finalizer>, rbac: Option<Rbac>)
    | DeleteAgent
    | EditRbac(rbac: Option<Rbac>)
    | DropFinalizer(finalizer: Finalizer)
    | Collect
    | Call(fault: Fault)
  {
    predicate FromOutside() { !Call? }
  }

  // ---- Finalizer helpers ----

  predicate ContainsFinalizer(s: Agent, finalizer: Finalizer) { finalizer in s.finalizers }

  function Without(finalizers: seq<Finalizer>, finalizer: Finalizer): (rest: seq<Finalizer>)
    ensures finalizer !in rest
    ensures forall f :: f != finalizer ==> (f in rest <==> f in finalizers)
  {
    if finalizers == [] then []
    else
      var last := finalizers[|finalizers| - 1];
      Without(finalizers[..|finalizers| - 1], finalizer) + if last == finalizer then [] else [last]
  }

  /** Nothing goes but the finalizer itself, and nothing changes its place. */
  lemma {:induction false} WithoutKeepsOthers(a: seq<Finalizer>, finalizer: Finalizer)
    requires forall k :: 0 <= k < |a| ==> a[k] != finalizer
    ensures Without(a, finalizer) == a
  {
    if a == [] {
    } else {
      var front, last := a[..|a| - 1], a[|a| - 1];
      WithoutKeepsOthers(front, finalizer);
      assert Without(a, finalizer) == front + [last];
    }
  }

  /** removeFinalizer: every occurrence goes, the others keep their order. */
  method WithoutFinalizer(finalizers: seq<Finalizer>, finalizer: Finalizer) returns (result: seq<Finalizer>)
    ensures result == Without(finalizers, finalizer)
  {
    result := [];
    for k := 0 to |finalizers|
      invariant result == Without(finalizers[..k], finalizer)
    {
      assert finalizers[..k + 1][..k] == finalizers[..k];
      if finalizers[k] != finalizer {
        result := result + [finalizers[k]];
      }
    }
    assert finalizers[..|finalizers|] == finalizers;
  }

  function AccountName(name: string, rbac: Option<Rbac>): string {
    if rbac.Some? && rbac.value.account != "" then rbac.value.account else name + "-sa"
  }

  // ---- The protocol ----

  function Settle(s: Agent): Option<Agent> {
    if s.deleting && s.finalizers == [] then None else Some(s)
  }

  /** A write bumps the version, unless it changes nothing. */
  function Put(w: World, now: Agent): World
    requires w.agent.Some?
  {
    if now == w.agent.value then w.(agent := Settle(now))
    else w.(agent := Settle(now.(version := w.clock)), clock := w.clock + 1)
  }

  predicate OwnedBy<T>(agent: Option<Agent>, held: Option<Owned<T>>) {
    held.Some? && agent.Some? && held.value.owner == agent.value.uid
  }

  function Outside(w: World, e: Event): World
    requires e.FromOutside()
  {
    match e
    case CreateAgent(finalizers, rbac) =>
      if w.agent.Some? then w
      else w.(agent := Some(Agent(w.clock, w.clock, false, finalizers, rbac, false)), clock := w.clock + 1)
    case DeleteAgent => if w.agent.None? then w else Put(w, w.agent.value.(deleting := true))
    case EditRbac(rbac) => if w.agent.None? then w else Put(w, w.agent.value.(rbac := rbac))
    case DropFinalizer(f) =>
      if w.agent.None? || f == FINALIZER then w
      else Put(w, w.agent.value.(finalizers := Without(w.agent.value.finalizers, f)))
    case Collect =>
      w.(accounts := map a | a in w.accounts && w.agent.Some? && w.accounts[a] == w.agent.value.uid :: w.accounts[a],
         role := if OwnedBy(w.agent, w.role) then w.role else None,
         binding := if OwnedBy(w.agent, w.binding) then w.binding else None)
  }

  lemma {:induction false} OutsideIgnoresWorker(w: World, e: Event)
    requires e.FromOutside()
    ensures Outside(w, e) == Outside(w.(worker := Idle), e).(worker := w.worker)
    ensures Outside(w, e).name == w.name
    ensures Outside(w, e).clusterRole == w.clusterRole && Outside(w, e).clusterBinding == w.clusterBinding
  {
  }

  predicate Current(w: World, s: Agent) { w.agent.Some? && w.agent.value.version == s.version }

  function AfterGet(s: Agent): Worker {
    if s.deleting then (if ContainsFinalizer(s, FINALIZER) then FindClusterBinding(s) else Idle)
    else if !s.hasId then SaveId(s) else AfterId(s)
  }

  function AfterId(s: Agent): Worker { if s.rbac.None? then Idle else GetAccount(s) }

  function AfterAccount(s: Agent): Worker
    requires s.rbac.Some?
  {
    if s.rbac.value.rules != [] then GetRole(s) else AfterBinding(s)
  }

  function AfterBinding(s: Agent): Worker
    requires s.rbac.Some?
  {
    if s.rbac.value.clusterRules == [] then Idle
    else if ContainsFinalizer(s, FINALIZER) then GetClusterRole(s) else AddFinalizer(s)
  }

  /** The worker's next call, carried out. */
  function Perform(w: World): World {
    match w.worker
    case Idle => if w.agent.None? then w else w.(worker := AfterGet(w.agent.value))
    case SaveId(s) =>
      if !Current(w, s) then w.(worker := Idle)
      else var s' := s.(hasId := true, version := w.clock);
           w.(agent := Some(s'), clock := w.clock + 1, worker := AfterId(s'))
    case AddFinalizer(s) =>
      if !Current(w, s) then w.(worker := Idle)
      else var s' := s.(finalizers := s.finalizers + [FINALIZER], version := w.clock);
           w.(agent := Some(s'), clock := w.clock + 1, worker := GetClusterRole(s'))
    case FindClusterBinding(s) =>
      w.(worker := if w.clusterBinding.Some? then DeleteClusterBinding(s) else FindClusterRole(s))
    case DeleteClusterBinding(s) => w.(clusterBinding := None, worker := FindClusterRole(s))
    case FindClusterRole(s) =>
      w.(worker := if w.clusterRole.Some? then DeleteClusterRole(s) else RemoveFinalizer(s))
    case DeleteClusterRole(s) => w.(clusterRole := None, worker := RemoveFinalizer(s))
    case RemoveFinalizer(s) =>
      if !Current(w, s) then w.(worker := Idle)
      else Put(w, s.(finalizers := Without(s.finalizers, FINALIZER))).(worker := Idle)
    case _ => Provide(w, w.worker.s)
  }

  /** The calls that create or bring up to date, for an agent whose `rbac` is set. */
  function Provide(w: World, s: Agent): World {
    if s.rbac.None? then w.(worker := Idle)
    else
      var rbac, account := s.rbac.value, AccountName(w.name, s.rbac);
      match w.worker
      case GetAccount(_) => w.(worker := if account in w.accounts then AfterAccount(s) else CreateAccount(s))
      case CreateAccount(_) =>
        if account in w.accounts then w.(worker := Idle)
        else w.(accounts := w.accounts[account := s.uid], worker := AfterAccount(s))
      case GetRole(_) => w.(worker := WriteRole(s, w.role.Some?))
      case WriteRole(_, known) =>
        if known != w.role.Some? then w.(worker := Idle)
        else w.(role := Some(Owned(if known then w.role.value.owner else s.uid, rbac.rules)), worker := GetBinding(s))
      case GetBinding(_) => w.(worker := WriteBinding(s, w.binding.Some?))
      case WriteBinding(_, known) =>
        if known != w.binding.Some? then w.(worker := Idle)
        else w.(binding := Some(Owned(if known then w.binding.value.owner else s.uid, account)),
                worker := AfterBinding(s))
      case GetClusterRole(_) => w.(worker := WriteClusterRole(s, w.clusterRole.Some?))
      case WriteClusterRole(_, known) =>
        if known != w.clusterRole.Some? then w.(worker := Idle)
        else w.(clusterRole := Some(rbac.clusterRules), worker := GetClusterBinding(s))
      case GetClusterBinding(_) => w.(worker := WriteClusterBinding(s, w.clusterBinding.Some?))
      case WriteClusterBinding(_, known) =>
        if known != w.clusterBinding.Some? then w.(worker := Idle)
        else w.(clusterBinding := Some(account), worker := Idle)
      case _ => w.(worker := Idle)
  }

  /** A clean-up read that fails otherwise than by not-found: the code goes on as if there were
      nothing to delete. Every other call that cannot be answered ends the reconcile. */
  function Skip(w: World): World {
    match w.worker
    case FindClusterBinding(s) => w.(worker := FindClusterRole(s))
    case FindClusterRole(s) => w.(worker := RemoveFinalizer(s))
    case _ => w.(worker := Idle)
  }

  function Step(w: World, e: Event): World {
    match e
    case Call(Fine) => Perform(w)
    case Call(Refused) => w.(worker := Idle)
    case Call(ReplyLost) => Perform(w).(worker := Idle)
    case Call(Unreadable) => Skip(w)
    case _ => Outside(w, e)
  }

  function Run(w: World, events: seq<Event>): World {
    if events == [] then w
    else Step(Run(w, events[..|events| - 1]), events[|events| - 1])
  }

  lemma {:induction false} RunOneMore(w: World, events: seq<Event>, e: Event)
    ensures Run(w, events + [e]) == Step(Run(w, events), e)
  {
    assert (events + [e])[..|events|] == events;
  }

  predicate Initial(w: World) {
    w.agent.None? && w.clusterRole.None? && w.clusterBinding.None? && w.worker.Idle?
  }

  // ---- The invariant ----

  predicate Held(w: World) { w.agent.Some? && ContainsFinalizer(w.agent.value, FINALIZER) }

  predicate Guarded(w: World) {
    && (w.clusterRole.Some? || w.clusterBinding.Some? ==> Held(w))
    && (w.clusterBinding.Some? ==> w.clusterRole.Some?)
  }

  /** The reconciler's copy: once it holds the finalizer, so does the stored agent, because only the
      one worker ever takes it off. */
  predicate CopyOk(w: World, s: Agent) {
    && s.version < w.clock
    && (Current(w, s) ==> w.agent.value == s)
    && (ContainsFinalizer(s, FINALIZER) ==> Held(w) && w.agent.value.uid == s.uid)
  }

  predicate WorkerOk(w: World) {
    w.worker.Idle? ||
    (CopyOk(w, w.worker.s) &&
     if w.worker.Cleaning() then
       && w.worker.s.deleting && ContainsFinalizer(w.worker.s, FINALIZER)
       && w.agent.value.deleting
       && (w.worker.FindClusterRole? || w.worker.DeleteClusterRole? ==> w.clusterBinding.None?)
       && (w.worker.RemoveFinalizer? ==> w.clusterBinding.None? && w.clusterRole.None?)
     else
       && !w.worker.s.deleting
       && (w.worker.OnCluster() ==> ContainsFinalizer(w.worker.s, FINALIZER))
       && (w.worker.GetClusterBinding? || w.worker.WriteClusterBinding? ==> w.clusterRole.Some?))
  }

  predicate Inv(w: World) {
    && (w.agent.Some? ==> w.agent.value.uid < w.clock && w.agent.value.version < w.clock)
    && Guarded(w) && WorkerOk(w)
  }

  lemma {:induction false} OutsideKeepsInv(w: World, e: Event)
    requires Inv(w) && e.FromOutside()
    ensures Inv(Outside(w, e))
  {
    match e
    case CreateAgent(_, _) =>
    case DeleteAgent =>
    case EditRbac(_) =>
    case DropFinalizer(_) =>
    case Collect =>
  }

  lemma {:induction false} CleanKeepsInv(w: World)
    requires Inv(w) && w.worker.Cleaning()
    ensures Inv(Perform(w))
  {
  }

  lemma {:induction false} ProvideKeepsInv(w: World)
    requires Inv(w) && !w.worker.Cleaning() && !w.worker.Idle? && !w.worker.SaveId? && !w.worker.AddFinalizer?
    ensures Inv(Perform(w))
  {
    if w.worker.OnCluster() {
      ProvideClusterKeepsInv(w);
    } else {
      ProvideNamespacedKeepsInv(w);
    }
  }

  lemma {:induction false} ProvideClusterKeepsInv(w: World)
    requires Inv(w) && w.worker.OnCluster()
    ensures Inv(Perform(w))
  {
  }

  lemma {:induction false} ProvideNamespacedKeepsInv(w: World)
    requires Inv(w) && !w.worker.Cleaning() && !w.worker.Idle? && !w.worker.SaveId? && !w.worker.AddFinalizer?
    requires !w.worker.OnCluster()
    ensures Inv(Perform(w))
  {
    if w.worker.GetAccount? || w.worker.CreateAccount? {
      ProvideAccountKeepsInv(w);
    } else {
      ProvideRoleKeepsInv(w);
    }
  }

  lemma {:induction false} ProvideAccountKeepsInv(w: World)
    requires Inv(w) && (w.worker.GetAccount? || w.worker.CreateAccount?)
    ensures Inv(Perform(w))
  {
  }

  lemma {:induction false} ProvideRoleKeepsInv(w: World)
    requires Inv(w) && (w.worker.GetRole? || w.worker.WriteRole? || w.worker.GetBinding? || w.worker.WriteBinding?)
    ensures Inv(Perform(w))
  {
  }

  lemma {:induction false} PerformKeepsInv(w: World)
    requires Inv(w)
    ensures Inv(Perform(w))
  {
    if w.worker.Cleaning() {
      CleanKeepsInv(w);
    } else if !w.worker.Idle? && !w.worker.SaveId? && !w.worker.AddFinalizer? {
      ProvideKeepsInv(w);
    }
  }

  /** A clean-up read of an object that is there fails with an error other than not-found. */
  predicate Overlooks(w: World, e: Event) {
    && e == Call(Unreadable)
    && ((w.worker.FindClusterBinding? && w.clusterBinding.Some?) || (w.worker.FindClusterRole? && w.clusterRole.Some?))
  }

  /** No clean-up read of the run overlooks an object. */
  predicate Answered(w: World, events: seq<Event>) {
    events == [] ||
    (Answered(w, events[..|events| - 1]) && !Overlooks(Run(w, events[..|events| - 1]), events[|events| - 1]))
  }

  lemma {:induction false} RunKeepsInv(w: World, events: seq<Event>)
    requires Inv(w) && Answered(w, events)
    ensures Inv(Run(w, events))
  {
    if events != [] {
      var front, e := events[..|events| - 1], events[|events| - 1];
      RunKeepsInv(w, front);
      StepKeepsInv(Run(w, front), e);
    }
  }

  lemma {:induction false} StepKeepsInv(w: World, e: Event)
    requires Inv(w) && !Overlooks(w, e)
    ensures Inv(Step(w, e))
  {
    if e.FromOutside() {
      OutsideKeepsInv(w, e);
    } else if e.fault.Unreadable? {
      SkipKeepsInv(w);
    } else {
      PerformKeepsInv(w);
      IdlingKeepsInv(if e.fault.ReplyLost? then Perform(w) else w);
    }
  }

  lemma {:induction false} SkipKeepsInv(w: World)
    requires Inv(w) && !Overlooks(w, Call(Unreadable))
    ensures Inv(Skip(w))
  {
  }

  lemma {:induction false} IdlingKeepsInv(w: World)
    requires Inv(w)
    ensures Inv(w.(worker := Idle))
  {
  }

  // ---- Main results ----

  /** At every step of every run in which no clean-up read overlooks an object, cluster-wide objects
      exist only while the agent exists and holds the finalizer, and the binding never without the
      role. Reads may fail otherwise, at any other call and for objects that are not there. */
  lemma {:induction false} ClusterObjectsAreGuarded(w: World, events: seq<Event>)
    requires Initial(w) && Answered(w, events)
    ensures Guarded(Run(w, events))
  {
    RunKeepsInv(w, events);
  }

  /** The first half of a clean-up, its read answered as `b` says. */
  function CleanBinding(w: World, b: Fault): World {
    var v := Step(w, Call(b));
    if v.worker.DeleteClusterBinding? then Perform(v) else v
  }

  function CleanRole(w: World, r: Fault): World {
    var v := Step(w, Call(r));
    if v.worker.DeleteClusterRole? then Perform(v) else v
  }

  /** One whole clean-up reconcile. */
  function CleanUp(w: World, b: Fault, r: Fault): World { Perform(CleanRole(CleanBinding(Perform(w), b), r)) }

  lemma {:induction false} CleanBindingEffect(w: World, b: Fault)
    requires w.worker.FindClusterBinding? && b in {Fine, Unreadable}
    ensures CleanBinding(w, b)
         == w.(clusterBinding := if b.Fine? then None else w.clusterBinding, worker := FindClusterRole(w.worker.s))
  {
  }

  lemma {:induction false} CleanRoleEffect(w: World, r: Fault)
    requires w.worker.FindClusterRole? && r in {Fine, Unreadable}
    ensures CleanRole(w, r)
         == w.(clusterRole := if r.Fine? then None else w.clusterRole, worker := RemoveFinalizer(w.worker.s))
  {
  }

  /** The finalizer goes in any case. Nothing is left behind exactly when every read of an object
      that is there was answered. */
  lemma {:induction false} CleanUpIsCompleteIffRead(w: World, b: Fault, r: Fault)
    requires Inv(w) && w.worker.Idle? && Held(w) && w.agent.value.deleting
    requires b in {Fine, Unreadable} && r in {Fine, Unreadable}
    ensures var v := CleanUp(w, b, r);
            && v.worker.Idle? && !Held(v)
            && (v.clusterBinding.None? && v.clusterRole.None? <==>
                  (w.clusterBinding.Some? ==> b.Fine?) && (w.clusterRole.Some? ==> r.Fine?))
  {
    var s := w.agent.value;
    assert Perform(w) == w.(worker := FindClusterBinding(s));
    CleanBindingEffect(Perform(w), b);
    CleanRoleEffect(CleanBinding(Perform(w), b), r);
  }

  /** A clean-up whose reads fail: the agent is gone and both cluster objects remain. */
  lemma {:induction false} UnreadObjectsStay(w: World)
    requires Inv(w) && w.worker.Idle? && w.clusterBinding.Some?
    requires Held(w) && w.agent.value.deleting && w.agent.value.finalizers == [FINALIZER]
    ensures var v := CleanUp(w, Unreadable, Unreadable);
            v.agent.None? && v.clusterRole == w.clusterRole && v.clusterBinding == w.clusterBinding
  {
    assert [FINALIZER][..0] == [];
    assert Without([FINALIZER], FINALIZER) == [];
    var s := w.agent.value;
    assert Perform(w) == w.(worker := FindClusterBinding(s));
    CleanBindingEffect(Perform(w), Unreadable);
    CleanRoleEffect(CleanBinding(Perform(w), Unreadable), Unreadable);
    assert Settle(s.(finalizers := [])).None?;
  }

  // The failure on a concrete run from the very beginning.

  const RULES := Rbac("robot", [], ["rule"])

  function Made(version: nat, finalizers: seq<Finalizer>, hasId: bool, deleting: bool): Agent {
    Agent(0, version, deleting, finalizers, Some(RULES), hasId)
  }

  function NewAgent(): Agent { Made(0, [], false, false) }

  function AgentWithId(): Agent { Made(1, [], true, false) }

  function HeldAgent(): Agent { Made(2, [FINALIZER], true, false) }

  function DoomedAgent(): Agent { Made(3, [FINALIZER], true, true) }

  function Empty(): World { World("a", None, 0, map[], None, None, None, None, Idle) }

  function Early(agent: Agent, clock: nat, worker: Worker): World {
    World("a", Some(agent), clock, map[], None, None, None, None, worker)
  }

  function Late(
      agent: Option<Agent>, clock: nat, role: Option<seq<string>>, binding: Option<string>, worker: Worker): World
  {
    World("a", agent, clock, map["robot" := 0], None, None, role, binding, worker)
  }

  function Supplied(agent: Option<Agent>, clock: nat, worker: Worker): World {
    Late(agent, clock, Some(["rule"]), Some("robot"), worker)
  }

  /** The agent is created, one undisturbed reconcile provides for it, it is deleted, and both reads
      of its clean-up fail with an error other than not-found. */
  function Story(): seq<Event> {
    [CreateAgent([], Some(RULES)),
     Call(Fine), Call(Fine), Call(Fine), Call(Fine), Call(Fine), Call(Fine), Call(Fine), Call(Fine), Call(Fine),
     DeleteAgent, Call(Fine), Call(Unreadable), Call(Unreadable), Call(Fine)]
  }

  /** The world after so many of these events. */
  function StoryWorld(k: nat): World
    requires k <= 15
  {
    if k == 0 then Empty()
    else if k == 1 then Early(NewAgent(), 1, Idle)
    else if k == 2 then Early(NewAgent(), 1, SaveId(NewAgent()))
    else if k == 3 then Early(AgentWithId(), 2, GetAccount(AgentWithId()))
    else if k == 4 then Early(AgentWithId(), 2, CreateAccount(AgentWithId()))
    else if k == 5 then Late(Some(AgentWithId()), 2, None, None, AddFinalizer(AgentWithId()))
    else if k == 6 then Late(Some(HeldAgent()), 3, None, None, GetClusterRole(HeldAgent()))
    else if k == 7 then Late(Some(HeldAgent()), 3, None, None, WriteClusterRole(HeldAgent(), false))
    else if k == 8 then Late(Some(HeldAgent()), 3, Some(["rule"]), None, GetClusterBinding(HeldAgent()))
    else if k == 9 then Late(Some(HeldAgent()), 3, Some(["rule"]), None, WriteClusterBinding(HeldAgent(), false))
    else if k == 10 then Supplied(Some(HeldAgent()), 3, Idle)
    else if k == 11 then Supplied(Some(DoomedAgent()), 4, Idle)
    else if k == 12 then Supplied(Some(DoomedAgent()), 4, FindClusterBinding(DoomedAgent()))
    else if k == 13 then Supplied(Some(DoomedAgent()), 4, FindClusterRole(DoomedAgent()))
    else if k == 14 then Supplied(Some(DoomedAgent()), 4, RemoveFinalizer(DoomedAgent()))
    else Supplied(None, 5, Idle)
  }

  lemma {:induction false} StoryBegins(k: nat)
    requires k < 6
    ensures Step(StoryWorld(k), Story()[k]) == StoryWorld(k + 1)
  {
    assert AccountName("a", Some(RULES)) == "robot";
    assert [] + [FINALIZER] == [FINALIZER];
  }

  lemma {:induction false} StoryProvides(k: nat)
    requires 6 <= k < 10
    ensures Step(StoryWorld(k), Story()[k]) == StoryWorld(k + 1)
  {
    assert AccountName("a", Some(RULES)) == "robot";
  }

  lemma {:induction false} StoryEnds(k: nat)
    requires 10 <= k < 15
    ensures Step(StoryWorld(k), Story()[k]) == StoryWorld(k + 1)
  {
    assert [FINALIZER][..0] == [];
    assert Without([FINALIZER], FINALIZER) == [];
  }

  lemma {:induction false} StoryStep(k: nat)
    requires k < 15
    ensures Step(StoryWorld(k), Story()[k]) == StoryWorld(k + 1)
  {
    if k < 6 {
      StoryBegins(k);
    } else if k < 10 {
      StoryProvides(k);
    } else {
      StoryEnds(k);
    }
  }

  lemma {:induction false} RunAt(w: World, events: seq<Event>, k: nat)
    requires k < |events|
    ensures Run(w, events[..k + 1]) == Step(Run(w, events[..k]), events[k])
  {
    assert events[..k + 1] == events[..k] + [events[k]];
    RunOneMore(w, events[..k], events[k]);
  }

  lemma {:induction false} StoryRun()
    ensures Run(Empty(), Story()[..15]) == StoryWorld(15)
  {
    for k := 0 to 15
      invariant Run(Empty(), Story()[..k]) == StoryWorld(k)
    {
      RunAt(Empty(), Story(), k);
      StoryStep(k);
    }
  }

  /** A run from a cluster without the agent after which the agent is gone and both cluster-wide
      objects remain. */
  lemma {:induction false} UnreadableLeavesOrphans()
    ensures Initial(Empty())
    ensures var v := Run(Empty(), Story());
            v.agent.None? && v.clusterRole == Some(["rule"]) && v.clusterBinding == Some("robot")
  {
    StoryRun();
    assert Story()[..15] == Story();
  }

  // ---- One undisturbed reconcile ----

  function Settled(w: World): World
    decreases w.worker.Left()
  {
    if w.worker.Idle? then w else Settled(Perform(w))
  }

  function Reconciled(w: World): World { Settled(Perform(w)) }

  /** The account exists: the one the spec names, or else the agent's own. For rules of either kind
      the role holds them and its binding names that account and no other. */
  predicate Provisioned(w: World) {
    && w.worker.Idle? && w.agent.Some? && !w.agent.value.deleting && w.agent.value.hasId && w.agent.value.rbac.Some?
    && var rbac := w.agent.value.rbac.value;
       var account := if rbac.account != "" then rbac.account else w.name + "-sa";
       && account in w.accounts
       && (rbac.rules != [] ==>
             && w.role.Some? && w.role.value.value == rbac.rules
             && w.binding.Some? && w.binding.value.value == account)
       && (rbac.clusterRules != [] ==>
             Held(w) && w.clusterRole == Some(rbac.clusterRules) && w.clusterBinding == Some(account))
  }

  /** An object keeps its owner, and a new one belongs to the agent. */
  predicate OwnerKept<T>(was: Option<Owned<T>>, now: Option<Owned<T>>, uid: nat) {
    if was.Some? then now.Some? && now.value.owner == was.value.owner else now.Some? ==> now.value.owner == uid
  }

  /** From `w` to `v` the request stays, owners are kept, and what no rules ask for is left alone. */
  predicate OnlyAsAsked(w: World, v: World) {
    && w.agent.Some? && v.agent.Some? && v.name == w.name && w.agent.value.rbac.Some?
    && v.agent.value.rbac == w.agent.value.rbac && v.agent.value.uid == w.agent.value.uid
    && OwnerKept(w.role, v.role, w.agent.value.uid) && OwnerKept(w.binding, v.binding, w.agent.value.uid)
    && (forall a :: a in w.accounts ==> a in v.accounts && v.accounts[a] == w.accounts[a])
    && (forall a :: a in v.accounts && a !in w.accounts ==> v.accounts[a] == w.agent.value.uid)
    && (w.agent.value.rbac.value.rules == [] ==> v.role == w.role && v.binding == w.binding)
    && (w.agent.value.rbac.value.clusterRules == [] ==>
          && v.clusterRole == w.clusterRole && v.clusterBinding == w.clusterBinding
          && v.agent.value.finalizers == w.agent.value.finalizers)
  }

  predicate Ends(w: World) { Provisioned(Settled(w)) && OnlyAsAsked(w, Settled(w)) }

  lemma {:induction false} EndsBefore(w: World, v: World)
    requires Settled(w) == Settled(v) && OnlyAsAsked(w, v) && Ends(v)
    ensures Ends(w)
  {
  }

  /** The worker holds the agent as stored, which is not being deleted. */
  predicate Fresh(w: World) {
    && !w.worker.Idle? && w.agent == Some(w.worker.s) && w.agent.value.version < w.clock
    && !w.agent.value.deleting && w.agent.value.rbac.Some? && w.agent.value.hasId
    && AccountName(w.name, w.agent.value.rbac) in w.accounts
  }

  predicate NamespacedDone(w: World)
    requires Fresh(w)
  {
    w.agent.value.rbac.value.rules != [] ==>
      && w.role.Some? && w.role.value.value == w.agent.value.rbac.value.rules
      && w.binding.Some? && w.binding.value.value == AccountName(w.name, w.agent.value.rbac)
  }

  lemma {:induction false} SettleNext(w: World, v: World)
    requires !w.worker.Idle? && Perform(w) == v
    ensures Settled(w) == Settled(v)
  {
  }

  lemma {:induction false} SettleClusterBinding(w: World)
    requires Fresh(w) && w.worker.GetClusterBinding? && Held(w) && NamespacedDone(w)
    requires w.clusterRole == Some(w.agent.value.rbac.value.clusterRules) && w.agent.value.rbac.value.clusterRules != []
    ensures Ends(w)
  {
    var v := Perform(w);
    SettleNext(w, v);
    SettleNext(v, Perform(v));
  }

  lemma {:induction false} SettleClusterRole(w: World)
    requires Fresh(w) && w.worker.GetClusterRole? && Held(w) && NamespacedDone(w)
    requires w.agent.value.rbac.value.clusterRules != []
    ensures Ends(w)
  {
    var v := Perform(w);
    SettleNext(w, v);
    SettleNext(v, Perform(v));
    SettleClusterBinding(Perform(v));
    EndsBefore(w, Perform(v));
  }

  lemma {:induction false} SettleAfterBinding(w: World)
    requires w.agent.Some? && w.agent.value.rbac.Some? && Fresh(w.(worker := GetAccount(w.agent.value)))
    requires NamespacedDone(w.(worker := GetAccount(w.agent.value))) && w.worker == AfterBinding(w.agent.value)
    ensures Ends(w)
  {
    if w.worker.AddFinalizer? {
      var v := Perform(w);
      assert FINALIZER in v.agent.value.finalizers;
      SettleNext(w, v);
      SettleClusterRole(v);
      EndsBefore(w, v);
    } else if w.worker.GetClusterRole? {
      SettleClusterRole(w);
    }
  }

  lemma {:induction false} SettleBinding(w: World)
    requires Fresh(w) && w.worker.GetBinding? && w.agent.value.rbac.value.rules != []
    requires w.role.Some? && w.role.value.value == w.agent.value.rbac.value.rules
    ensures Ends(w)
  {
    var v := Perform(w);
    SettleNext(w, v);
    SettleNext(v, Perform(v));
    SettleAfterBinding(Perform(v));
    EndsBefore(w, Perform(v));
  }

  lemma {:induction false} SettleRole(w: World)
    requires Fresh(w) && w.worker.GetRole? && w.agent.value.rbac.value.rules != []
    ensures Ends(w)
  {
    var v := Perform(w);
    SettleNext(w, v);
    SettleNext(v, Perform(v));
    SettleBinding(Perform(v));
    EndsBefore(w, Perform(v));
  }

  lemma {:induction false} SettleAfterAccount(w: World)
    requires w.agent.Some? && w.agent.value.rbac.Some? && Fresh(w.(worker := GetAccount(w.agent.value)))
    requires w.worker == AfterAccount(w.agent.value)
    ensures Ends(w)
  {
    if w.worker.GetRole? { SettleRole(w); } else { SettleAfterBinding(w); }
  }

  lemma {:induction false} SettleAccount(w: World)
    requires w.agent.Some? && w.worker == GetAccount(w.agent.value) && w.agent.value.version < w.clock
    requires !w.agent.value.deleting && w.agent.value.rbac.Some? && w.agent.value.hasId
    ensures Ends(w)
  {
    var v := Perform(w);
    SettleNext(w, v);
    if v.worker.CreateAccount? {
      SettleNext(v, Perform(v));
      SettleAfterAccount(Perform(v));
      EndsBefore(w, Perform(v));
    } else {
      SettleAfterAccount(v);
      EndsBefore(w, v);
    }
  }

  /** After any history of edits and crashes, one undisturbed reconcile of an agent with `rbac` set
      leaves account, roles and bindings as its current spec asks, and nothing else changed. */
  lemma {:induction false} ReconcileProvisions(w: World, events: seq<Event>)
    requires Initial(w) && Answered(w, events)
    requires var v := Run(w, events);
             v.worker.Idle? && v.agent.Some? && !v.agent.value.deleting && v.agent.value.rbac.Some?
    ensures var v := Run(w, events);
            Provisioned(Reconciled(v)) && OnlyAsAsked(v, Reconciled(v))
  {
    RunKeepsInv(w, events);
    var v := Run(w, events);
    var u := Perform(v);
    if u.worker.SaveId? {
      SettleNext(u, Perform(u));
      SettleAccount(Perform(u));
      EndsBefore(u, Perform(u));
    } else {
      SettleAccount(u);
    }
  }

  /** Without `rbac` an undisturbed reconcile only gives the agent its id. */
  lemma {:induction false} WithoutRbacNothingIsMade(w: World)
    requires w.worker.Idle? && w.agent.Some? && !w.agent.value.deleting && w.agent.value.rbac.None?
    ensures var v := Reconciled(w);
            && v.agent.Some? && v.agent.value.hasId
            && v == w.(agent := Some(w.agent.value.(hasId := true, version := v.agent.value.version)), clock := v.clock)
  {
    var u := Perform(w);
    if u.worker.SaveId? { SettleNext(u, Perform(u)); }
  }

  /** Repeating it changes nothing. */
  lemma {:induction false} ReconcileIsIdempotent(w: World)
    requires Provisioned(w)
    ensures Reconciled(w) == w
  {
    var s := w.agent.value;
    assert Perform(w) == w.(worker := GetAccount(s));
    SettleNext(w.(worker := GetAccount(s)), w.(worker := AfterAccount(s)));
    if s.rbac.value.rules != [] { RepeatNamespaced(w, s); }
    if s.rbac.value.clusterRules != [] { RepeatCluster(w, s); }
  }

  lemma {:induction false} RepeatNamespaced(w: World, s: Agent)
    requires Provisioned(w) && s == w.agent.value && s.rbac.value.rules != []
    ensures Settled(w.(worker := GetRole(s))) == Settled(w.(worker := AfterBinding(s)))
  {
    SettleNext(w.(worker := GetRole(s)), w.(worker := WriteRole(s, true)));
    RepeatBinding(w, s);
  }

  lemma {:induction false} RepeatBinding(w: World, s: Agent)
    requires Provisioned(w) && s == w.agent.value && s.rbac.value.rules != []
    ensures Settled(w.(worker := WriteRole(s, true))) == Settled(w.(worker := AfterBinding(s)))
  {
    SettleNext(w.(worker := WriteRole(s, true)), w.(worker := GetBinding(s)));
    SettleNext(w.(worker := GetBinding(s)), w.(worker := WriteBinding(s, true)));
    SettleNext(w.(worker := WriteBinding(s, true)), w.(worker := AfterBinding(s)));
  }

  lemma {:induction false} RepeatCluster(w: World, s: Agent)
    requires Provisioned(w) && s == w.agent.value && s.rbac.value.clusterRules != []
    ensures Settled(w.(worker := AfterBinding(s))) == w
  {
    SettleNext(w.(worker := GetClusterRole(s)), w.(worker := WriteClusterRole(s, true)));
    SettleNext(w.(worker := WriteClusterRole(s, true)), w.(worker := GetClusterBinding(s)));
    SettleNext(w.(worker := GetClusterBinding(s)), w.(worker := WriteClusterBinding(s, true)));
    SettleNext(w.(worker := WriteClusterBinding(s, true)), w);
  }

  /** An undisturbed reconcile of a doomed agent removes both cluster objects, then its finalizer. */
  lemma {:induction false} UndisturbedCleanUp(w: World)
    requires w.worker.Idle? && w.agent.Some? && w.agent.value.deleting && ContainsFinalizer(w.agent.value, FINALIZER)
    ensures var v := Reconciled(w);
            v.worker.Idle? && !Held(v) && v.clusterRole.None? && v.clusterBinding.None?
  {
    var s := w.agent.value;
    var found := w.(worker := FindClusterBinding(s));
    if found.clusterBinding.Some? { SettleNext(found, Perform(found)); }
    var bare := w.(clusterBinding := None, worker := FindClusterRole(s));
    SettleNext(if found.clusterBinding.Some? then Perform(found) else found, bare);
    RoleIsCleanedUp(bare);
  }

  lemma {:induction false} RoleIsCleanedUp(w: World)
    requires w.worker.FindClusterRole? && w.agent == Some(w.worker.s) && w.clusterBinding.None?
    ensures var v := Settled(w);
            v.worker.Idle? && !Held(v) && v.clusterRole.None? && v.clusterBinding.None?
  {
    if w.clusterRole.Some? { SettleNext(w, Perform(w)); }
    var clean := w.(clusterRole := None, worker := RemoveFinalizer(w.worker.s));
    SettleNext(if w.clusterRole.Some? then Perform(w) else w, clean);
    SettleNext(clean, Perform(clean));
  }

  // ---- The reconciler ----

  /** How the k-th call of one reconcile fares and what happens before it. */
  datatype Fate = Fate(faults: seq<Fault>, gaps: seq<seq<Event>>) {
    function FaultOf(k: nat): Fault { if k < |faults| then faults[k] else Fine }

    function Gap(k: nat): seq<Event> { if k < |gaps| then gaps[k] else [] }

    /** Nothing fails and nothing interferes. */
    predicate Quiet() { faults == [] && gaps == [] }

    predicate Fits() {
      forall k, i :: 0 <= k < |gaps| && 0 <= i < |gaps[k]| ==> gaps[k][i].FromOutside()
    }
  }

  /** The API server as this reconciler meets it, and the reconciler itself. */
  class AgentReconciler {
    const name: string
    var agent: Option<Agent>
    var clock: nat
    var accounts: map<string, nat>
    var role: Option<Owned<seq<string>>>
    var binding: Option<Owned<string>>
    var clusterRole: Option<seq<string>>
    var clusterBinding: Option<string>
    var fate: Fate
    var calls: nat
    ghost var worker: Worker
    ghost const origin: World
    ghost var history: seq<Event>

    ghost function View(): World
      reads this
    {
      World(name, agent, clock, accounts, role, binding, clusterRole, clusterBinding, worker)
    }

    ghost predicate Valid()
      reads this
    {
      View() == Run(origin, history) && fate.Fits()
    }

    /** Only steps of the protocol were taken; if nothing disturbs them they are the worker's next
        calls, so they lead where the rest of the reconcile leads. */
    twostate predicate Kept()
      reads this
    {
      && Valid() && old(history) <= history && fate == old(fate)
      && (fate.Quiet() ==> Settled(View()) == Settled(old(View())))
    }

    /** Some call since has failed with an error other than not-found. */
    twostate predicate ReadFailed()
      reads this
    {
      exists k :: |old(history)| <= k < |history| && history[k] == Call(Unreadable)
    }

    constructor (name: string)
      ensures Valid() && Initial(origin) && history == [] && worker.Idle? && this.name == name
      ensures agent.None? && clusterRole.None? && clusterBinding.None?
    {
      this.name := name;
      agent, clock, accounts, role, binding, clusterRole, clusterBinding := None, 0, map[], None, None, None, None;
      fate, calls := Fate([], []), 0;
      worker, history := Idle, [];
      origin := World(name, None, 0, map[], None, None, None, None, Idle);
    }

    /** Records `e` and moves the worker as the protocol does. */
    ghost method Note(e: Event)
      requires Valid()
      modifies this`worker, this`history
      ensures worker == Step(old(View()), e).worker && history == old(history) + [e]
      ensures Run(origin, history) == Step(old(View()), e)
    {
      RunOneMore(origin, history, e);
      worker, history := Step(View(), e).worker, history + [e];
    }

    method Interfere(events: seq<Event>)
      requires Valid() && forall i :: 0 <= i < |events| ==> events[i].FromOutside()
      modifies this
      ensures Valid() && worker == old(worker) && old(history) <= history
      ensures fate == old(fate) && calls == old(calls)
      ensures clusterRole == old(clusterRole) && clusterBinding == old(clusterBinding)
      ensures !ReadFailed()
      ensures events == [] ==> View() == old(View())
    {
      for k := 0 to |events|
        invariant Valid() && worker == old(worker) && old(history) <= history
        invariant fate == old(fate) && calls == old(calls)
        invariant clusterRole == old(clusterRole) && clusterBinding == old(clusterBinding)
        invariant !ReadFailed()
        invariant k == 0 ==> View() == old(View())
      {
        Happen(events[k]);
      }
    }

    method Happen(e: Event)
      requires Valid() && e.FromOutside()
      modifies this`agent, this`clock, this`accounts, this`role, this`binding, this`worker, this`history
      ensures Valid() && worker == old(worker) && history == old(history) + [e]
      ensures View() == Outside(old(View()), e)
    {
      var v := Outside(World(name, agent, clock, accounts, role, binding, clusterRole, clusterBinding, Idle), e);
      OutsideIgnoresWorker(View(), e);
      Note(e);
      agent, clock, accounts, role, binding := v.agent, v.clock, v.accounts, v.role, v.binding;
    }

    /** What precedes every API call. */
    method Begin() returns (f: Fault)
      requires Valid()
      modifies this
      ensures Valid() && worker == old(worker) && old(history) <= history && fate == old(fate)
      ensures clusterRole == old(clusterRole) && clusterBinding == old(clusterBinding) && !ReadFailed()
      ensures fate.Quiet() ==> f.Fine? && View() == old(View())
    {
      Interfere(fate.Gap(calls));
      f := fate.FaultOf(calls);
      calls := calls + 1;
    }

    method Get() returns (got: Option<Agent>)
      requires Valid() && worker.Idle?
      modifies this
      ensures Valid() && old(history) <= history && fate == old(fate)
      ensures fate.Quiet() ==> View() == Perform(old(View()))
      ensures worker == if got.None? then Idle else AfterGet(got.value)
    {
      var f := Begin();
      Note(Call(f));
      got := if f.Fine? then agent else None;
    }

    method SaveAgentId(s: Agent) returns (updated: Option<Agent>)
      requires Valid() && worker == SaveId(s)
      modifies this
      ensures Kept()
      ensures worker == if updated.None? then Idle else AfterId(updated.value)
      ensures updated.Some? ==> updated.value == s.(hasId := true, version := updated.value.version)
    {
      var f := Begin();
      Note(Call(f));
      updated := None;
      if !f.Refused? && !f.Unreadable? && agent.Some? && agent.value.version == s.version {
        agent, clock := Some(s.(hasId := true, version := clock)), clock + 1;
        if f.Fine? { updated := agent; }
      }
    }

    method UpdateAddingFinalizer(s: Agent) returns (updated: Option<Agent>)
      requires Valid() && worker == AddFinalizer(s)
      modifies this
      ensures Kept()
      ensures worker == if updated.None? then Idle else GetClusterRole(updated.value)
      ensures updated.Some? ==> updated.value.rbac == s.rbac
    {
      var f := Begin();
      ghost var before := View();
      updated := WriteWithFinalizer(s, f);
      if fate.Quiet() {
        SettleNext(before, View());
      }
    }

    method WriteWithFinalizer(s: Agent, f: Fault) returns (updated: Option<Agent>)
      requires Valid() && worker == AddFinalizer(s)
      modifies this`agent, this`clock, this`worker, this`history
      ensures Valid() && history == old(history) + [Call(f)] && View() == Step(old(View()), Call(f))
      ensures worker == if updated.None? then Idle else GetClusterRole(updated.value)
      ensures updated.Some? ==> updated.value.rbac == s.rbac
    {
      Note(Call(f));
      updated := None;
      if !f.Refused? && !f.Unreadable? && agent.Some? && agent.value.version == s.version {
        agent, clock := Some(s.(finalizers := s.finalizers + [FINALIZER], version := clock)), clock + 1;
        if f.Fine? { updated := agent; }
      }
    }

    method LookUpAccount(s: Agent) returns (found: Option<bool>)
      requires Valid() && s.rbac.Some? && worker == GetAccount(s)
      modifies this
      ensures Kept()
      ensures worker == if found.None? then Idle else if found.value then AfterAccount(s) else CreateAccount(s)
    {
      var f := Begin();
      Note(Call(f));
      found := if f.Fine? then Some(AccountName(name, s.rbac) in accounts) else None;
    }

    method CreateServiceAccount(s: Agent) returns (ok: bool)
      requires Valid() && s.rbac.Some? && worker == CreateAccount(s)
      modifies this
      ensures Kept()
      ensures worker == if ok then AfterAccount(s) else Idle
    {
      var f := Begin();
      Note(Call(f));
      var saName := AccountName(name, s.rbac);
      var accepted := !f.Refused? && !f.Unreadable? && saName !in accounts;
      if accepted { accounts := accounts[saName := s.uid]; }
      ok := accepted && f.Fine?;
    }

    method EnsureServiceAccount(s: Agent) returns (ok: bool)
      requires Valid() && s.rbac.Some? && worker == GetAccount(s)
      modifies this
      ensures Kept()
      ensures worker == if ok then AfterAccount(s) else Idle
    {
      var found := LookUpAccount(s);
      if found.None? {
        return false;
      }
      if found.value {
        return true;
      }
      ok := CreateServiceAccount(s);
    }

    method LookUpRole(s: Agent) returns (found: Option<bool>)
      requires Valid() && s.rbac.Some? && worker == GetRole(s)
      modifies this
      ensures Kept()
      ensures worker == if found.None? then Idle else WriteRole(s, found.value)
    {
      var f := Begin();
      Note(Call(f));
      found := if f.Fine? then Some(role.Some?) else None;
    }

    method PutRole(s: Agent, known: bool, rules: seq<string>) returns (ok: bool)
      requires Valid() && s.rbac.Some? && worker == WriteRole(s, known) && rules == s.rbac.value.rules
      modifies this
      ensures Kept()
      ensures worker == if ok then GetBinding(s) else Idle
    {
      var f := Begin();
      Note(Call(f));
      var accepted := !f.Refused? && !f.Unreadable? && known == role.Some?;
      if accepted { role := Some(Owned(if known then role.value.owner else s.uid, rules)); }
      ok := accepted && f.Fine?;
    }

    method EnsureRole(s: Agent) returns (ok: bool)
      requires Valid() && s.rbac.Some? && worker == GetRole(s)
      modifies this
      ensures Kept()
      ensures worker == if ok then GetBinding(s) else Idle
    {
      var found := LookUpRole(s);
      if found.None? {
        return false;
      }
      ok := PutRole(s, found.value, s.rbac.value.rules);
    }

    method LookUpBinding(s: Agent) returns (found: Option<bool>)
      requires Valid() && s.rbac.Some? && worker == GetBinding(s)
      modifies this
      ensures Kept()
      ensures worker == if found.None? then Idle else WriteBinding(s, found.value)
    {
      var f := Begin();
      Note(Call(f));
      found := if f.Fine? then Some(binding.Some?) else None;
    }

    method PutBinding(s: Agent, known: bool, saName: string) returns (ok: bool)
      requires Valid() && s.rbac.Some? && worker == WriteBinding(s, known) && saName == AccountName(name, s.rbac)
      modifies this
      ensures Kept()
      ensures worker == if ok then AfterBinding(s) else Idle
    {
      var f := Begin();
      Note(Call(f));
      var accepted := !f.Refused? && !f.Unreadable? && known == binding.Some?;
      if accepted { binding := Some(Owned(if known then binding.value.owner else s.uid, saName)); }
      ok := accepted && f.Fine?;
    }

    method EnsureRoleBinding(s: Agent, saName: string) returns (ok: bool)
      requires Valid() && s.rbac.Some? && worker == GetBinding(s) && saName == AccountName(name, s.rbac)
      modifies this
      ensures Kept()
      ensures worker == if ok then AfterBinding(s) else Idle
    {
      var found := LookUpBinding(s);
      if found.None? {
        return false;
      }
      ok := PutBinding(s, found.value, saName);
    }

    method LookUpClusterRole(s: Agent) returns (found: Option<bool>)
      requires Valid() && s.rbac.Some? && worker == GetClusterRole(s)
      modifies this
      ensures Kept()
      ensures worker == if found.None? then Idle else WriteClusterRole(s, found.value)
    {
      var f := Begin();
      Note(Call(f));
      found := if f.Fine? then Some(clusterRole.Some?) else None;
    }

    method PutClusterRole(s: Agent, known: bool, rules: seq<string>) returns (ok: bool)
      requires Valid() && s.rbac.Some? && worker == WriteClusterRole(s, known) && rules == s.rbac.value.clusterRules
      modifies this
      ensures Kept()
      ensures worker == if ok then GetClusterBinding(s) else Idle
    {
      var f := Begin();
      Note(Call(f));
      var accepted := !f.Refused? && !f.Unreadable? && known == clusterRole.Some?;
      if accepted { clusterRole := Some(rules); }
      ok := accepted && f.Fine?;
    }

    method EnsureClusterRole(s: Agent) returns (ok: bool)
      requires Valid() && s.rbac.Some? && worker == GetClusterRole(s)
      modifies this
      ensures Kept()
      ensures worker == if ok then GetClusterBinding(s) else Idle
    {
      var found := LookUpClusterRole(s);
      if found.None? {
        return false;
      }
      ok := PutClusterRole(s, found.value, s.rbac.value.clusterRules);
    }

    method LookUpClusterBinding(s: Agent) returns (found: Option<bool>)
      requires Valid() && s.rbac.Some? && worker == GetClusterBinding(s)
      modifies this
      ensures Kept()
      ensures worker == if found.None? then Idle else WriteClusterBinding(s, found.value)
    {
      var f := Begin();
      Note(Call(f));
      found := if f.Fine? then Some(clusterBinding.Some?) else None;
    }

    method PutClusterBinding(s: Agent, known: bool, saName: string)
      requires Valid() && s.rbac.Some? && worker == WriteClusterBinding(s, known)
      requires saName == AccountName(name, s.rbac)
      modifies this
      ensures Kept() && worker.Idle?
    {
      var f := Begin();
      Note(Call(f));
      if !f.Refused? && !f.Unreadable? && known == clusterBinding.Some? {
        clusterBinding := Some(saName);
      }
    }

    method EnsureClusterRoleBinding(s: Agent, saName: string)
      requires Valid() && s.rbac.Some? && worker == GetClusterBinding(s) && saName == AccountName(name, s.rbac)
      modifies this
      ensures Kept() && worker.Idle?
    {
      var found := LookUpClusterBinding(s);
      if found.None? {
        return;
      }
      PutClusterBinding(s, found.value, saName);
    }

    /** `None`: the process died; an unreadable object counts as absent. */
    method FindBindingToDelete(s: Agent) returns (found: Option<bool>)
      requires Valid() && worker == FindClusterBinding(s)
      modifies this
      ensures Kept()
      ensures worker == if found.None? then Idle
                        else if found.value then DeleteClusterBinding(s) else FindClusterRole(s)
      ensures clusterBinding == old(clusterBinding) && clusterRole == old(clusterRole)
      ensures found.Some? ==> found.value == (clusterBinding.Some? && !ReadFailed())
    {
      var f := Begin();
      Note(Call(f));
      found := if f.Fine? then Some(clusterBinding.Some?) else if f.Unreadable? then Some(false) else None;
    }

    method DeleteBinding(s: Agent) returns (ok: bool)
      requires Valid() && worker == DeleteClusterBinding(s)
      modifies this
      ensures Kept()
      ensures worker == if ok then FindClusterRole(s) else Idle
      ensures clusterRole == old(clusterRole) && (clusterBinding == old(clusterBinding) || clusterBinding.None?)
      ensures ok ==> clusterBinding.None? && !ReadFailed()
    {
      var f := Begin();
      Note(Call(f));
      if !f.Refused? && !f.Unreadable? { clusterBinding := None; }
      ok := f.Fine?;
    }

    method FindRoleToDelete(s: Agent) returns (found: Option<bool>)
      requires Valid() && worker == FindClusterRole(s)
      modifies this
      ensures Kept()
      ensures worker == if found.None? then Idle
                        else if found.value then DeleteClusterRole(s) else RemoveFinalizer(s)
      ensures clusterRole == old(clusterRole) && clusterBinding == old(clusterBinding)
      ensures found.Some? ==> found.value == (clusterRole.Some? && !ReadFailed())
    {
      var f := Begin();
      Note(Call(f));
      found := if f.Fine? then Some(clusterRole.Some?) else if f.Unreadable? then Some(false) else None;
    }

    method DeleteRole(s: Agent) returns (ok: bool)
      requires Valid() && worker == DeleteClusterRole(s)
      modifies this
      ensures Kept()
      ensures worker == if ok then RemoveFinalizer(s) else Idle
      ensures clusterBinding == old(clusterBinding) && (clusterRole == old(clusterRole) || clusterRole.None?)
      ensures ok ==> clusterRole.None? && !ReadFailed()
    {
      var f := Begin();
      Note(Call(f));
      if !f.Refused? && !f.Unreadable? { clusterRole := None; }
      ok := f.Fine?;
    }

    method CleanupClusterRBAC(s: Agent) returns (ok: bool)
      requires Valid() && worker == FindClusterBinding(s)
      modifies this
      ensures Kept()
      ensures worker == if ok then RemoveFinalizer(s) else Idle
      ensures ok && !ReadFailed() ==> clusterBinding.None? && clusterRole.None?
    {
      ok := DropClusterBinding(s);
      if ok {
        ok := DropClusterRole(s);
      }
    }

    /** A binding that is found is deleted; a read that fails otherwise than by not-found is taken
        for an absent one. */
    method DropClusterBinding(s: Agent) returns (ok: bool)
      requires Valid() && worker == FindClusterBinding(s)
      modifies this
      ensures Kept()
      ensures worker == if ok then FindClusterRole(s) else Idle
      ensures clusterRole == old(clusterRole) && (clusterBinding == old(clusterBinding) || clusterBinding.None?)
      ensures ok ==> clusterBinding == if ReadFailed() then old(clusterBinding) else None
    {
      var found := FindBindingToDelete(s);
      if found.None? {
        return false;
      }
      ok := true;
      if found.value {
        ok := DeleteBinding(s);
      }
    }

    method DropClusterRole(s: Agent) returns (ok: bool)
      requires Valid() && worker == FindClusterRole(s)
      modifies this
      ensures Kept()
      ensures worker == if ok then RemoveFinalizer(s) else Idle
      ensures clusterBinding == old(clusterBinding) && (clusterRole == old(clusterRole) || clusterRole.None?)
      ensures ok ==> clusterRole == if ReadFailed() then old(clusterRole) else None
    {
      var found := FindRoleToDelete(s);
      if found.None? {
        return false;
      }
      ok := true;
      if found.value {
        ok := DeleteRole(s);
      }
    }

    method UpdateRemovingFinalizer(s: Agent)
      requires Valid() && worker == RemoveFinalizer(s)
      modifies this
      ensures Kept() && worker.Idle?
    {
      var f := Begin();
      ghost var before := View();
      WriteWithoutFinalizer(s, f);
      if fate.Quiet() {
        SettleNext(before, View());
      }
    }

    /** The write itself: versioned, and an agent being deleted without finalizers is gone. */
    method WriteWithoutFinalizer(s: Agent, f: Fault)
      requires Valid() && worker == RemoveFinalizer(s)
      modifies this`agent, this`clock, this`worker, this`history
      ensures Valid() && worker.Idle? && history == old(history) + [Call(f)]
      ensures View() == Step(old(View()), Call(f))
    {
      Note(Call(f));
      if f.Refused? || f.Unreadable? || agent.None? || agent.value.version != s.version {
        return;
      }
      var rest := WithoutFinalizer(s.finalizers, FINALIZER);
      Store(s.(finalizers := rest));
    }

    /** Stores `now` over the stored agent. */
    method Store(now: Agent)
      requires agent.Some?
      modifies this`agent, this`clock
      ensures View() == Put(old(View()), now)
    {
      var kept := now;
      if now != agent.value {
        kept, clock := now.(version := clock), clock + 1;
      }
      agent := if kept.deleting && kept.finalizers == [] then None else Some(kept);
    }

    /** The RBAC part of the source's Reconcile. It takes only steps of the protocol, so if no
        clean-up read overlooks an object the cluster-wide objects stay guarded. */
    method Reconcile(fate: Fate)
      requires Valid() && Initial(origin) && worker.Idle? && fate.Fits()
      modifies this
      ensures Valid() && worker.Idle? && old(history) <= history
      ensures fate.Quiet() ==> View() == Reconciled(old(View()))
      ensures Answered(origin, history) ==> Guarded(View())
      ensures fate.Quiet() && Answered(origin, old(history)) && old(agent).Some? && !old(agent).value.deleting
              && old(agent).value.rbac.Some? ==>
                Provisioned(View()) && OnlyAsAsked(old(View()), View())
      ensures fate.Quiet() && old(agent).Some? && old(agent).value.deleting
              && FINALIZER in old(agent).value.finalizers ==>
                clusterRole.None? && clusterBinding.None? && !Held(View())
    {
      if agent.Some? && agent.value.deleting && ContainsFinalizer(agent.value, FINALIZER) {
        UndisturbedCleanUp(View());
      } else if agent.Some? && agent.value.rbac.Some? && !agent.value.deleting && Answered(origin, history) {
        ReconcileProvisions(origin, history);
      }
      this.fate, this.calls := fate, 0;
      Attempt();
      if Answered(origin, history) {
        ClusterObjectsAreGuarded(origin, history);
      }
    }

    method Attempt()
      requires Valid() && worker.Idle?
      modifies this
      ensures Valid() && worker.Idle? && old(history) <= history && fate == old(fate)
      ensures fate.Quiet() ==> View() == Reconciled(old(View()))
    {
      var got := Get();
      if got.None? {
        return;
      }
      var s := got.value;
      if s.deleting {
        if ContainsFinalizer(s, FINALIZER) {
          var ok := CleanupClusterRBAC(s);
          if ok {
            UpdateRemovingFinalizer(s);
          }
        }
        return;
      }
      if !s.hasId {
        var updated := SaveAgentId(s);
        if updated.None? {
          return;
        }
        s := updated.value;
      }
      if s.rbac.Some? {
        ManageRBAC(s);
      }
    }

    /** Service account, role, binding. */
    method ManageRBAC(s: Agent)
      requires Valid() && s.rbac.Some? && worker == GetAccount(s)
      modifies this
      ensures Kept() && worker.Idle?
    {
      var saName := AccountName(name, s.rbac);
      var ok := EnsureServiceAccount(s);
      if !ok {
        return;
      }
      if |s.rbac.value.rules| > 0 {
        ok := EnsureRole(s);
        if !ok {
          return;
        }
        ok := EnsureRoleBinding(s, saName);
        if !ok {
          return;
        }
      }
      ManageClusterRBAC(s, saName);
    }

    /** Finalizer first, then cluster role, then its binding. */
    method ManageClusterRBAC(agentCopy: Agent, saName: string)
      requires Valid() && agentCopy.rbac.Some? && worker == AfterBinding(agentCopy)
      requires saName == AccountName(name, agentCopy.rbac)
      modifies this
      ensures Kept() && worker.Idle?
    {
      var s := agentCopy;
      if |s.rbac.value.clusterRules| > 0 {
        if !ContainsFinalizer(s, FINALIZER) {
          var updated := UpdateAddingFinalizer(s);
          if updated.None? {
            return;
          }
          s := updated.value;
        }
        var ok := EnsureClusterRole(s);
        if !ok {
          return;
        }
        EnsureClusterRoleBinding(s, saName);
      }
    }
  }
}
