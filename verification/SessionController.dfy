/** Tenant sessions and their namespaces: `kubecopilotsession_controller.go`.

    `Step` is the protocol: one event for each API call of the reconciler, one for each thing a
    user or the cluster may do between two calls. A call may be refused, or take effect without
    the reconciler learning of it; a process that dies before or after a call looks the same.
    Reads are fresh, writes of the session carry the version they were made from. */
module SessionController {
  import opened Wrappers

  /** `spec.isolationLevel`: empty, "strict", "none", or a text the API would refuse. */
  datatype Isolation = Unset | StrictLevel | NoneLevel | OtherLevel(text: string)

  datatype Phase = New | Active | Error | Terminating

  /** A stored session. `uid` tells apart sessions created one after the other under the same
      name; `foreign` stands for finalizers of others. */
  datatype Session = Session(
    uid: nat, version: nat, deleting: bool, finalizer: bool, foreign: bool, isolation: Isolation,
    phase: Phase, hasNamespace: bool, ready: Option<bool>)

  /** The session namespace; `owner` is the session it was made for. */
  datatype Namespace =
    | Absent
    | Present(owner: nat, ending: bool, policy: bool, role: bool, binding: bool)
  {
    predicate Live() { Present? && !ending }
    predicate Ending() { Present? && ending }
  }

  /** The next API call of the one worker, with the reconciler's own copy of the session. */
  datatype Worker =
    | Idle
    | AddFinalizer(s: Session)
    | GetAgent(s: Session)
    | GetNamespace(s: Session)
    | CreateNamespace(s: Session)
    | GetPolicy(s: Session)
    | WritePolicy(s: Session)
    | GetRole(s: Session)
    | CreateRole(s: Session)
    | GetBinding(s: Session)
    | CreateBinding(s: Session)
    | SaveStatus(s: Session)
    | MarkTerminating(s: Session)
    | ConfirmGone(s: Session)
    | DeleteNamespace(s: Session)
    | RemoveFinalizer(s: Session)
  {
    /** Between reading a session that is not being deleted and writing its status. */
    predicate Building() {
      !Idle? && !AddFinalizer? && !TearingDown()
    }

    predicate TearingDown() {
      MarkTerminating? || ConfirmGone? || DeleteNamespace? || RemoveFinalizer?
    }

    /** A bound on the calls still to come: no path of the source makes more than 12 after its first. */
    function Left(): nat {
      match this
      case Idle => 0
      case AddFinalizer(_) => 12
      case GetAgent(_) => 11
      case GetNamespace(_) => 10
      case CreateNamespace(_) => 9
      case GetPolicy(_) => 8
      case WritePolicy(_) => 7
      case GetRole(_) => 6
      case CreateRole(_) => 5
      case GetBinding(_) => 4
      case CreateBinding(_) => 3
      case SaveStatus(_) => 1
      case MarkTerminating(_) => 4
      case ConfirmGone(_) => 3
      case DeleteNamespace(_) => 1
      case RemoveFinalizer(_) => 1
    }
  }

  /** `clock` numbers versions and incarnations. */
  datatype World = World(session: Option<Session>, clock: nat, agent: bool, ns: Namespace, worker: Worker)

  datatype Fault = Fine | Refused | ReplyLost

  datatype Event =
    | CreateSession(isolation: Isolation, foreign: bool)
    | DeleteSession
    | SetIsolation(isolation: Isolation)
    | DropForeign
    | SetAgent(present: bool)
    | NamespaceGone
    | Call(fault: Fault)
  {
    predicate FromOutside() { !Call? }
  }

  /** A write bumps the version, unless it changes nothing. */
  function Stored(clock: nat, was: Session, now: Session): Session {
    if now == was then was else now.(version := clock)
  }

  function Tick(clock: nat, was: Session, now: Session): nat {
    if now == was then clock else clock + 1
  }

  /** The object is removed once it is being deleted and nobody holds it. */
  function Settle(s: Session): Option<Session> {
    if s.deleting && !s.finalizer && !s.foreign then None else Some(s)
  }

  function Put(w: World, was: Session, now: Session): World {
    w.(session := Settle(Stored(w.clock, was, now)), clock := Tick(w.clock, was, now))
  }

  function Outside(w: World, e: Event): World
    requires e.FromOutside()
  {
    match e
    case CreateSession(isolation, foreign) =>
      if w.session.Some? then w
      else w.(session := Some(Session(w.clock, w.clock, false, false, foreign, isolation, New, false, None)),
              clock := w.clock + 1)
    case DeleteSession => if w.session.None? then w else Put(w, w.session.value, w.session.value.(deleting := true))
    case SetIsolation(i) => if w.session.None? then w else Put(w, w.session.value, w.session.value.(isolation := i))
    case DropForeign => if w.session.None? then w else Put(w, w.session.value, w.session.value.(foreign := false))
    case SetAgent(present) => w.(agent := present)
    case NamespaceGone => if w.ns.Ending() then w.(ns := Absent) else w
  }

  lemma {:induction false} OutsideIgnoresWorker(w: World, e: Event)
    requires e.FromOutside()
    ensures Outside(w, e) == Outside(w.(worker := Idle), e).(worker := w.worker)
  {
  }

  /** The store still holds the very version the reconciler read. */
  predicate Current(w: World, s: Session) {
    w.session.Some? && w.session.value.version == s.version
  }

  predicate HasPolicy(ns: Namespace) { ns.Present? && ns.policy }
  predicate HasRole(ns: Namespace) { ns.Present? && ns.role }
  predicate HasBinding(ns: Namespace) { ns.Present? && ns.binding }

  predicate Strict(isolation: Isolation) { isolation.Unset? || isolation.StrictLevel? }

  function AfterGet(s: Session): Worker {
    if s.deleting then (if s.finalizer then MarkTerminating(s) else Idle)
    else if s.finalizer then GetAgent(s) else AddFinalizer(s)
  }

  function AfterNamespace(s: Session): Worker {
    if Strict(s.isolation) || s.isolation.NoneLevel? then GetPolicy(s) else GetRole(s)
  }

  function MadeActive(s: Session): Session {
    s.(phase := Active, hasNamespace := true, ready := Some(true))
  }

  /** The effect of the worker's next call when it is carried out, and the worker after it. */
  function Perform(w: World): World {
    match w.worker
    case Idle => if w.session.None? then w else w.(worker := AfterGet(w.session.value))
    case AddFinalizer(s) =>
      if !Current(w, s) then w.(worker := Idle)
      else var s' := s.(finalizer := true, version := w.clock);
           w.(session := Some(s'), clock := w.clock + 1, worker := GetAgent(s'))
    case GetAgent(s) =>
      w.(worker := if w.agent then GetNamespace(s) else SaveStatus(s.(phase := Error, ready := Some(false))))
    case GetNamespace(s) => w.(worker := if w.ns.Absent? then CreateNamespace(s) else AfterNamespace(s))
    case CreateNamespace(s) =>
      if !w.ns.Absent? then w.(worker := Idle)
      else w.(ns := Present(s.uid, false, false, false, false), worker := AfterNamespace(s))
    case GetPolicy(s) => w.(worker := if HasPolicy(w.ns) == Strict(s.isolation) then GetRole(s) else WritePolicy(s))
    case WritePolicy(s) =>
      if Strict(s.isolation) then
        if !w.ns.Live() || w.ns.policy then w.(worker := Idle)
        else w.(ns := w.ns.(policy := true), worker := GetRole(s))
      else
        w.(ns := if w.ns.Absent? then w.ns else w.ns.(policy := false), worker := GetRole(s))
    case GetRole(s) => w.(worker := if HasRole(w.ns) then GetBinding(s) else CreateRole(s))
    case CreateRole(s) =>
      if !w.ns.Live() || w.ns.role then w.(worker := Idle)
      else w.(ns := w.ns.(role := true), worker := GetBinding(s))
    case GetBinding(s) => w.(worker := if HasBinding(w.ns) then SaveStatus(MadeActive(s)) else CreateBinding(s))
    case CreateBinding(s) =>
      if !w.ns.Live() || w.ns.binding then w.(worker := Idle)
      else w.(ns := w.ns.(binding := true), worker := SaveStatus(MadeActive(s)))
    case SaveStatus(s) =>
      if !Current(w, s) then w.(worker := Idle) else Put(w, w.session.value, s).(worker := Idle)
    case MarkTerminating(s) =>
      if !Current(w, s) then w.(worker := Idle)
      else var was, now := w.session.value, s.(phase := Terminating);
           var s' := Stored(w.clock, was, now);
           w.(session := Some(s'), clock := Tick(w.clock, was, now), worker := ConfirmGone(s'))
    case ConfirmGone(s) =>
      w.(worker := if w.ns.Absent? then RemoveFinalizer(s) else if w.ns.Live() then DeleteNamespace(s) else Idle)
    case DeleteNamespace(s) =>
      w.(ns := if w.ns.Live() then w.ns.(ending := true) else w.ns, worker := Idle)
    case RemoveFinalizer(s) =>
      if !Current(w, s) then w.(worker := Idle)
      else Put(w, w.session.value, s.(finalizer := false)).(worker := Idle)
  }

  function Step(w: World, e: Event): World {
    match e
    case Call(Fine) => Perform(w)
    case Call(Refused) => w.(worker := Idle)
    case Call(ReplyLost) => Perform(w).(worker := Idle)
    case _ => Outside(w, e)
  }

  function Run(w: World, events: seq<Event>): World {
    if events == [] then w
    else Step(Run(w, events[..|events| - 1]), events[|events| - 1])
  }

  lemma {:induction false} RunOneMore(w: World, events: seq<Event>, e: Event)
    ensures Run(w, events + [e]) == Step(Run(w, events), e)
  {
    assert (events + [e])[..|events|] == events;
  }

  predicate Initial(w: World) {
    w.session.None? && w.ns.Absent? && w.worker.Idle?
  }

  // ---- The invariant ----

  /** Same object but for what a status write may change. */
  predicate SameButStatus(a: Session, b: Session) {
    a == b.(phase := a.phase, hasNamespace := a.hasNamespace, ready := a.ready)
  }

  /** While the worker builds, the session it read is still there and still holds the finalizer;
      if it is the same version it is not being deleted either. */
  predicate BuildingOk(w: World, s: Session) {
    && w.session.Some? && w.session.value.uid == s.uid && w.session.value.finalizer
    && !s.deleting && s.finalizer && s.version < w.clock
    && (Current(w, s) ==> SameButStatus(w.session.value, s))
  }

  predicate TearingDownOk(w: World, s: Session) {
    && w.session.Some? && w.session.value.uid == s.uid && w.session.value.finalizer && w.session.value.deleting
    && s.deleting && s.finalizer && s.version < w.clock
    && (Current(w, s) ==> w.session.value == s)
  }

  predicate WorkerOk(w: World) {
    match w.worker
    case Idle => true
    case AddFinalizer(s) =>
      !s.deleting && s.version < w.clock && (Current(w, s) ==> w.session.value == s)
    case RemoveFinalizer(s) => TearingDownOk(w, s) && w.ns.Absent?
    case _ => if w.worker.TearingDown() then TearingDownOk(w, w.worker.s) else BuildingOk(w, w.worker.s)
  }

  /** A namespace exists only beside a session that holds the finalizer, and is that session's own;
      it is being removed only if the session is. */
  predicate Guarded(w: World) {
    w.ns.Absent? ||
    (w.session.Some? && w.session.value.finalizer && w.ns.owner == w.session.value.uid
     && (w.ns.Ending() ==> w.session.value.deleting))
  }

  predicate Inv(w: World) {
    && (w.session.Some? ==> w.session.value.uid < w.clock && w.session.value.version < w.clock)
    && Guarded(w)
    && WorkerOk(w)
  }

  lemma {:induction false} OutsideKeepsInv(w: World, e: Event)
    requires Inv(w) && e.FromOutside()
    ensures Inv(Outside(w, e))
  {
    if w.session.Some? && (e.DeleteSession? || e.SetIsolation? || e.DropForeign?) {
      UserKeepsInv(w, e);
    } else {
      RestKeepsInv(w, e);
    }
  }

  lemma {:induction false} UserKeepsInv(w: World, e: Event)
    requires Inv(w) && w.session.Some? && (e.DeleteSession? || e.SetIsolation? || e.DropForeign?)
    ensures Inv(Outside(w, e))
  {
    var s := w.session.value;
    match e
    case DeleteSession => EditKeepsInv(w, s.(deleting := true));
    case SetIsolation(i) => EditKeepsInv(w, s.(isolation := i));
    case DropForeign => EditKeepsInv(w, s.(foreign := false));
  }

  lemma {:induction false} RestKeepsInv(w: World, e: Event)
    requires Inv(w) && e.FromOutside() && (w.session.None? || e.CreateSession? || e.SetAgent? || e.NamespaceGone?)
    ensures Inv(Outside(w, e))
  {
  }

  /** What a user may change keeps identity and finalizer, and deletion is not taken back. */
  lemma {:induction false} EditKeepsInv(w: World, now: Session)
    requires Inv(w) && w.session.Some?
    requires now == w.session.value.(deleting := now.deleting, isolation := now.isolation, foreign := now.foreign)
    requires w.session.value.deleting ==> now.deleting
    ensures Inv(Put(w, w.session.value, now))
  {
  }

  lemma {:induction false} PerformKeepsInv(w: World)
    requires Inv(w)
    ensures Inv(Perform(w))
  {
    if w.worker.TearingDown() {
      TearDownKeepsInv(w);
    } else if w.worker.SaveStatus? {
    } else if w.worker.Building() {
      BuildKeepsInv(w);
    }
  }

  lemma {:induction false} TearDownKeepsInv(w: World)
    requires Inv(w) && w.worker.TearingDown()
    ensures Inv(Perform(w))
  {
  }

  lemma {:induction false} BuildKeepsInv(w: World)
    requires Inv(w) && w.worker.Building() && !w.worker.SaveStatus?
    ensures Inv(Perform(w))
  {
    if w.worker.GetAgent? {
      BeginKeepsInv(w);
    } else if w.worker.GetNamespace? || w.worker.CreateNamespace? {
      NamespaceKeepsInv(w);
    } else if w.worker.GetPolicy? || w.worker.WritePolicy? {
      PolicyKeepsInv(w);
    } else if w.worker.GetRole? || w.worker.CreateRole? {
      RoleKeepsInv(w);
    } else {
      BindingKeepsInv(w);
    }
  }

  lemma {:induction false} BeginKeepsInv(w: World)
    requires Inv(w) && w.worker.GetAgent?
    ensures Inv(Perform(w))
  {
  }

  lemma {:induction false} NamespaceKeepsInv(w: World)
    requires Inv(w) && (w.worker.GetNamespace? || w.worker.CreateNamespace?)
    ensures Inv(Perform(w))
  {
  }

  lemma {:induction false} PolicyKeepsInv(w: World)
    requires Inv(w) && (w.worker.GetPolicy? || w.worker.WritePolicy?)
    ensures Inv(Perform(w))
  {
  }

  lemma {:induction false} RoleKeepsInv(w: World)
    requires Inv(w) && (w.worker.GetRole? || w.worker.CreateRole?)
    ensures Inv(Perform(w))
  {
  }

  lemma {:induction false} BindingKeepsInv(w: World)
    requires Inv(w) && (w.worker.GetBinding? || w.worker.CreateBinding?)
    ensures Inv(Perform(w))
  {
  }

  lemma {:induction false} StepKeepsInv(w: World, e: Event)
    requires Inv(w)
    ensures Inv(Step(w, e))
  {
    if e.FromOutside() { OutsideKeepsInv(w, e); } else { PerformKeepsInv(w); }
  }

  lemma {:induction false} RunKeepsInv(w: World, events: seq<Event>)
    requires Inv(w)
    ensures Inv(Run(w, events))
  {
    if events != [] {
      RunKeepsInv(w, events[..|events| - 1]);
      StepKeepsInv(Run(w, events[..|events| - 1]), events[|events| - 1]);
    }
  }

  lemma {:induction false} RunInParts(w: World, a: seq<Event>, b: seq<Event>)
    ensures Run(w, a + b) == Run(Run(w, a), b)
  {
    if b == [] {
      assert a + b == a;
    } else {
      var front := b[..|b| - 1];
      assert a + b == (a + front) + [b[|b| - 1]];
      RunOneMore(w, a + front, b[|b| - 1]);
      RunInParts(w, a, front);
    }
  }

  // ---- No orphans ----

  /** In every reachable state a session namespace stands beside the session it was made for, which
      holds the finalizer. So a session created again under the name of a deleted one, Active or
      not, never meets the namespace of an earlier incarnation. */
  lemma {:induction false} NoOrphanNamespace(w: World, events: seq<Event>)
    requires Initial(w)
    ensures var v := Run(w, events);
            v.ns.Present? ==> v.session.Some? && v.session.value.finalizer && v.ns.owner == v.session.value.uid
  {
    RunKeepsInv(w, events);
  }

  // ---- Deletion ----

  /** Of incarnation `uid` nothing is left but a session being deleted, its phase `before` or
      Terminating. */
  predicate Doomed(w: World, uid: nat, before: Phase) {
    && uid < w.clock
    && (w.session.Some? && w.session.value.uid == uid ==>
          w.session.value.deleting && w.session.value.phase in {before, Terminating})
  }

  lemma {:induction false} OutsideKeepsDoomed(w: World, e: Event, uid: nat, before: Phase)
    requires Inv(w) && Doomed(w, uid, before) && e.FromOutside()
    ensures Doomed(Outside(w, e), uid, before)
  {
  }

  lemma {:induction false} WorkKeepsDoomed(w: World, uid: nat, before: Phase)
    requires Inv(w) && Doomed(w, uid, before)
    ensures Doomed(Perform(w), uid, before)
  {
    if w.worker.TearingDown() {
    } else if w.worker.SaveStatus? {
      assert BuildingOk(w, w.worker.s);
    }
  }

  /** Active is never written once deletion has begun: from then on the phase is what it was at
      that moment, or Terminating, for as long as that session is there. */
  lemma {:induction false} NeverActiveAfterDeletion(
      w: World, events: seq<Event>, more: seq<Event>, uid: nat, before: Phase)
    requires Initial(w) && Doomed(Run(w, events), uid, before)
    ensures Doomed(Run(w, events + more), uid, before)
  {
    if more == [] {
      assert events + more == events;
    } else {
      var front := more[..|more| - 1];
      NeverActiveAfterDeletion(w, events, front, uid, before);
      assert events + more == (events + front) + [more[|more| - 1]];
      RunOneMore(w, events + front, more[|more| - 1]);
      RunKeepsInv(w, events + front);
      StepKeepsDoomed(Run(w, events + front), more[|more| - 1], uid, before);
    }
  }

  lemma {:induction false} StepKeepsDoomed(w: World, e: Event, uid: nat, before: Phase)
    requires Inv(w) && Doomed(w, uid, before)
    ensures Doomed(Step(w, e), uid, before)
  {
    if e.FromOutside() { OutsideKeepsDoomed(w, e, uid, before); } else { WorkKeepsDoomed(w, uid, before); }
  }

  /** How far the clean-up of incarnation `uid` still has to go. */
  function Rank(w: World, uid: nat): nat {
    if w.session.None? || w.session.value.uid != uid || !w.session.value.finalizer then 0
    else if w.ns.Absent? then 1
    else if w.ns.ending then 2
    else 3
  }

  /** `uid` is being deleted or gone, and no reconcile that began earlier is still building. */
  predicate Retiring(w: World, uid: nat) {
    && uid < w.clock
    && (w.session.Some? && w.session.value.uid == uid ==> w.session.value.deleting && !w.worker.Building())
  }

  predicate NoWorse(w: World, v: World, uid: nat) {
    Retiring(v, uid) && Rank(v, uid) <= Rank(w, uid)
  }

  lemma {:induction false} OutsideKeepsRank(w: World, e: Event, uid: nat)
    requires Inv(w) && Retiring(w, uid) && e.FromOutside()
    ensures NoWorse(w, Outside(w, e), uid)
  {
  }

  lemma {:induction false} TearDownKeepsRank(w: World, uid: nat)
    requires Inv(w) && Retiring(w, uid) && w.worker.TearingDown()
    ensures NoWorse(w, Perform(w), uid)
  {
  }

  lemma {:induction false} BuildKeepsRank(w: World, uid: nat)
    requires Inv(w) && Retiring(w, uid) && w.worker.Building()
    ensures NoWorse(w, Perform(w), uid)
  {
    var v := Perform(w);
    assert BuildingOk(w, w.worker.s);
    assert w.session.value.uid != uid;
    assert v.session.Some? && v.session.value.uid == w.session.value.uid;
  }

  lemma {:induction false} WorkKeepsRank(w: World, uid: nat)
    requires Inv(w) && Retiring(w, uid)
    ensures NoWorse(w, Perform(w), uid)
  {
    if w.worker.TearingDown() { TearDownKeepsRank(w, uid); }
    else if w.worker.Building() { BuildKeepsRank(w, uid); }
  }

  /** Whatever happens from then on, clean-up is never undone. */
  lemma {:induction false} CleanupNeverRegresses(w: World, more: seq<Event>, uid: nat)
    requires Inv(w) && Retiring(w, uid)
    ensures Retiring(Run(w, more), uid) && Rank(Run(w, more), uid) <= Rank(w, uid)
  {
    if more != [] {
      var front := more[..|more| - 1];
      CleanupNeverRegresses(w, front, uid);
      RunKeepsInv(w, front);
      StepKeepsRank(Run(w, front), more[|more| - 1], uid);
    }
  }

  lemma {:induction false} StepKeepsRank(w: World, e: Event, uid: nat)
    requires Inv(w) && Retiring(w, uid)
    ensures NoWorse(w, Step(w, e), uid)
  {
    if e.FromOutside() { OutsideKeepsRank(w, e, uid); } else { WorkKeepsRank(w, uid); }
  }

  /** The finalizer of a session leaves it, in any reachable state, only when no namespace is left. */
  lemma {:induction false} FinalizerLeavesLast(w: World, events: seq<Event>, e: Event)
    requires Initial(w)
    requires GivesUpFinalizer(Run(w, events), e)
    ensures Run(w, events).ns.Absent? && Step(Run(w, events), e).ns.Absent?
  {
    RunKeepsInv(w, events);
    var v := Run(w, events);
    if e.FromOutside() {
      OutsideKeepsFinalizer(v, e);
    } else if v.worker.TearingDown() {
      TearDownReleasesLast(v);
    } else if v.worker.Building() {
      BuildKeepsFinalizer(v);
    }
  }

  predicate GivesUpFinalizer(w: World, e: Event) {
    && w.session.Some? && w.session.value.finalizer
    && Released(w, Step(w, e))
  }

  predicate Released(w: World, v: World)
    requires w.session.Some?
  {
    v.session.None? || v.session.value.uid != w.session.value.uid || !v.session.value.finalizer
  }

  lemma {:induction false} OutsideKeepsFinalizer(w: World, e: Event)
    requires e.FromOutside() && w.session.Some? && w.session.value.finalizer
    ensures !Released(w, Outside(w, e))
  {
  }

  lemma {:induction false} BuildKeepsFinalizer(w: World)
    requires Inv(w) && w.worker.Building() && w.session.Some? && w.session.value.finalizer
    ensures !Released(w, Perform(w))
  {
    assert BuildingOk(w, w.worker.s);
  }

  lemma {:induction false} TearDownReleasesLast(w: World)
    requires Inv(w) && w.worker.TearingDown() && w.session.Some? && w.session.value.finalizer
    requires Released(w, Perform(w))
    ensures w.ns.Absent? && Perform(w).ns.Absent?
  {
  }

  // ---- One undisturbed reconcile ----

  /** Undisturbed calls until the worker rests. */
  function Settled(w: World): World
    decreases w.worker.Left()
  {
    if w.worker.Idle? then w else Settled(Perform(w))
  }

  /** A whole reconcile without faults and with nothing happening in between. */
  function Reconciled(w: World): World { Settled(Perform(w)) }

  lemma {:induction false} SettledIsRun(w: World) returns (events: seq<Event>)
    ensures Run(w, events) == Settled(w)
    ensures forall e :: e in events ==> e == Call(Fine)
    decreases w.worker.Left()
  {
    events := [];
    if !w.worker.Idle? {
      var rest := SettledIsRun(Perform(w));
      events := [Call(Fine)] + rest;
      RunInParts(w, [Call(Fine)], rest);
      RunOneMore(w, [], Call(Fine));
      assert [] + [Call(Fine)] == [Call(Fine)];
    }
  }

  /** The tenant's network policy is there when isolation is asked for and not when it is waived. */
  predicate PolicyAsAsked(isolation: Isolation, ns: Namespace)
    requires ns.Present?
  {
    && (isolation.Unset? || isolation.StrictLevel? ==> ns.policy)
    && (isolation.NoneLevel? ==> !ns.policy)
  }

  predicate Converged(w: World) {
    && w.session.Some? && w.session.value.finalizer && !w.session.value.deleting
    && w.session.value.phase.Active? && w.session.value.hasNamespace && w.session.value.ready == Some(true)
    && w.ns.Live() && w.ns.owner == w.session.value.uid && w.ns.role && w.ns.binding
    && PolicyAsAsked(w.session.value.isolation, w.ns)
    && w.worker.Idle?
  }

  /** Nothing but the reconciler's own objects and the status may differ, and the network policy not
      either where the isolation level is none the source knows. */
  predicate SameRequest(w: World, v: World) {
    && w.session.Some? && v.session.Some?
    && v.session.value.uid == w.session.value.uid && v.session.value.isolation == w.session.value.isolation
    && v.session.value.foreign == w.session.value.foreign
    && v.agent == w.agent
    && (w.session.value.isolation.OtherLevel? ==> HasPolicy(v.ns) == HasPolicy(w.ns))
  }

  /** The worker holds the session as stored, which is not being deleted. */
  predicate Fresh(w: World) {
    && w.worker.Building() && w.session.Some? && w.session.value.version == w.worker.s.version
    && SameButStatus(w.session.value, w.worker.s)
    && !w.session.value.deleting && w.session.value.finalizer
  }

  predicate Ends(w: World) {
    Converged(Settled(w)) && SameRequest(w, Settled(w))
  }

  lemma {:induction false} SettleStatus(w: World)
    requires Fresh(w) && w.worker.SaveStatus? && w.worker.s == MadeActive(w.worker.s)
    requires w.ns.Live() && w.ns.owner == w.session.value.uid && w.ns.role && w.ns.binding
    requires PolicyAsAsked(w.session.value.isolation, w.ns)
    ensures Ends(w)
  {
    assert Settled(w) == Settled(Perform(w));
  }

  lemma {:induction false} SettleBinding(w: World)
    requires Fresh(w) && w.worker.GetBinding?
    requires w.ns.Live() && w.ns.owner == w.session.value.uid && w.ns.role
    requires PolicyAsAsked(w.session.value.isolation, w.ns)
    ensures Ends(w)
  {
    var v := Perform(w);
    assert Settled(w) == Settled(v);
    if v.worker.CreateBinding? {
      assert Settled(v) == Settled(Perform(v));
      SettleStatus(Perform(v));
    } else {
      SettleStatus(v);
    }
  }

  lemma {:induction false} SettleRole(w: World)
    requires Fresh(w) && w.worker.GetRole?
    requires w.ns.Live() && w.ns.owner == w.session.value.uid
    requires PolicyAsAsked(w.session.value.isolation, w.ns)
    ensures Ends(w)
  {
    var v := Perform(w);
    assert Settled(w) == Settled(v);
    if v.worker.CreateRole? {
      assert Settled(v) == Settled(Perform(v));
      SettleBinding(Perform(v));
    } else {
      SettleBinding(v);
    }
  }

  lemma {:induction false} SettleAfterNamespace(w: World)
    requires Fresh(w) && w.worker == AfterNamespace(w.worker.s)
    requires w.ns.Live() && w.ns.owner == w.session.value.uid
    ensures Ends(w)
  {
    if w.worker.GetRole? {
      SettleRole(w);
    } else {
      var v := Perform(w);
      assert Settled(w) == Settled(v);
      if v.worker.WritePolicy? {
        assert Settled(v) == Settled(Perform(v));
        SettleRole(Perform(v));
      } else {
        SettleRole(v);
      }
    }
  }

  lemma {:induction false} SettleFromAgent(w: World)
    requires Inv(w) && Fresh(w) && w.worker.GetAgent? && w.agent
    ensures Ends(w)
  {
    var v := Perform(w);
    assert Settled(w) == Settled(v);
    var u := Perform(v);
    assert Settled(v) == Settled(u);
    if u.worker.CreateNamespace? {
      assert Settled(u) == Settled(Perform(u));
      SettleAfterNamespace(Perform(u));
    } else {
      SettleAfterNamespace(u);
    }
  }

  /** From any state a crash can leave, with the agent there and the session not being deleted, one
      undisturbed reconcile brings finalizer, namespace, role, binding, the right network policy
      and Active, whatever the isolation level was before. */
  lemma {:induction false} ReconcileConverges(w: World, events: seq<Event>)
    requires Initial(w)
    requires var v := Run(w, events);
             v.worker.Idle? && v.session.Some? && !v.session.value.deleting && v.agent
    ensures var v := Run(w, events);
            Converged(Reconciled(v)) && SameRequest(v, Reconciled(v))
  {
    RunKeepsInv(w, events);
    var v := Run(w, events);
    PerformKeepsInv(v);
    var u := Perform(v);
    if u.worker.AddFinalizer? {
      PerformKeepsInv(u);
      assert Settled(u) == Settled(Perform(u));
      SettleFromAgent(Perform(u));
    } else {
      SettleFromAgent(u);
    }
  }

  /** Without its agent a session that is not being deleted ends in Error and not ready, whatever it
      was before; no namespace is made for it, and one that is there stays as it is. */
  lemma {:induction false} MissingAgentEndsInError(w: World)
    requires w.worker.Idle? && w.session.Some? && !w.session.value.deleting && !w.agent
    ensures var v := Reconciled(w);
            && v.session.Some? && v.session.value.phase.Error? && v.session.value.ready == Some(false)
            && v.session.value.finalizer && v.session.value.uid == w.session.value.uid
            && v.ns == w.ns && v.worker.Idle?
  {
    var u := Perform(w);
    if u.worker.AddFinalizer? {
      SettleNext(u);
      ErrorIsSaved(Perform(u));
    } else {
      ErrorIsSaved(u);
    }
  }

  lemma {:induction false} ErrorIsSaved(w: World)
    requires w.worker.GetAgent? && !w.agent && Current(w, w.worker.s) && w.worker.s.finalizer
    requires !w.worker.s.deleting
    ensures var s, v := w.worker.s.(phase := Error, ready := Some(false)), Settled(w);
            v.session.Some? && v.session.value.(version := s.version) == s && v.ns == w.ns && v.worker.Idle?
  {
    SettleNext(w);
    SettleNext(Perform(w));
    assert Perform(Perform(w)).worker.Idle?;
  }

  /** A second reconcile changes nothing at all. */
  lemma {:induction false} ReconcileIsIdempotent(w: World)
    requires Converged(w) && w.agent
    ensures Reconciled(w) == w
  {
    var s := w.session.value;
    assert Perform(w) == w.(worker := GetAgent(s));
    assert Settled(w.(worker := GetAgent(s))) == Settled(w.(worker := GetNamespace(s)));
    assert Settled(w.(worker := GetNamespace(s))) == Settled(w.(worker := AfterNamespace(s)));
    if AfterNamespace(s).GetPolicy? {
      assert Settled(w.(worker := GetPolicy(s))) == Settled(w.(worker := GetRole(s)));
    }
    assert Settled(w.(worker := GetRole(s))) == Settled(w.(worker := GetBinding(s)));
    assert Settled(w.(worker := GetBinding(s))) == Settled(w.(worker := SaveStatus(s)));
    assert Settled(w.(worker := SaveStatus(s))) == Settled(Perform(w.(worker := SaveStatus(s))));
  }

  /** Deletion completes: one undisturbed reconcile starts the removal of the namespace and says so in
      the phase, and one more, after the cluster has removed it, gives up the finalizer. */
  lemma {:induction false} DeletionCompletes(w: World, events: seq<Event>)
    requires Initial(w)
    requires var v := Run(w, events);
             v.worker.Idle? && v.session.Some? && v.session.value.deleting && v.session.value.finalizer
    ensures var v := Run(w, events);
            var mid := Reconciled(v);
            var end := Reconciled(Outside(mid, NamespaceGone));
            && !mid.ns.Live() && (mid.session.Some? ==> mid.session.value.phase.Terminating?)
            && end.ns.Absent?
            && (end.session.Some? && end.session.value.uid == v.session.value.uid ==> !end.session.value.finalizer)
  {
    RunKeepsInv(w, events);
    var v := Run(w, events);
    TearDownPass(v);
    OutsideKeepsInv(Reconciled(v), NamespaceGone);
    var u := Outside(Reconciled(v), NamespaceGone);
    if u.session.Some? && u.session.value.finalizer {
      TearDownPass(u);
    }
  }

  lemma {:induction false} TearDownPass(w: World)
    requires Inv(w) && w.worker.Idle? && w.session.Some? && w.session.value.deleting && w.session.value.finalizer
    ensures var end := Reconciled(w);
            && end.worker.Idle? && Inv(end) && (end.session.Some? ==> end.session.value.phase.Terminating?)
            && if w.ns.Absent? then
                 end.ns.Absent?
                 && (end.session.Some? ==> end.session.value.deleting && !end.session.value.finalizer)
               else end.ns.Ending() && end.session.Some? && end.session.value.uid == w.session.value.uid
                    && end.session.value.deleting && end.session.value.finalizer
  {
    PerformKeepsInv(w);
    SettleNext(Perform(w));
    var marked := Perform(Perform(w));
    PerformKeepsInv(Perform(w));
    SettleNext(marked);
    ConfirmPass(marked, w.session.value.uid);
  }

  lemma {:induction false} SettleNext(w: World)
    requires !w.worker.Idle?
    ensures Settled(w) == Settled(Perform(w))
  {
  }

  /** From the look-up of the namespace on. */
  lemma {:induction false} ConfirmPass(w: World, uid: nat)
    requires Inv(w) && w.worker.ConfirmGone? && w.session.Some? && w.session.value.uid == uid
    requires w.worker.s == w.session.value && w.session.value.phase.Terminating?
    ensures var end := Settled(w);
            && end.worker.Idle? && Inv(end) && (end.session.Some? ==> end.session.value.phase.Terminating?)
            && if w.ns.Absent? then
                 end.ns.Absent?
                 && (end.session.Some? ==> end.session.value.deleting && !end.session.value.finalizer)
               else end.ns.Ending() && end.session.Some? && end.session.value.uid == uid
                    && end.session.value.deleting && end.session.value.finalizer
  {
    PerformKeepsInv(w);
    if !Perform(w).worker.Idle? {
      SettleNext(Perform(w));
      PerformKeepsInv(Perform(w));
    }
  }

  // ---- The reconciler ----

  /** How the k-th call of one reconcile fares and what happens before it. */
  datatype Fate = Fate(faults: seq<Fault>, gaps: seq<seq<Event>>) {
    function FaultOf(k: nat): Fault { if k < |faults| then faults[k] else Fine }

    function Gap(k: nat): seq<Event> { if k < |gaps| then gaps[k] else [] }

    /** Nothing fails and nothing interferes. */
    predicate Quiet() { faults == [] && gaps == [] }

    predicate Fits() {
      forall k, i :: 0 <= k < |gaps| && 0 <= i < |gaps[k]| ==> gaps[k][i].FromOutside()
    }
  }

  /** The API server as this reconciler meets it, and the reconciler itself. */
  class SessionReconciler {
    var session: Option<Session>
    var clock: nat
    var agent: bool
    var ns: Namespace
    var fate: Fate
    var calls: nat
    ghost var worker: Worker
    ghost const origin: World
    ghost var history: seq<Event>

    ghost function View(): World
      reads this
    {
      World(session, clock, agent, ns, worker)
    }

    ghost predicate Valid()
      reads this
    {
      View() == Run(origin, history) && fate.Fits()
    }

    /** Only steps of the protocol were taken; if nothing disturbs them they are the worker's next
        calls, so they lead where the rest of the reconcile leads. */
    twostate predicate Kept()
      reads this
    {
      && Valid() && old(history) <= history && fate == old(fate)
      && (fate.Quiet() ==> Settled(View()) == Settled(old(View())))
    }

    constructor (agent: bool)
      ensures Valid() && Initial(origin) && history == [] && worker.Idle?
      ensures View() == World(None, 0, agent, Absent, Idle)
    {
      this.session, this.clock, this.agent, this.ns := None, 0, agent, Absent;
      this.fate, this.calls := Fate([], []), 0;
      this.worker, this.history := Idle, [];
      this.origin := World(None, 0, agent, Absent, Idle);
    }

    /** Records `e` and moves the worker as the protocol does. */
    ghost method Note(e: Event)
      requires Valid()
      modifies this`worker, this`history
      ensures worker == Step(old(View()), e).worker && history == old(history) + [e]
      ensures Run(origin, history) == Step(old(View()), e)
    {
      RunOneMore(origin, history, e);
      worker, history := Step(View(), e).worker, history + [e];
    }

    method Interfere(events: seq<Event>)
      requires Valid() && forall i :: 0 <= i < |events| ==> events[i].FromOutside()
      modifies this
      ensures Valid() && worker == old(worker) && old(history) <= history
      ensures fate == old(fate) && calls == old(calls)
      ensures events == [] ==> View() == old(View())
    {
      for k := 0 to |events|
        invariant Valid() && worker == old(worker) && old(history) <= history
        invariant fate == old(fate) && calls == old(calls)
        invariant k == 0 ==> View() == old(View())
      {
        Happen(events[k]);
      }
    }

    method Happen(e: Event)
      requires Valid() && e.FromOutside()
      modifies this`session, this`clock, this`agent, this`ns, this`worker, this`history
      ensures Valid() && worker == old(worker) && history == old(history) + [e]
      ensures View() == Outside(old(View()), e)
    {
      var v := Outside(World(session, clock, agent, ns, Idle), e);
      OutsideIgnoresWorker(View(), e);
      Note(e);
      session, clock, agent, ns := v.session, v.clock, v.agent, v.ns;
    }

    /** What precedes every API call. */
    method Begin() returns (f: Fault)
      requires Valid()
      modifies this
      ensures Valid() && worker == old(worker) && old(history) <= history && fate == old(fate)
      ensures fate.Quiet() ==> f.Fine? && View() == old(View())
    {
      Interfere(fate.Gap(calls));
      f := fate.FaultOf(calls);
      calls := calls + 1;
    }

    method Get() returns (got: Option<Session>)
      requires Valid() && worker.Idle?
      modifies this
      ensures Valid() && old(history) <= history && fate == old(fate)
      ensures fate.Quiet() ==> View() == Perform(old(View()))
      ensures worker == if got.None? then Idle else AfterGet(got.value)
    {
      var f := Begin();
      Note(Call(f));
      got := if f.Fine? then session else None;
    }

    method UpdateAddingFinalizer(s: Session) returns (updated: Option<Session>)
      requires Valid() && worker == AddFinalizer(s)
      modifies this
      ensures Kept()
      ensures worker == if updated.None? then Idle else GetAgent(updated.value)
      ensures updated.Some? ==> updated.value == s.(finalizer := true, version := updated.value.version)
    {
      var f := Begin();
      Note(Call(f));
      updated := None;
      if !f.Refused? && session.Some? && session.value.version == s.version {
        session, clock := Some(s.(finalizer := true, version := clock)), clock + 1;
        if f.Fine? { updated := session; }
      }
    }

    /** Stores `now` over the stored session. */
    method Store(now: Session)
      requires session.Some?
      modifies this`session, this`clock
      ensures session == Settle(Stored(old(clock), old(session).value, now))
      ensures clock == Tick(old(clock), old(session).value, now)
    {
      if now != session.value {
        var kept := now.(version := clock);
        session := if kept.deleting && !kept.finalizer && !kept.foreign then None else Some(kept);
        clock := clock + 1;
      } else if now.deleting && !now.finalizer && !now.foreign {
        session := None;
      }
    }

    method SaveStatusOf(s: Session)
      requires Valid() && worker == SaveStatus(s)
      modifies this
      ensures Kept() && worker.Idle?
    {
      var f := Begin();
      Note(Call(f));
      if !f.Refused? && session.Some? && session.value.version == s.version { Store(s); }
    }

    method UpdateTerminating(s: Session) returns (updated: Option<Session>)
      requires Valid() && worker == MarkTerminating(s)
      modifies this
      ensures Kept()
      ensures worker == if updated.None? then Idle else ConfirmGone(updated.value)
      ensures updated.Some? ==> updated.value == s.(phase := Terminating, version := updated.value.version)
    {
      var f := Begin();
      ghost var before := View();
      updated := WriteTerminating(s, f);
      if fate.Quiet() {
        SettleNext(before);
      }
    }

    method WriteTerminating(s: Session, f: Fault) returns (updated: Option<Session>)
      requires Valid() && worker == MarkTerminating(s)
      modifies this`session, this`clock, this`worker, this`history
      ensures Valid() && history == old(history) + [Call(f)] && View() == Step(old(View()), Call(f))
      ensures worker == if updated.None? then Idle else ConfirmGone(updated.value)
      ensures updated.Some? ==> updated.value == s.(phase := Terminating, version := updated.value.version)
    {
      Note(Call(f));
      if f.Refused? || session.None? || session.value.version != s.version {
        return None;
      }
      StoreKept(s.(phase := Terminating));
      updated := if f.Fine? then session else None;
    }

    /** Stores `now` over a session that stays, because its finalizer does. */
    method StoreKept(now: Session)
      requires session.Some?
      modifies this`session, this`clock
      ensures session == Some(Stored(old(clock), old(session).value, now))
      ensures clock == Tick(old(clock), old(session).value, now)
    {
      if now != session.value {
        session, clock := Some(now.(version := clock)), clock + 1;
      }
    }

    method UpdateRemovingFinalizer(s: Session)
      requires Valid() && worker == RemoveFinalizer(s)
      modifies this
      ensures Kept() && worker.Idle?
    {
      var f := Begin();
      Note(Call(f));
      if !f.Refused? && session.Some? && session.value.version == s.version { Store(s.(finalizer := false)); }
    }

    method GetAgentFor(s: Session) returns (found: Option<bool>)
      requires Valid() && worker == GetAgent(s)
      modifies this
      ensures Kept()
      ensures worker == if found.None? then Idle else if found.value then GetNamespace(s)
                        else SaveStatus(s.(phase := Error, ready := Some(false)))
    {
      var f := Begin();
      Note(Call(f));
      found := if f.Fine? then Some(agent) else None;
    }

    method LookUpNamespace(s: Session) returns (found: Option<bool>)
      requires Valid() && worker == GetNamespace(s)
      modifies this
      ensures Kept()
      ensures worker == if found.None? then Idle else if found.value then AfterNamespace(s) else CreateNamespace(s)
    {
      var f := Begin();
      Note(Call(f));
      found := if f.Fine? then Some(ns.Present?) else None;
    }

    method CreateSessionNamespace(s: Session) returns (ok: bool)
      requires Valid() && worker == CreateNamespace(s)
      modifies this
      ensures Kept()
      ensures worker == if ok then AfterNamespace(s) else Idle
    {
      var f := Begin();
      Note(Call(f));
      var accepted := !f.Refused? && ns.Absent?;
      if accepted { ns := Present(s.uid, false, false, false, false); }
      ok := accepted && f.Fine?;
    }

    method EnsureNamespace(s: Session) returns (ok: bool)
      requires Valid() && worker == GetNamespace(s)
      modifies this
      ensures Kept()
      ensures worker == if ok then AfterNamespace(s) else Idle
    {
      var found := LookUpNamespace(s);
      if found.None? {
        return false;
      }
      if found.value {
        return true;
      }
      ok := CreateSessionNamespace(s);
    }

    method LookUpPolicy(s: Session) returns (found: Option<bool>)
      requires Valid() && worker == GetPolicy(s)
      modifies this
      ensures Kept()
      ensures worker == if found.None? then Idle
                        else if found.value == Strict(s.isolation) then GetRole(s) else WritePolicy(s)
    {
      var f := Begin();
      Note(Call(f));
      found := if f.Fine? then Some(ns.Present? && ns.policy) else None;
    }

    method CreatePolicy(s: Session) returns (ok: bool)
      requires Valid() && worker == WritePolicy(s) && Strict(s.isolation)
      modifies this
      ensures Kept()
      ensures worker == if ok then GetRole(s) else Idle
    {
      var f := Begin();
      Note(Call(f));
      var accepted := !f.Refused? && ns.Present? && !ns.ending && !ns.policy;
      if accepted { ns := ns.(policy := true); }
      ok := accepted && f.Fine?;
    }

    method EnsureNetworkPolicy(s: Session) returns (ok: bool)
      requires Valid() && worker == GetPolicy(s) && Strict(s.isolation)
      modifies this
      ensures Kept()
      ensures worker == if ok then GetRole(s) else Idle
    {
      var found := LookUpPolicy(s);
      if found.None? {
        return false;
      }
      if found.value {
        return true;
      }
      ok := CreatePolicy(s);
    }

    method DeletePolicy(s: Session) returns (ok: bool)
      requires Valid() && worker == WritePolicy(s) && !Strict(s.isolation)
      modifies this
      ensures Kept()
      ensures worker == if ok then GetRole(s) else Idle
    {
      var f := Begin();
      Note(Call(f));
      if !f.Refused? && ns.Present? { ns := ns.(policy := false); }
      ok := f.Fine?;
    }

    method RemoveNetworkPolicy(s: Session) returns (ok: bool)
      requires Valid() && worker == GetPolicy(s) && s.isolation.NoneLevel?
      modifies this
      ensures Kept()
      ensures worker == if ok then GetRole(s) else Idle
    {
      var found := LookUpPolicy(s);
      if found.None? {
        return false;
      }
      if !found.value {
        return true;
      }
      ok := DeletePolicy(s);
    }

    method LookUpRole(s: Session) returns (found: Option<bool>)
      requires Valid() && worker == GetRole(s)
      modifies this
      ensures Kept()
      ensures worker == if found.None? then Idle else if found.value then GetBinding(s) else CreateRole(s)
    {
      var f := Begin();
      Note(Call(f));
      found := if f.Fine? then Some(ns.Present? && ns.role) else None;
    }

    method CreateTenantRole(s: Session) returns (ok: bool)
      requires Valid() && worker == CreateRole(s)
      modifies this
      ensures Kept()
      ensures worker == if ok then GetBinding(s) else Idle
    {
      var f := Begin();
      Note(Call(f));
      var accepted := !f.Refused? && ns.Present? && !ns.ending && !ns.role;
      if accepted { ns := ns.(role := true); }
      ok := accepted && f.Fine?;
    }

    method EnsureRole(s: Session) returns (ok: bool)
      requires Valid() && worker == GetRole(s)
      modifies this
      ensures Kept()
      ensures worker == if ok then GetBinding(s) else Idle
    {
      var found := LookUpRole(s);
      if found.None? {
        return false;
      }
      if found.value {
        return true;
      }
      ok := CreateTenantRole(s);
    }

    method LookUpBinding(s: Session) returns (found: Option<bool>)
      requires Valid() && worker == GetBinding(s)
      modifies this
      ensures Kept()
      ensures worker == if found.None? then Idle
                        else if found.value then SaveStatus(MadeActive(s)) else CreateBinding(s)
    {
      var f := Begin();
      Note(Call(f));
      found := if f.Fine? then Some(ns.Present? && ns.binding) else None;
    }

    method CreateTenantBinding(s: Session) returns (ok: bool)
      requires Valid() && worker == CreateBinding(s)
      modifies this
      ensures Kept()
      ensures worker == if ok then SaveStatus(MadeActive(s)) else Idle
    {
      var f := Begin();
      Note(Call(f));
      var accepted := !f.Refused? && ns.Present? && !ns.ending && !ns.binding;
      if accepted { ns := ns.(binding := true); }
      ok := accepted && f.Fine?;
    }

    method EnsureBinding(s: Session) returns (ok: bool)
      requires Valid() && worker == GetBinding(s)
      modifies this
      ensures Kept()
      ensures worker == if ok then SaveStatus(MadeActive(s)) else Idle
    {
      var found := LookUpBinding(s);
      if found.None? {
        return false;
      }
      if found.value {
        return true;
      }
      ok := CreateTenantBinding(s);
    }

    method HandleDeletion(s: Session)
      requires Valid() && s.deleting && worker == AfterGet(s)
      modifies this
      ensures Kept() && worker.Idle?
    {
      if s.finalizer {
        var updated := UpdateTerminating(s);
        if updated.None? {
          return;
        }
        var gone := NamespaceConfirmedGone(updated.value);
        if gone {
          UpdateRemovingFinalizer(updated.value);
        }
      }
    }

    method LookUpDoomedNamespace(s: Session) returns (found: Option<Namespace>)
      requires Valid() && worker == ConfirmGone(s)
      modifies this
      ensures Kept()
      ensures worker == if found.None? || found.value.Ending() then Idle
                        else if found.value.Absent? then RemoveFinalizer(s) else DeleteNamespace(s)
    {
      var f := Begin();
      Note(Call(f));
      found := if f.Fine? then Some(ns) else None;
    }

    method DeleteSessionNamespace(s: Session)
      requires Valid() && worker == DeleteNamespace(s)
      modifies this
      ensures Kept() && worker.Idle?
    {
      var f := Begin();
      Note(Call(f));
      if !f.Refused? && ns.Present? { ns := ns.(ending := true); }
    }

    /** Asks for the removal of the namespace if it is still there. */
    method NamespaceConfirmedGone(s: Session) returns (gone: bool)
      requires Valid() && worker == ConfirmGone(s)
      modifies this
      ensures Kept()
      ensures worker == if gone then RemoveFinalizer(s) else Idle
    {
      var found := LookUpDoomedNamespace(s);
      if found.None? {
        return false;
      }
      if found.value.Present? {
        if !found.value.ending {
          DeleteSessionNamespace(s);
        }
        return false;
      }
      gone := true;
    }

    /** The source's Reconcile. Under any faults and any interference it takes only steps of the
        protocol, so no namespace is ever left without its session and finalizer. */
    method Reconcile(fate: Fate)
      requires Valid() && Initial(origin) && worker.Idle? && fate.Fits()
      modifies this
      ensures Valid() && worker.Idle? && old(history) <= history
      ensures fate.Quiet() ==> View() == Reconciled(old(View()))
      ensures ns.Present? ==> session.Some? && session.value.finalizer && ns.owner == session.value.uid
      ensures fate.Quiet() && old(session).Some? && !old(session).value.deleting && old(agent) ==>
                && Converged(View()) && SameRequest(old(View()), View())
                && session.value.phase.Active? && session.value.ready == Some(true)
      ensures fate.Quiet() && old(session).Some? && !old(session).value.deleting && !old(agent) ==>
                session.Some? && session.value.phase.Error? && session.value.ready == Some(false) && ns == old(ns)
      ensures fate.Quiet() && old(session).Some? && old(session).value.deleting && old(session).value.finalizer ==>
                !ns.Live() && (session.Some? ==> session.value.phase.Terminating?)
    {
      ghost var before := View();
      if session.Some? && !session.value.deleting && agent {
        ReconcileConverges(origin, history);
      } else if session.Some? && !session.value.deleting {
        MissingAgentEndsInError(before);
      } else if session.Some? && session.value.finalizer {
        DeletionCompletes(origin, history);
      }
      this.fate, this.calls := fate, 0;
      Attempt();
      NoOrphanNamespace(origin, history);
    }

    method Attempt()
      requires Valid() && worker.Idle?
      modifies this
      ensures Valid() && old(history) <= history && fate == old(fate) && worker.Idle?
      ensures fate.Quiet() ==> View() == Reconciled(old(View()))
    {
      var got := Get();
      if got.None? {
        return;
      }
      var s := got.value;
      if s.deleting {
        HandleDeletion(s);
        return;
      }
      if !s.finalizer {
        var updated := UpdateAddingFinalizer(s);
        if updated.None? {
          return;
        }
        s := updated.value;
      }
      Build(s);
    }

    /** From the agent lookup on. */
    method Build(s: Session)
      requires Valid() && worker == GetAgent(s)
      modifies this
      ensures Kept() && worker.Idle?
    {
      var found := GetAgentFor(s);
      if found.None? {
        return;
      }
      if !found.value {
        SaveStatusOf(s.(phase := Error, ready := Some(false)));
        return;
      }
      var ok := EnsureNamespace(s);
      if !ok {
        return;
      }
      if Strict(s.isolation) {
        ok := EnsureNetworkPolicy(s);
      } else if s.isolation.NoneLevel? {
        ok := RemoveNetworkPolicy(s);
      }
      if !ok {
        return;
      }
      Furnish(s);
    }

    /** Role, binding and status. */
    method Furnish(s: Session)
      requires Valid() && worker == GetRole(s)
      modifies this
      ensures Kept() && worker.Idle?
    {
      var ok := EnsureRole(s);
      if !ok {
        return;
      }
      ok := EnsureBinding(s);
      if !ok {
        return;
      }
      SaveStatusOf(MadeActive(s));
    }
  }
}
