/** Monitoring tasks of the agent server (`server.py`): the runner of one task, the file the tasks
    are saved in, and what a crash at any point may cause.

    Every critical section under the tasks lock runs without an await, so the lock is always free
    when asked for, and the code between two awaits is one event of `Step`. Saving and notifying
    are two events, since the process may die between them. */
module BackgroundTasks {
  import opened Wrappers

  datatype Status = Pending | Running | Completed | TimedOut | Failed {
    predicate Terminal() { Completed? || TimedOut? || Failed? }
  }

  datatype Task = Task(kind: string, interval: int, timeout: int, status: Status)

  /** Where the runner of a task stands; it keeps the interval and timeout it read when it started. */
  datatype Runner =
    | Launched
    | Sleeping(interval: int, timeout: int, elapsed: int)
    | Checking(interval: int, timeout: int, elapsed: int)
    | Saving
    | Announcing(saved: bool)

  /** One call of `_post_notification`; `saved` tells whether the save just before it succeeded. */
  datatype Note = Note(id: string, saved: bool)

  /** `used`, `notes`, `checked` and `saves` record what happened: the ids given out, the
      notifications, how many checks of each task began, how many saves succeeded. */
  datatype World = World(
    memory: map<string, Task>, file: map<string, Task>, runners: map<string, Runner>, checkers: set<string>,
    used: set<string>, notes: seq<Note>, checked: multiset<string>, saves: nat)

  datatype Event =
    | Create(id: string, kind: string, interval: int, timeout: int, ok: bool)
    | Delete(id: string, ok: bool)
    | StartRunner(id: string, ok: bool)
    | Wake(id: string)
    | CheckEnds(id: string, met: bool)
    | SaveOutcome(id: string, ok: bool)
    | Notify(id: string)
    | Restart(readable: bool, checkers: set<string>)
  {
    /** A step of the runner of this task. */
    predicate Drives(task: string) {
      match this
      case StartRunner(id, _) => id == task
      case Wake(id) => id == task
      case CheckEnds(id, _) => id == task
      case SaveOutcome(id, _) => id == task
      case Notify(id) => id == task
      case _ => false
    }
  }

  const LEAST_INTERVAL := 5
  const LONGEST_TIMEOUT := 86400

  function Max(a: int, b: int): int { if a > b then a else b }

  function Min(a: int, b: int): int { if a < b then a else b }

  /** `_save_tasks`: the file is replaced by what is in memory, or stays as it was. */
  function Saved(w: World, ok: bool): World {
    if ok then w.(file := w.memory, saves := w.saves + 1) else w
  }

  /** The runner writes to the task it holds; if that was deleted meanwhile, nobody sees it. */
  function Marked(memory: map<string, Task>, id: string, status: Status): map<string, Task> {
    if id in memory then memory[id := memory[id].(status := status)] else memory
  }

  // ---- The steps; one that does not fit the state changes nothing ----

  function Created(w: World, id: string, kind: string, interval: int, timeout: int, ok: bool): World {
    if kind !in w.checkers || id in w.used then w
    else
      var task := Task(kind, Max(interval, LEAST_INTERVAL), Min(timeout, LONGEST_TIMEOUT), Pending);
      Saved(w.(memory := w.memory[id := task], runners := w.runners[id := Launched], used := w.used + {id}), ok)
  }

  function Deleted(w: World, id: string, ok: bool): World {
    if id !in w.memory then w else Saved(w.(memory := w.memory - {id}), ok)
  }

  /** The loop test: sleep again, or mark the task as timed out. */
  function AtLoopTest(w: World, id: string, interval: int, timeout: int, elapsed: int): World {
    if elapsed < timeout then w.(runners := w.runners[id := Sleeping(interval, timeout, elapsed)])
    else w.(memory := Marked(w.memory, id, TimedOut), runners := w.runners[id := Saving])
  }

  function Started(w: World, id: string, ok: bool): World {
    if id !in w.runners || !w.runners[id].Launched? then w
    else if id !in w.memory then w.(runners := w.runners - {id})
    else
      var task := w.memory[id];
      if task.kind !in w.checkers
      then Saved(w.(memory := Marked(w.memory, id, Failed), runners := w.runners - {id}), ok)
      else AtLoopTest(Saved(w.(memory := Marked(w.memory, id, Running)), ok), id, task.interval, task.timeout, 0)
  }

  function Woken(w: World, id: string): World {
    if id !in w.runners || !w.runners[id].Sleeping? then w
    else if id !in w.memory then w.(runners := w.runners - {id})
    else
      var r := w.runners[id];
      w.(runners := w.runners[id := Checking(r.interval, r.timeout, r.elapsed + r.interval)],
         checked := w.checked + multiset{id})
  }

  function Checked(w: World, id: string, met: bool): World {
    if id !in w.runners || !w.runners[id].Checking? then w
    else
      var r := w.runners[id];
      if met then w.(memory := Marked(w.memory, id, Completed), runners := w.runners[id := Saving])
      else AtLoopTest(w, id, r.interval, r.timeout, r.elapsed)
  }

  function OutcomeSaved(w: World, id: string, ok: bool): World {
    if id !in w.runners || !w.runners[id].Saving? then w
    else Saved(w.(runners := w.runners[id := Announcing(ok)]), ok)
  }

  function Notified(w: World, id: string): World {
    if id !in w.runners || !w.runners[id].Announcing? then w
    else w.(notes := w.notes + [Note(id, w.runners[id].saved)], runners := w.runners - {id})
  }

  /** `_restore_tasks`: running tasks get a new runner, ended ones are kept, pending ones dropped. */
  function Restored(file: map<string, Task>): map<string, Task> {
    map id | id in file && !file[id].status.Pending? :: file[id]
  }

  function Relaunched(file: map<string, Task>): map<string, Runner> {
    map id | id in file && file[id].status.Running? :: Launched
  }

  function Restarted(w: World, readable: bool, checkers: set<string>): World {
    var loaded := if readable then w.file else map[];
    w.(memory := Restored(loaded), runners := Relaunched(loaded), checkers := checkers)
  }

  function Step(w: World, e: Event): World {
    match e
    case Create(id, kind, interval, timeout, ok) => Created(w, id, kind, interval, timeout, ok)
    case Delete(id, ok) => Deleted(w, id, ok)
    case StartRunner(id, ok) => Started(w, id, ok)
    case Wake(id) => Woken(w, id)
    case CheckEnds(id, met) => Checked(w, id, met)
    case SaveOutcome(id, ok) => OutcomeSaved(w, id, ok)
    case Notify(id) => Notified(w, id)
    case Restart(readable, checkers) => Restarted(w, readable, checkers)
  }

  function Start(checkers: set<string>): World {
    World(map[], map[], map[], checkers, {}, [], multiset{}, 0)
  }

  function Run(w: World, events: seq<Event>): World {
    if events == [] then w else Step(Run(w, events[..|events| - 1]), events[|events| - 1])
  }

  // ---- What holds in every reachable state ----

  /** The task is absent or has ended. */
  predicate Over(tasks: map<string, Task>, id: string) {
    id in tasks ==> tasks[id].status.Terminal()
  }

  predicate Known(w: World) {
    && w.memory.Keys <= w.used && w.file.Keys <= w.used && w.runners.Keys <= w.used
    && forall k :: 0 <= k < |w.notes| ==> w.notes[k].id in w.used
  }

  /** Once the runner is past its check, its task has ended; after a save that succeeded, in the
      file too. */
  predicate EndedBeforeNotice(w: World) {
    forall id :: id in w.runners ==>
        && (w.runners[id].Saving? || w.runners[id].Announcing? ==> Over(w.memory, id))
        && (w.runners[id].Announcing? && w.runners[id].saved ==> Over(w.file, id))
  }

  predicate SettledNote(w: World, id: string) {
    id !in w.runners && Over(w.memory, id) && Over(w.file, id)
  }

  /** A notification after a successful save is the last of its task. */
  predicate LastNotes(w: World) {
    && (forall k :: 0 <= k < |w.notes| && w.notes[k].saved ==> SettledNote(w, w.notes[k].id))
    && (forall i, j :: 0 <= i < j < |w.notes| && w.notes[i].saved ==> w.notes[i].id != w.notes[j].id)
  }

  predicate Inv(w: World) {
    Known(w) && EndedBeforeNotice(w) && LastNotes(w)
  }

  /** The clamps of creation: a runner always waits, and never for longer than a day. */
  predicate Clamped(w: World) {
    && (forall id :: id in w.memory ==> Bounded(w.memory[id].interval, w.memory[id].timeout))
    && (forall id :: id in w.file ==> Bounded(w.file[id].interval, w.file[id].timeout))
  }

  predicate Bounded(interval: int, timeout: int) {
    LEAST_INTERVAL <= interval && timeout <= LONGEST_TIMEOUT
  }

  lemma {:induction false} StepKeepsKnown(w: World, e: Event)
    requires Known(w)
    ensures Known(Step(w, e))
  {
  }

  lemma {:induction false} StepKeepsClamped(w: World, e: Event)
    requires Clamped(w)
    ensures Clamped(Step(w, e))
  {
  }

  lemma {:induction false} StartedKeepsEnded(w: World, id: string, ok: bool)
    requires EndedBeforeNotice(w)
    ensures EndedBeforeNotice(Started(w, id, ok))
  {
  }

  lemma {:induction false} StepKeepsEnded(w: World, e: Event)
    requires Known(w) && EndedBeforeNotice(w)
    ensures EndedBeforeNotice(Step(w, e))
  {
    if e.StartRunner? {
      StartedKeepsEnded(w, e.id, e.ok);
    }
  }

  /** A task that has no runner and has ended, or is absent, in memory and in the file stays so,
      whatever happens, restarts included. */
  lemma {:induction false} StepKeepsSettled(w: World, e: Event, id: string)
    requires Known(w) && id in w.used && SettledNote(w, id)
    ensures SettledNote(Step(w, e), id)
    ensures CountNotes(Step(w, e).notes, id) == CountNotes(w.notes, id)
    ensures Step(w, e).checked[id] == w.checked[id]
  {
    if e.StartRunner? || e.Wake? || e.CheckEnds? {
      RunnerKeepsSettled(w, e, id);
    } else if e.SaveOutcome? || e.Notify? {
      NoticeKeepsSettled(w, e, id);
    } else {
      ServerKeepsSettled(w, e, id);
    }
  }

  lemma {:induction false} RunnerKeepsSettled(w: World, e: Event, id: string)
    requires Known(w) && id in w.used && SettledNote(w, id)
    requires e.StartRunner? || e.Wake? || e.CheckEnds?
    ensures SettledNote(Step(w, e), id)
    ensures CountNotes(Step(w, e).notes, id) == CountNotes(w.notes, id)
    ensures Step(w, e).checked[id] == w.checked[id]
  {
  }

  lemma {:induction false} NoticeKeepsSettled(w: World, e: Event, id: string)
    requires Known(w) && id in w.used && SettledNote(w, id)
    requires e.SaveOutcome? || e.Notify?
    ensures SettledNote(Step(w, e), id)
    ensures CountNotes(Step(w, e).notes, id) == CountNotes(w.notes, id)
    ensures Step(w, e).checked[id] == w.checked[id]
  {
    if e.Notify? && Step(w, e) != w {
      CountMore(w.notes, Note(e.id, w.runners[e.id].saved), id);
    }
  }

  lemma {:induction false} ServerKeepsSettled(w: World, e: Event, id: string)
    requires Known(w) && id in w.used && SettledNote(w, id)
    requires e.Create? || e.Delete? || e.Restart?
    ensures SettledNote(Step(w, e), id)
    ensures CountNotes(Step(w, e).notes, id) == CountNotes(w.notes, id)
    ensures Step(w, e).checked[id] == w.checked[id]
  {
  }

  lemma {:induction false} StepKeepsNotes(w: World, e: Event)
    requires Inv(w)
    ensures LastNotes(Step(w, e))
  {
    var v := Step(w, e);
    forall k | 0 <= k < |v.notes| && v.notes[k].saved ensures SettledNote(v, v.notes[k].id) {
      if k < |w.notes| {
        assert v.notes[k] == w.notes[k];
        StepKeepsSettled(w, e, w.notes[k].id);
      }
    }
  }

  lemma {:induction false} RunKeepsKnown(w: World, events: seq<Event>)
    requires Known(w) && Clamped(w)
    ensures Known(Run(w, events)) && Clamped(Run(w, events))
  {
    if events != [] {
      RunKeepsKnown(w, events[..|events| - 1]);
      StepKeepsKnown(Run(w, events[..|events| - 1]), events[|events| - 1]);
      StepKeepsClamped(Run(w, events[..|events| - 1]), events[|events| - 1]);
    }
  }

  lemma {:induction false} RunKeepsInv(w: World, events: seq<Event>)
    requires Inv(w)
    ensures Inv(Run(w, events))
  {
    if events != [] {
      RunKeepsInv(w, events[..|events| - 1]);
      StepKeepsInv(Run(w, events[..|events| - 1]), events[|events| - 1]);
    }
  }

  lemma {:induction false} StepKeepsInv(w: World, e: Event)
    requires Inv(w)
    ensures Inv(Step(w, e))
  {
    StepKeepsKnown(w, e);
    StepKeepsEnded(w, e);
    StepKeepsNotes(w, e);
  }

  // ---- Notifications ----

  function CountNotes(notes: seq<Note>, id: string): nat {
    if notes == [] then 0
    else CountNotes(notes[..|notes| - 1], id) + One(notes[|notes| - 1].id == id)
  }

  /** The notifications of a task whose save just before had failed. */
  function CountUnsaved(notes: seq<Note>, id: string): nat {
    if notes == [] then 0
    else
      CountUnsaved(notes[..|notes| - 1], id) + One(notes[|notes| - 1] == Note(id, false))
  }

  lemma {:induction false} CountMore(notes: seq<Note>, note: Note, id: string)
    ensures CountNotes(notes + [note], id) == CountNotes(notes, id) + One(note.id == id)
  {
    assert (notes + [note])[..|notes|] == notes;
  }

  lemma {:induction false} NoneUnlessFound(notes: seq<Note>, id: string)
    requires forall k :: 0 <= k < |notes| && notes[k].id == id ==> !notes[k].saved
    ensures CountNotes(notes, id) == CountUnsaved(notes, id)
  {
    if notes != [] {
      NoneUnlessFound(notes[..|notes| - 1], id);
    }
  }

  /** Over any run, crashes and restarts included, a task is notified at most once more often than
      its saves failed just before a notification; a notification after a successful save is its
      last. */
  lemma {:induction false} NotificationsAreBounded(checkers: set<string>, events: seq<Event>, id: string)
    ensures var notes := Run(Start(checkers), events).notes;
            && CountNotes(notes, id) <= 1 + CountUnsaved(notes, id)
            && forall i, j :: 0 <= i < j < |notes| && notes[i] == Note(id, true) ==> notes[j].id != id
  {
    RunKeepsInv(Start(checkers), events);
    SavedIsLast(Run(Start(checkers), events).notes, id);
  }

  lemma {:induction false} SavedIsLast(notes: seq<Note>, id: string)
    requires forall i, j :: 0 <= i < j < |notes| && notes[i].saved ==> notes[i].id != notes[j].id
    ensures CountNotes(notes, id) <= 1 + CountUnsaved(notes, id)
  {
    if notes != [] {
      var front, last := notes[..|notes| - 1], notes[|notes| - 1];
      if last == Note(id, true) {
        forall k | 0 <= k < |front| && front[k].id == id ensures !front[k].saved {
          assert front[k] == notes[k];
        }
        NoneUnlessFound(front, id);
      } else {
        SavedIsLast(front, id);
      }
    }
  }

  /** Once a notification has gone out after a successful save, the task stays ended or absent in
      the file and in memory, gets no runner, no check and no notification, for ever. */
  lemma {:induction false} SilentAfterSavedNotice(
      checkers: set<string>, before: seq<Event>, after: seq<Event>, id: string)
    requires Note(id, true) in Run(Start(checkers), before).notes
    ensures var w, v := Run(Start(checkers), before), Run(Run(Start(checkers), before), after);
            SettledNote(v, id) && CountNotes(v.notes, id) == CountNotes(w.notes, id) && v.checked[id] == w.checked[id]
  {
    RunKeepsInv(Start(checkers), before);
    SettledStays(Run(Start(checkers), before), after, id);
  }

  lemma {:induction false} SettledStays(w: World, events: seq<Event>, id: string)
    requires Inv(w) && id in w.used && SettledNote(w, id)
    ensures var v := Run(w, events);
            id in v.used && SettledNote(v, id) &&
            CountNotes(v.notes, id) == CountNotes(w.notes, id) && v.checked[id] == w.checked[id]
  {
    if events != [] {
      var u, e := Run(w, events[..|events| - 1]), events[|events| - 1];
      SettledStays(w, events[..|events| - 1], id);
      RunKeepsInv(w, events[..|events| - 1]);
      StepKeepsSettled(u, e, id);
      StepKeepsUsed(u, e);
    }
  }

  lemma {:induction false} StepKeepsUsed(w: World, e: Event)
    ensures w.used <= Step(w, e).used
  {
  }

  /** Once the outcome is saved, the file has the task ended or absent; so if the process dies
      before the notification, the task is neither run nor notified again. */
  lemma {:induction false} CrashAfterSaveIsSilent(
      checkers: set<string>, before: seq<Event>, readable: bool, next: set<string>, after: seq<Event>, id: string)
    requires var w := Run(Start(checkers), before); id in w.runners && w.runners[id] == Announcing(true)
    ensures var w := Run(Start(checkers), before);
            var v := Run(Restarted(w, readable, next), after);
            && Over(w.file, id) && id !in v.runners
            && CountNotes(v.notes, id) == CountNotes(w.notes, id) && v.checked[id] == w.checked[id]
  {
    var w := Run(Start(checkers), before);
    RunKeepsInv(Start(checkers), before);
    StepKeepsInv(w, Restart(readable, next));
    SettledStays(Restarted(w, readable, next), after, id);
  }

  // ---- Deletion ----

  predicate NoRestart(events: seq<Event>) {
    forall i :: 0 <= i < |events| ==> !events[i].Restart?
  }

  /** A task that is not in memory: no check of it begins and it does not come back while the
      process lives; the file keeps it only as long as no save succeeds. */
  lemma {:induction false} AbsentStaysAbsent(w: World, events: seq<Event>, id: string)
    requires id in w.used && id !in w.memory && NoRestart(events)
    ensures var v := Run(w, events);
            && id in v.used && id !in v.memory && v.checked[id] == w.checked[id] && v.saves >= w.saves
            && (v.saves == w.saves ==> v.file == w.file)
            && (v.saves > w.saves ==> id !in v.file)
  {
    if events != [] {
      AbsentStaysAbsent(w, events[..|events| - 1], id);
      StepKeepsAbsent(Run(w, events[..|events| - 1]), events[|events| - 1], id);
    }
  }

  lemma {:induction false} StepKeepsAbsent(w: World, e: Event, id: string)
    requires id in w.used && id !in w.memory && !e.Restart?
    ensures var v := Step(w, e);
            && id in v.used && id !in v.memory && v.checked[id] == w.checked[id] && v.saves >= w.saves
            && (v.saves == w.saves ==> v.file == w.file)
            && (v.saves > w.saves ==> id !in v.file)
  {
    if e.StartRunner? || e.Wake? || e.CheckEnds? {
      RunnerKeepsAbsent(w, e, id);
    } else if e.SaveOutcome? || e.Notify? {
      NoticeKeepsAbsent(w, e, id);
    } else {
      ServerKeepsAbsent(w, e, id);
    }
  }

  lemma {:induction false} RunnerKeepsAbsent(w: World, e: Event, id: string)
    requires id in w.used && id !in w.memory && !e.Restart?
    requires e.StartRunner? || e.Wake? || e.CheckEnds?
    ensures var v := Step(w, e);
            && id in v.used && id !in v.memory && v.checked[id] == w.checked[id] && v.saves >= w.saves
            && (v.saves == w.saves ==> v.file == w.file)
            && (v.saves > w.saves ==> id !in v.file)
  {
  }

  lemma {:induction false} NoticeKeepsAbsent(w: World, e: Event, id: string)
    requires id in w.used && id !in w.memory && !e.Restart?
    requires e.SaveOutcome? || e.Notify?
    ensures var v := Step(w, e);
            && id in v.used && id !in v.memory && v.checked[id] == w.checked[id] && v.saves >= w.saves
            && (v.saves == w.saves ==> v.file == w.file)
            && (v.saves > w.saves ==> id !in v.file)
  {
  }

  lemma {:induction false} ServerKeepsAbsent(w: World, e: Event, id: string)
    requires id in w.used && id !in w.memory && !e.Restart?
    requires e.Create? || e.Delete? || e.Restart?
    ensures var v := Step(w, e);
            && id in v.used && id !in v.memory && v.checked[id] == w.checked[id] && v.saves >= w.saves
            && (v.saves == w.saves ==> v.file == w.file)
            && (v.saves > w.saves ==> id !in v.file)
  {
  }

  /** A deleted task comes back at the next restart exactly when the file can be read, held the
      task other than as pending, and no save succeeded since, its own deletion included. */
  lemma {:induction false} DeletedReturnsIff(
      w: World, id: string, ok: bool, events: seq<Event>, readable: bool, checkers: set<string>)
    requires Known(w) && id in w.memory && NoRestart(events)
    ensures var v := Run(Deleted(w, id, ok), events);
            id in Restarted(v, readable, checkers).memory <==>
              readable && v.saves == w.saves && id in w.file && !w.file[id].status.Pending?
  {
    AbsentStaysAbsent(Deleted(w, id, ok), events, id);
  }

  /** A concrete run in which a deleted task comes back and is run again: the delete could not
      be saved. */
  lemma {:induction false} DeletedMayReturn()
    ensures var checkers := {"monitor"};
            var w := Run(Start(checkers), [Create("t", "monitor", 30, 60, true), StartRunner("t", true),
                                           Delete("t", false), Restart(true, checkers)]);
            "t" in w.memory && "t" in w.runners
  {
    var checkers := {"monitor"};
    var events := [Create("t", "monitor", 30, 60, true), StartRunner("t", true),
                   Delete("t", false), Restart(true, checkers)];
    var first := Created(Start(checkers), "t", "monitor", 30, 60, true);
    var second := Started(first, "t", true);
    var third := Deleted(second, "t", false);
    RunOne(Start(checkers), events[..1]);
    RunOne(Start(checkers), events[..2]);
    RunOne(Start(checkers), events[..3]);
    RunOne(Start(checkers), events);
  }

  lemma {:induction false} RunOne(w: World, events: seq<Event>)
    requires events != []
    ensures Run(w, events) == Step(Run(w, events[..|events| - 1]), events[|events| - 1])
  {
  }

  /** A delete that was saved is for good: over any later run, restarts included, the task is
      in neither memory nor the file, and no check of it begins. */
  lemma {:induction false} SavedDeleteIsForGood(w: World, id: string, events: seq<Event>)
    requires Known(w) && id in w.memory
    ensures var v := Run(Deleted(w, id, true), events);
            id !in v.memory && id !in v.file && v.checked[id] == w.checked[id]
  {
    GoneStaysGone(Deleted(w, id, true), events, id);
  }

  lemma {:induction false} GoneStaysGone(w: World, events: seq<Event>, id: string)
    requires id in w.used && id !in w.memory && id !in w.file
    ensures var v := Run(w, events);
            id in v.used && id !in v.memory && id !in v.file && v.checked[id] == w.checked[id]
  {
    if events != [] {
      GoneStaysGone(w, events[..|events| - 1], id);
      StepKeepsGone(Run(w, events[..|events| - 1]), events[|events| - 1], id);
    }
  }

  lemma {:induction false} StepKeepsGone(w: World, e: Event, id: string)
    requires id in w.used && id !in w.memory && id !in w.file
    ensures var v := Step(w, e);
            id in v.used && id !in v.memory && id !in v.file && v.checked[id] == w.checked[id]
  {
    if e.StartRunner? || e.Wake? || e.CheckEnds? {
      RunnerKeepsGone(w, e, id);
    } else if e.SaveOutcome? || e.Notify? {
      NoticeKeepsGone(w, e, id);
    } else {
      ServerKeepsGone(w, e, id);
    }
  }

  lemma {:induction false} RunnerKeepsGone(w: World, e: Event, id: string)
    requires id in w.used && id !in w.memory && id !in w.file
    requires e.StartRunner? || e.Wake? || e.CheckEnds?
    ensures var v := Step(w, e);
            id in v.used && id !in v.memory && id !in v.file && v.checked[id] == w.checked[id]
  {
  }

  lemma {:induction false} NoticeKeepsGone(w: World, e: Event, id: string)
    requires id in w.used && id !in w.memory && id !in w.file
    requires e.SaveOutcome? || e.Notify?
    ensures var v := Step(w, e);
            id in v.used && id !in v.memory && id !in v.file && v.checked[id] == w.checked[id]
  {
  }

  lemma {:induction false} ServerKeepsGone(w: World, e: Event, id: string)
    requires id in w.used && id !in w.memory && id !in w.file
    requires e.Create? || e.Delete? || e.Restart?
    ensures var v := Step(w, e);
            id in v.used && id !in v.memory && id !in v.file && v.checked[id] == w.checked[id]
  {
  }

  // ---- The runner among other tasks ----

  predicate LeavesAlone(events: seq<Event>, id: string) {
    forall i :: 0 <= i < |events| ==> !events[i].Drives(id) && !events[i].Restart?
  }

  /** What others do leaves the runner of a task where it is, checks nothing and notifies nobody
      in its name. */
  ghost predicate Undisturbed(w: World, v: World, id: string) {
    && id in w.runners && id in v.runners && v.runners[id] == w.runners[id]
    && CountNotes(v.notes, id) == CountNotes(w.notes, id) && v.checked[id] == w.checked[id]
  }

  lemma {:induction false} OthersLeaveRunner(w: World, events: seq<Event>, id: string)
    requires Known(w) && Clamped(w) && id in w.runners && LeavesAlone(events, id)
    ensures Undisturbed(w, Run(w, events), id)
  {
    if events != [] {
      OthersLeaveRunner(w, events[..|events| - 1], id);
      RunKeepsKnown(w, events[..|events| - 1]);
      StepLeavesRunner(Run(w, events[..|events| - 1]), events[|events| - 1], id);
    }
  }

  lemma {:induction false} StepLeavesRunner(w: World, e: Event, id: string)
    requires Known(w) && id in w.runners && !e.Drives(id) && !e.Restart?
    ensures Undisturbed(w, Step(w, e), id)
  {
    if e.Notify? && Step(w, e) != w {
      CountMore(w.notes, Note(e.id, w.runners[e.id].saved), id);
    }
  }

  /** How a runner ends. */
  datatype Ending = Absent | UnknownKind | Removed | ConditionMet | Expired

  /** How often `interval` has to be added up to reach `timeout`. */
  function MostChecks(interval: int, timeout: int): nat
    requires interval > 0
    decreases timeout
  {
    if timeout <= 0 then 0 else 1 + MostChecks(interval, timeout - interval)
  }

  lemma {:induction false} MostChecksReachTimeout(interval: int, timeout: int)
    requires interval > 0
    ensures timeout <= MostChecks(interval, timeout) * interval
    ensures timeout > 0 ==> MostChecks(interval, timeout) * interval < timeout + interval
    decreases timeout
  {
    if timeout > 0 {
      var fewer := MostChecks(interval, timeout - interval);
      MostChecksReachTimeout(interval, timeout - interval);
      assert (1 + fewer) * interval == interval + fewer * interval;
    }
  }

  /** No task created by the server is checked more than 17280 times by one runner. */
  lemma {:induction false} MostChecksAreBounded(interval: int, timeout: int)
    requires Bounded(interval, timeout)
    ensures MostChecks(interval, timeout) <= 17280
  {
    AtMost(interval, timeout, 17280);
  }

  lemma {:induction false} AtMost(interval: int, timeout: int, most: nat)
    requires LEAST_INTERVAL <= interval && timeout <= most * LEAST_INTERVAL
    ensures MostChecks(interval, timeout) <= most
    decreases timeout
  {
    if timeout > 0 {
      AtMost(interval, timeout - interval, most - 1);
    }
  }

  ghost predicate Good(w: World) {
    Known(w) && Clamped(w)
  }

  lemma {:induction false} StepKeepsGood(w: World, e: Event)
    requires Good(w)
    ensures Good(Step(w, e))
  {
    StepKeepsKnown(w, e);
    StepKeepsClamped(w, e);
  }

  lemma {:induction false} RunKeepsGood(w: World, events: seq<Event>)
    requires Good(w)
    ensures Good(Run(w, events))
  {
    RunKeepsKnown(w, events);
  }

  /** Where the runner stands after its loop test. */
  function AtTest(interval: int, timeout: int, elapsed: int): Runner {
    if elapsed < timeout then Sleeping(interval, timeout, elapsed) else Saving
  }

  /** From `w` to `v`, so many checks of the task began and so many notifications went out. */
  ghost predicate Tally(w: World, v: World, id: string, checks: nat, notes: nat) {
    v.checked[id] == w.checked[id] + checks && CountNotes(v.notes, id) == CountNotes(w.notes, id) + notes
  }

  /** If the task is still in memory, this is what it says. */
  predicate Shows(memory: map<string, Task>, id: string, status: Status) {
    id in memory ==> memory[id].status == status
  }

  ghost predicate Sound(w: World, v: World, id: string, checks: nat, notes: nat) {
    Good(v) && Tally(w, v, id, checks, notes)
  }

  lemma {:induction false} WakeWorks(w: World, id: string, r: Runner)
    requires id in w.runners && w.runners[id] == r && r.Sleeping?
    ensures var v := Woken(w, id);
            if id in w.memory
            then id in v.runners && v.runners[id] == Checking(r.interval, r.timeout, r.elapsed + r.interval)
                 && Tally(w, v, id, 1, 0)
            else id !in v.runners && id !in v.memory && Tally(w, v, id, 0, 0)
  {
  }

  lemma {:induction false} CheckWorks(w: World, id: string, r: Runner, met: bool)
    requires id in w.runners && w.runners[id] == r && r.Checking?
    ensures var v := Checked(w, id, met);
            && id in v.runners && v.runners[id] == (if met then Saving else AtTest(r.interval, r.timeout, r.elapsed))
            && Tally(w, v, id, 0, 0)
            && (v.runners[id].Saving? ==> Shows(v.memory, id, if met then Completed else TimedOut))
  {
  }

  lemma {:induction false} OthersWork(w: World, events: seq<Event>, id: string, r: Runner)
    requires Good(w) && id in w.runners && w.runners[id] == r && LeavesAlone(events, id)
    ensures var v := Run(w, events);
            Good(v) && id in v.runners && v.runners[id] == r && Tally(w, v, id, 0, 0)
  {
    OthersLeaveRunner(w, events, id);
    RunKeepsGood(w, events);
  }

  /** What the runner meets in one turn: what others do while it sleeps and while it checks, and
      whether the check finds the condition met. */
  datatype Meeting = Meeting(sleep: seq<Event>, check: seq<Event>, met: bool)

  function Turned(w: World, id: string, meeting: Meeting, present: bool): World {
    var woken := Woken(Run(w, meeting.sleep), id);
    if present then Checked(Run(woken, meeting.check), id, meeting.met) else woken
  }

  /** One turn of the loop, others acting in its two awaits. */
  lemma {:induction false} TurnWorks(w: World, id: string, r: Runner, meeting: Meeting)
    requires Good(w) && id in w.runners && w.runners[id] == r && r.Sleeping?
    requires LeavesAlone(meeting.sleep, id) && LeavesAlone(meeting.check, id)
    ensures var present := id in Run(w, meeting.sleep).memory;
            var v := Turned(w, id, meeting, present);
            && Sound(w, v, id, One(present), 0)
            && if present
               then
                 && id in v.runners
                 && v.runners[id] == (if meeting.met then Saving
                                      else AtTest(r.interval, r.timeout, r.elapsed + r.interval))
                 && (v.runners[id].Saving? ==> Shows(v.memory, id, if meeting.met then Completed else TimedOut))
               else id !in v.runners && id !in v.memory
  {
    var asleep := Run(w, meeting.sleep);
    OthersWork(w, meeting.sleep, id, r);
    WakesWell(w, asleep, id, r);
    if id in asleep.memory {
      CheckEndsWell(w, Woken(asleep, id), id, Checking(r.interval, r.timeout, r.elapsed + r.interval), meeting);
    }
  }

  lemma {:induction false} WakesWell(w: World, asleep: World, id: string, r: Runner)
    requires Sound(w, asleep, id, 0, 0) && id in asleep.runners && asleep.runners[id] == r && r.Sleeping?
    ensures var v := Woken(asleep, id);
            && Sound(w, v, id, One(id in asleep.memory), 0)
            && if id in asleep.memory
               then id in v.runners && v.runners[id] == Checking(r.interval, r.timeout, r.elapsed + r.interval)
               else id !in v.runners && id !in v.memory
  {
    WakeWorks(asleep, id, r);
    StepKeepsGood(asleep, Wake(id));
  }

  lemma {:induction false} CheckEndsWell(w: World, woken: World, id: string, r: Runner, meeting: Meeting)
    requires Sound(w, woken, id, 1, 0) && id in woken.runners && woken.runners[id] == r && r.Checking?
    requires LeavesAlone(meeting.check, id)
    ensures var v := Checked(Run(woken, meeting.check), id, meeting.met);
            && Sound(w, v, id, 1, 0) && id in v.runners
            && v.runners[id] == (if meeting.met then Saving else AtTest(r.interval, r.timeout, r.elapsed))
            && (v.runners[id].Saving? ==> Shows(v.memory, id, if meeting.met then Completed else TimedOut))
  {
    var checked := Run(woken, meeting.check);
    OthersWork(woken, meeting.check, id, r);
    CheckWorks(checked, id, r, meeting.met);
    StepKeepsGood(checked, CheckEnds(id, meeting.met));
  }

  lemma {:induction false} AnnounceWorks(w: World, id: string, ok: bool)
    requires Good(w) && id in w.runners && w.runners[id].Saving?
    ensures var v := Notified(OutcomeSaved(w, id, ok), id);
            && Sound(w, v, id, 0, 1) && id !in v.runners
            && v.memory == w.memory && v.file == if ok then w.memory else w.file
  {
    StepKeepsGood(w, SaveOutcome(id, ok));
    StepKeepsGood(OutcomeSaved(w, id, ok), Notify(id));
    CountMore(w.notes, Note(id, ok), id);
  }

  lemma {:induction false} StartWorks(w: World, id: string, ok: bool)
    requires Good(w) && id in w.runners && w.runners[id].Launched?
    ensures var v := Started(w, id, ok);
            && Sound(w, v, id, 0, 0)
            && if id in w.memory && w.memory[id].kind in w.checkers
               then
                 && id in v.runners && v.runners[id] == AtTest(w.memory[id].interval, w.memory[id].timeout, 0)
                 && (v.runners[id].Saving? ==> Shows(v.memory, id, TimedOut))
               else id !in v.runners && Shows(v.memory, id, Failed)
  {
    StepKeepsGood(w, StartRunner(id, ok));
  }

  /** The turns in order; should the runner take more, nothing happens in them. */
  type Course = seq<Meeting>

  function At(course: Course, k: nat): Meeting {
    if k < |course| then course[k] else Meeting([], [], false)
  }

  predicate Fair(course: Course, id: string) {
    forall k :: 0 <= k < |course| ==> LeavesAlone(course[k].sleep, id) && LeavesAlone(course[k].check, id)
  }

  /** Only the last check is met, and only if that is why the runner ended. */
  predicate MetOnlyLast(ending: Ending, count: nat, course: Course) {
    && (forall k :: 0 <= k < count && (k < count - 1 || !ending.ConditionMet?) ==> !At(course, k).met)
    && (ending.ConditionMet? ==> count > 0 && At(course, count - 1).met)
  }

  /** The checks made, and why they stopped, agree with the task and with what the checks met. */
  ghost predicate InTime(ending: Ending, count: nat, interval: int, timeout: int, course: Course)
    requires interval > 0
  {
    && MetOnlyLast(ending, count, course)
    && count <= MostChecks(interval, timeout) <= 17280
    && (ending.Expired? ==> timeout <= count * interval)
    && (ending.Expired? && timeout > 0 ==> count * interval < timeout + interval)
  }

  lemma {:induction false} IsInTime(ending: Ending, count: nat, interval: int, timeout: int, course: Course)
    requires Bounded(interval, timeout) && MetOnlyLast(ending, count, course)
    requires count <= MostChecks(interval, timeout)
    requires ending.Expired? ==> count == MostChecks(interval, timeout)
    ensures InTime(ending, count, interval, timeout, course)
  {
    MostChecksReachTimeout(interval, timeout);
    MostChecksAreBounded(interval, timeout);
  }

  /** When the loop ends the task is gone and so is its runner, or the task says how it ended and
      the runner is about to save that. */
  ghost predicate Stopped(w: World, id: string, ending: Ending) {
    && (ending.Removed? || ending.ConditionMet? || ending.Expired?)
    && if ending.Removed? then id !in w.runners && id !in w.memory
       else id in w.runners && w.runners[id] == Saving
            && Shows(w.memory, id, if ending.ConditionMet? then Completed else TimedOut)
  }

  class TaskServer {
    var memory: map<string, Task>
    var file: map<string, Task>
    var runners: map<string, Runner>
    var checkers: set<string>
    /** The task ids given out so far; the source relies on random ids never repeating. */
    var used: set<string>
    ghost var notes: seq<Note>
    ghost var checked: multiset<string>
    ghost var saves: nat

    ghost function View(): World
      reads this
    {
      World(memory, file, runners, checkers, used, notes, checked, saves)
    }

    constructor (checkers: set<string>)
      ensures View() == Start(checkers)
    {
      memory, file, runners, used := map[], map[], map[], {};
      this.checkers := checkers;
      notes, checked, saves := [], multiset{}, 0;
    }

    /** `_save_tasks`: written to a temporary file that replaces the old one, so it is all or
        nothing. */
    method SaveTasks(ok: bool)
      modifies this
      ensures View() == Saved(old(View()), ok)
      ensures memory == old(memory) && file == if ok then memory else old(file)
    {
      if ok {
        file := memory;
        saves := saves + 1;
      }
    }

    method CreateMonitorTask(id: string, kind: string, interval: int, timeout: int, ok: bool)
      modifies this
      ensures View() == Created(old(View()), id, kind, interval, timeout, ok)
      ensures kind !in checkers ==> View() == old(View())
      ensures kind in checkers && id !in old(used) ==>
                && memory == old(memory)[id := Task(kind, if interval < 5 then 5 else interval,
                                                    if timeout > 86400 then 86400 else timeout, Pending)]
                && id in runners && runners[id].Launched? && file == if ok then memory else old(file)
    {
      if kind !in checkers || id in used {
        return;
      }
      memory := memory[id := Task(kind, Max(interval, LEAST_INTERVAL), Min(timeout, LONGEST_TIMEOUT), Pending)];
      runners := runners[id := Launched];
      used := used + {id};
      SaveTasks(ok);
    }

    method DeleteTask(id: string, ok: bool)
      modifies this
      ensures View() == Deleted(old(View()), id, ok)
      ensures memory == old(memory) - {id}
      ensures file == if ok && id in old(memory) then memory else old(file)
    {
      if id in memory {
        memory := memory - {id};
        SaveTasks(ok);
      }
    }

    method LoopTest(id: string, interval: int, timeout: int, elapsed: int)
      modifies this
      ensures View() == AtLoopTest(old(View()), id, interval, timeout, elapsed)
    {
      if elapsed < timeout {
        runners := runners[id := Sleeping(interval, timeout, elapsed)];
      } else {
        memory := Marked(memory, id, TimedOut);
        runners := runners[id := Saving];
      }
    }

    method BeginRunner(id: string, ok: bool)
      modifies this
      ensures View() == Started(old(View()), id, ok)
      ensures id in old(runners) && old(runners)[id].Launched? && id in old(memory) ==>
                var was := old(memory)[id];
                && id in memory && memory[id] == was.(status := memory[id].status)
                && memory[id].status == (if was.kind !in checkers then Failed
                                         else if was.timeout > 0 then Running else TimedOut)
                && (ok ==> file == memory[id := was.(status := if was.kind in checkers then Running else Failed)])
    {
      if id !in runners || !runners[id].Launched? {
        return;
      }
      if id !in memory {
        runners := runners - {id};
        return;
      }
      var task := memory[id];
      if task.kind !in checkers {
        memory := Marked(memory, id, Failed);
        runners := runners - {id};
        SaveTasks(ok);
        return;
      }
      memory := Marked(memory, id, Running);
      SaveTasks(ok);
      LoopTest(id, task.interval, task.timeout, 0);
    }

    method WakeUp(id: string)
      modifies this
      ensures View() == Woken(old(View()), id)
    {
      if id in runners && runners[id].Sleeping? {
        if id !in memory {
          runners := runners - {id};
        } else {
          var r := runners[id];
          runners := runners[id := Checking(r.interval, r.timeout, r.elapsed + r.interval)];
          checked := checked + multiset{id};
        }
      }
    }

    method EndCheck(id: string, met: bool)
      modifies this
      ensures View() == Checked(old(View()), id, met)
    {
      if id in runners && runners[id].Checking? {
        var r := runners[id];
        if met {
          memory := Marked(memory, id, Completed);
          runners := runners[id := Saving];
        } else {
          LoopTest(id, r.interval, r.timeout, r.elapsed);
        }
      }
    }

    method SaveEnding(id: string, ok: bool)
      modifies this
      ensures View() == OutcomeSaved(old(View()), id, ok)
    {
      if id in runners && runners[id].Saving? {
        runners := runners[id := Announcing(ok)];
        SaveTasks(ok);
      }
    }

    method PostNotification(id: string)
      modifies this
      ensures View() == Notified(old(View()), id)
    {
      if id in runners && runners[id].Announcing? {
        notes := notes + [Note(id, runners[id].saved)];
        runners := runners - {id};
      }
    }

    /** The process dies and starts again: the file is all it has. */
    method RestoreTasks(readable: bool, checkers: set<string>)
      modifies this
      ensures View() == Restarted(old(View()), readable, checkers)
      ensures forall id ::
                && (id in memory <==> readable && id in file && !file[id].status.Pending?)
                && (id in memory ==> memory[id] == file[id])
                && (id in runners <==> id in memory && memory[id].status.Running?)
    {
      var loaded := if readable then file else map[];
      memory, runners := Restored(loaded), Relaunched(loaded);
      this.checkers := checkers;
    }

    method Take(e: Event)
      modifies this
      ensures View() == Step(old(View()), e)
    {
      match e {
        case Create(id, kind, interval, timeout, ok) => CreateMonitorTask(id, kind, interval, timeout, ok);
        case Delete(id, ok) => DeleteTask(id, ok);
        case StartRunner(id, ok) => BeginRunner(id, ok);
        case Wake(id) => WakeUp(id);
        case CheckEnds(id, met) => EndCheck(id, met);
        case SaveOutcome(id, ok) => SaveEnding(id, ok);
        case Notify(id) => PostNotification(id);
        case Restart(readable, known) => RestoreTasks(readable, known);
      }
    }

    /** An await: whatever other tasks do meanwhile. */
    method Await(events: seq<Event>)
      modifies this
      ensures View() == Run(old(View()), events)
    {
      ghost var before := View();
      for k := 0 to |events|
        invariant View() == Run(before, events[..k])
      {
        Take(events[k]);
        assert events[..k + 1][..k] == events[..k];
      }
      assert events[..|events|] == events;
    }

    method TakeTurn(id: string, meeting: Meeting) returns (present: bool)
      modifies this
      ensures present == (id in Run(old(View()), meeting.sleep).memory)
      ensures View() == Turned(old(View()), id, meeting, present)
    {
      Await(meeting.sleep);
      present := id in memory;
      WakeUp(id);
      if present {
        Await(meeting.check);
        EndCheck(id, meeting.met);
      }
    }

    /** One turn of the loop: sleep, and if the task is still there, check it. */
    method CheckOnce(id: string, meeting: Meeting, ghost r: Runner) returns (present: bool)
      requires Good(View()) && id in runners && runners[id] == r && r.Sleeping?
      requires LeavesAlone(meeting.sleep, id) && LeavesAlone(meeting.check, id)
      modifies this
      ensures Sound(old(View()), View(), id, One(present), 0)
      ensures !present ==> id !in runners && id !in memory
      ensures present ==>
                && id in runners
                && runners[id] == (if meeting.met then Saving
                                   else AtTest(r.interval, r.timeout, r.elapsed + r.interval))
                && (runners[id].Saving? ==> Shows(memory, id, if meeting.met then Completed else TimedOut))
    {
      TurnWorks(View(), id, r, meeting);
      present := TakeTurn(id, meeting);
    }

    /** The loop of `_run_background_task`. */
    method Poll(id: string, interval: int, timeout: int, course: Course) returns (ending: Ending, count: nat)
      requires interval > 0 && Good(View()) && Fair(course, id)
      requires id in runners && runners[id] == AtTest(interval, timeout, 0)
      requires runners[id].Saving? ==> Shows(memory, id, TimedOut)
      modifies this
      ensures Sound(old(View()), View(), id, count, 0) && Stopped(View(), id, ending)
      ensures MetOnlyLast(ending, count, course)
      ensures count <= MostChecks(interval, timeout)
      ensures ending.Expired? ==> count == MostChecks(interval, timeout)
    {
      count := 0;
      var elapsed := 0;
      while elapsed < timeout
        invariant Sound(old(View()), View(), id, count, 0)
        invariant id in runners && runners[id] == AtTest(interval, timeout, elapsed)
        invariant runners[id].Saving? ==> Shows(memory, id, TimedOut)
        invariant forall k :: 0 <= k < count ==> !At(course, k).met
        invariant count + MostChecks(interval, timeout - elapsed) == MostChecks(interval, timeout)
        decreases timeout - elapsed
      {
        var meeting := At(course, count);
        var present := CheckOnce(id, meeting, runners[id]);
        if !present {
          return Removed, count;
        }
        elapsed := elapsed + interval;
        count := count + 1;
        if meeting.met {
          return ConditionMet, count;
        }
      }
      ending := Expired;
    }

    /** `_run_background_task`, others taking their turns while it sleeps and checks. It always
        ends. It begins at most as many checks as intervals fit into the timeout, never more than
        17280; it stops at the first that is met; it expires no earlier than the timeout and less
        than one interval after it; it notifies once, after saving, if its condition was met or its
        time was up, and otherwise not at all; and a task still in memory says how it ended. */
    method RunBackgroundTask(id: string, startSaves: bool, endSaves: bool, course: Course)
      returns (ending: Ending, count: nat)
      requires Good(View()) && Fair(course, id) && id in runners && runners[id].Launched?
      modifies this
      ensures id !in runners
      ensures Sound(old(View()), View(), id, count, One(ending.ConditionMet? || ending.Expired?))
      ensures ending.Absent? <==> id !in old(memory)
      ensures ending.UnknownKind? <==> id in old(memory) && old(memory)[id].kind !in old(checkers)
      ensures ending.Absent? || ending.UnknownKind? ==> count == 0
      ensures id in old(memory) ==>
                InTime(ending, count, old(memory)[id].interval, old(memory)[id].timeout, course)
      ensures ending.ConditionMet? || ending.Expired? ==> notes != [] && notes[|notes| - 1] == Note(id, endSaves)
      ensures id in memory ==>
                && (memory[id].status.Completed? <==> ending.ConditionMet?)
                && (memory[id].status.TimedOut? <==> ending.Expired?)
                && (memory[id].status.Failed? <==> ending.UnknownKind?)
      ensures (ending.ConditionMet? || ending.Expired?) && endSaves ==> file == memory
    {
      StartWorks(View(), id, startSaves);
      if id !in memory {
        BeginRunner(id, startSaves);
        return Absent, 0;
      }
      var task, known := memory[id], memory[id].kind in checkers;
      BeginRunner(id, startSaves);
      if !known {
        IsInTime(UnknownKind, 0, task.interval, task.timeout, course);
        return UnknownKind, 0;
      }
      ending, count := Poll(id, task.interval, task.timeout, course);
      IsInTime(ending, count, task.interval, task.timeout, course);
      if !ending.Removed? {
        Announce(id, endSaves);
      }
    }

    /** Save the outcome, then notify. */
    method Announce(id: string, ok: bool)
      requires Good(View()) && id in runners && runners[id].Saving?
      modifies this
      ensures Sound(old(View()), View(), id, 0, 1) && id !in runners
      ensures memory == old(memory) && file == if ok then memory else old(file)
      ensures notes != [] && notes[|notes| - 1] == Note(id, ok)
    {
      AnnounceWorks(View(), id, ok);
      SaveEnding(id, ok);
      PostNotification(id);
    }
  }
}
