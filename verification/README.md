# Verified model of KubeCopilot's controllers, agent server and chunk readers

This project models the parts of KubeCopilot that carry real protocol, matching and stream logic,
and proves what they promise. Check it with `dafny verify dfyconfig.toml` (Dafny 4.11).

| file | what it models |
|---|---|
| `Glob.dfy`, `PolicyEvaluator.dfy` | words, wildcards, the sliding word window and the one-pass policy evaluator |
| `SendController.dfy` | dispatch of one send: screening, POST, status write, with stale reads and lost writes |
| `SessionController.dfy` | tenant namespaces, their finalizer, deletion and convergence |
| `AgentRbac.dfy` | roles and bindings of an agent and the clean-up of the cluster-wide ones |
| `ChunkStream.dfy` | one streamed interaction: numbering of chunks and the sentence buffer |
| `ChunkDelivery.dfy`, `ChunkReaders.dfy` | chunk names, create-once storage, the web stream and the command line |
| `ChatQueue.dfy` | bounded concurrency, cancellation and the shared history files |
| `BackgroundTasks.dfy` | monitoring tasks, their file, their runners and their notifications |
| `Wrappers.dfy` | small definitions that the others share |

**How a protocol is modelled.** Each controller or server has a `World`, an `Event` for every API
call or code segment and for everything its surroundings may do, a `Step` and a `Run`. Main results
hold for every run. Beside it stands a class with the fields the source updates; its methods are the
source's functions, and each is proved to change the state exactly as the protocol's steps do. A
controller's `Reconcile` is given a `Fate` (what its calls are answered and what happens between
them) and is proved to take only protocol steps under every fate.

**Assumptions.** Reads of the session and agent controllers are fresh; those of the send controller
may be stale. There is one worker per object. Writes of an object carry the version they were made
from. Nobody but a controller removes its own finalizer; users may remove any other. Derived names
are distinct for distinct owners: `kc-session-<name>` ignores the namespace of its owner, and
`<namespace>-<name>-clusterrole` is ambiguous when hyphens occur. Random ids never repeat. asyncio
switches tasks only at an `await`, so the code between two awaits is one event; no section under the
tasks lock contains an await, so that lock never blocks. Stored chunks are not deleted while a
stream is followed. No SDK event follows a disconnect or `session.deleted`, and none arrives while
the disconnect after the wait is being awaited, so what comes after the wait is one step.

**Where code and comment disagree**, the code is modelled. The comment on `matchesPatterns` speaks of
a substring, but the code tests windows of whole words. `cleanupClusterRBAC` says that cluster-wide
objects must be removed, but a read that fails skips the delete and the finalizer still goes; the
exact condition and a counterexample are proved. The `finally` at
`agent-server-container/github-copilot/server.py:396` has no `try`; it is taken to open after the
session is registered at lines 252-253. The command line's comment names Done and Error as the
terminal phases; Denied is one too, and there it waits for its timeout.

## Model

| member | source | states |
|---|---|---|
| `Glob.MatchSpendsBlanks` | internal/controller/policy_evaluator.go:128-141 | A literal space of the pattern can only be spent on a space of the text, so a pattern has no more spaces than any text it matches. This is the counting argument behind the window test. |
| `Glob.MatchSplitsAtBlank` | internal/controller/policy_evaluator.go:134-137 | If word, space, rest matches word, space, rest and the tails have equally many spaces, then the heads match and the tails match: no wildcard can carry a match across the space. |
| `Glob.JoinedMatchIsWordMatch` | internal/controller/policy_evaluator.go:134-137 | Two equally long word lists, joined by single spaces, match as texts exactly when each word can be cut into parts that its pattern word stands for. |
| `Glob.FewBlanksMeansJoined` | internal/controller/policy_evaluator.go:129-135 | A text whose only white space is plain spaces, fewer of them than words, is its words joined by single spaces. |
| `Glob.WindowMatchIsWordMatch` | internal/controller/policy_evaluator.go:128-141 | For a window of as many words as the pattern has: the glob matches the joined window exactly when the pattern is its own words single-spaced and the words match one by one. |
| `Glob.FieldsAcrossSpace` | internal/controller/policy_evaluator.go:129-130 | Cutting a text at white space gives the words of the part before followed by the words of the part after. |
| `Glob.FieldsAcrossGap` | internal/controller/policy_evaluator.go:129-130 | However much white space parts two texts, the words are those of the first followed by those of the second. |
| `Glob.MatchIsSpelling` | internal/controller/policy_evaluator.go:111-137 | What a match is, without the matcher: the text can be cut into one part for each character of the pattern, in order, where `*` stands for any text without `/`, `?` for one character that is not `/`, and any other character for itself. Both directions, for every pattern and text. |
| `Glob.FieldsAreTheWords` | internal/controller/policy_evaluator.go:129-130 | The fields of a text are the one list of words without white space from which it can be laid out with gaps of white space, none of the inner gaps empty; a word is its own only field. |
| `PolicyEvaluator.ContainsPattern` | internal/controller/policy_evaluator.go:128-141 | The index loop finds a match exactly when the pattern is its words joined by single spaces and some run of consecutive message words can be cut, one by one, into parts that the pattern words stand for. |
| `PolicyEvaluator.RespacingKeepsAnswer` | internal/controller/policy_evaluator.go:128-141 | Any white-space gap of the message may be replaced by any other, and at its ends also by none: the window test answers the same. |
| `PolicyEvaluator.SurroundingTextKeepsMatch` | internal/controller/policy_evaluator.go:128-141 | Text added before or after, set off by white space, never loses a match. |
| `PolicyEvaluator.MatchesPatterns` | internal/controller/policy_evaluator.go:111-125 | True exactly when for some pattern, in lower case, the whole message in lower case, or a run of its words, can be cut into parts that the characters of the pattern stand for, no wildcard standing for `/`. |
| `PolicyEvaluator.EvaluatePolicies` | internal/controller/policy_evaluator.go:53-107 | The one pass with early return: deny exactly when a deny rule of an active policy for this agent or for all agents matches the message, require-approval exactly when none does but an approval rule does. Its report carries the name and message of the first matching rule of the winning type in reading order and the name of its policy; it fails exactly when the list call fails. |
| `PolicyEvaluator.StrictestJudges` | internal/controller/policy_evaluator.go:59-106 | In the terms of the policies: the verdict is deny exactly when a deny rule of an active policy for this agent or for all agents matches the message, and require-approval exactly when none does but an approval rule does. |
| `PolicyEvaluator.DecisionOfConcatenation` | internal/controller/policy_evaluator.go:59-106 | Evaluating a concatenation of policy lists gives the stricter of the two verdicts. |
| `PolicyEvaluator.AddedPolicyNeverWeakens` | internal/controller/policy_evaluator.go:59-106 | A policy inserted at any place never makes the decision more permissive. |
| `PolicyEvaluator.OrderNeverMatters` | internal/controller/policy_evaluator.go:51-106 | Permuting the policies, and the rules within each, leaves the decision as it was. |
| `PolicyEvaluator.FirstIsUnique` | internal/controller/policy_evaluator.go:80-98 | There is only one first rule of a kind, so the report of the evaluator is determined. |
| `SendController.EveryPostWasScreened` | internal/controller/kubecopilotsend_controller.go:97-153 | In every run of reconciles, stale reads, lost writes, crashes, edits and policy changes, for each POST, the version of the send and the policy list its reconcile had read: no deny rule of an active policy for its agent or for all agents matches its message, and if an approval rule does, that version was approved. |
| `SendController.DenyBeatsApproval` | internal/controller/kubecopilotsend_controller.go:120-153 | From any point at which the worker rests, for instance while the send waits for approval: if from then on reads meet only versions and policy lists in which a deny rule matches the message, no further POST is made in any continuation, approval included. |
| `SendController.PostsAreBounded` | internal/controller/kubecopilotsend_controller.go:224-249 | Number of POSTs = status writes lost after a POST + one if a POST is recorded + one if a write is pending; so at most one more than the writes lost whenever no write is pending. |
| `SendController.TerminalIsFinal` | internal/controller/kubecopilotsend_controller.go:97-100 | Done, Error and Denied, and the queue id with them, stay for ever, stale reads and lost writes included. |
| `SendController.DoneRecordsItsOwnPost` | internal/controller/kubecopilotsend_controller.go:240-249 | A send that is Done holds the queue id that was returned to the very POST whose status write succeeded. |
| `SendController.WhatOneReconcileDoes` | internal/controller/kubecopilotsend_controller.go:89-250 | One undisturbed reconcile: a send that is Done, Error, Denied or pending without approval is left alone; a matching deny rule writes Denied and a matching approval rule without approval PendingApproval, both without a POST; anything else makes exactly one POST and ends in Done with the queue id returned, or in Error for any other reply. |
| `SendController.WhatAFailedCallDoes` | internal/controller/kubecopilotsend_controller.go:107-197 | The other ends of an undisturbed reconcile, all without a POST: an agent that is not running changes nothing; a missing agent, a failed policy list and, once the screening lets the send through, a missing provider secret end in Error. |
| `SendController.SendReconciler.Reconcile` | internal/controller/kubecopilotsend_controller.go:89-250 | Under any surroundings the function takes only steps of the protocol and comes to rest; undisturbed, it leaves the state the protocol says; no deny rule matches the message of any of its POSTs, each was approved if an approval rule does, and their number stays within the bound. |
| `SendController.SendReconciler.Screen` | internal/controller/kubecopilotsend_controller.go:107-153 | From the agent lookup through the evaluation to the decision: only protocol steps, and undisturbed the settled outcome of the protocol. |
| `SendController.SendReconciler.Dispatch` | internal/controller/kubecopilotsend_controller.go:189-249 | From the secret lookup through the POST to the status write: only protocol steps, and undisturbed the settled outcome of the protocol. |
| `SendController.SendReconciler.Get` | internal/controller/kubecopilotsend_controller.go:92-105 | The read meets some stored version, perhaps a stale one; the protocol goes on with it only if the phase check lets it. |
| `SendController.SendReconciler.GetAgentPhase` | internal/controller/kubecopilotsend_controller.go:107-118 | A missing agent leads to an Error write, an agent that is not running to rest, a running one to the evaluation. |
| `SendController.SendReconciler.GetPolicies` | internal/controller/kubecopilotsend_controller.go:122-128 | A failed list leads to an Error write; otherwise the decision taken is the strictest one over the very list that was read. |
| `SendController.SendReconciler.GetProviderSecret` | internal/controller/kubecopilotsend_controller.go:189-197 | A secret that cannot be read leads to an Error write and no POST. |
| `SendController.SendReconciler.CallAgent` | internal/controller/kubecopilotsend_controller.go:224-245 | The POST is logged with the version it was made from; its reply fixes the status to be written. |
| `SendController.SendReconciler.UpdateStatus` | internal/controller/kubecopilotsend_controller.go:247-249 | One status write, after which the worker rests: only protocol steps, and undisturbed the settled outcome of the protocol. |
| `SendController.SendReconciler.StoreStatus` | internal/controller/kubecopilotsend_controller.go:247-249 | The write is stored only if it is delivered and made from the latest version; otherwise the store stays as it was and the write counts as lost. |
| `SessionController.NoOrphanNamespace` | internal/controller/kubecopilotsession_controller.go:74-104 | In every reachable state, crashes and user deletions between any two calls included, a session namespace exists only beside the very session it was made for, which holds the finalizer. |
| `SessionController.NeverActiveAfterDeletion` | internal/controller/kubecopilotsession_controller.go:75-77 | After the deletion mark the phase of that session is what it was or Terminating, in every continuation: Active is never written. |
| `SessionController.CleanupNeverRegresses` | internal/controller/kubecopilotsession_controller.go:160-195 | The rank of finalizer and namespace (live, terminating, absent) of a session being deleted never rises, whatever happens. |
| `SessionController.FinalizerLeavesLast` | internal/controller/kubecopilotsession_controller.go:170-193 | In any reachable state the finalizer is given up only when the namespace is absent. |
| `SessionController.SettledIsRun` | internal/controller/kubecopilotsession_controller.go:66-155 | A whole undisturbed reconcile is a run of faultless calls of the protocol. |
| `SessionController.ReconcileConverges` | internal/controller/kubecopilotsession_controller.go:79-154 | From any state a crash can leave, with the agent there and no deletion, one failure-free reconcile stores the phase Active, the namespace and Ready, with finalizer, namespace, role and binding there; the network policy is present if isolation is strict or empty, absent if it is none, whatever it was before, and as it was for any other level. |
| `SessionController.MissingAgentEndsInError` | internal/controller/kubecopilotsession_controller.go:79-96 | Without its agent an undisturbed reconcile of a session that is not being deleted stores Error and not ready, and leaves the namespace as it was. |
| `SessionController.ReconcileIsIdempotent` | internal/controller/kubecopilotsession_controller.go:79-154 | A second reconcile changes nothing, not even a resource version. |
| `SessionController.DeletionCompletes` | internal/controller/kubecopilotsession_controller.go:160-195 | One undisturbed reconcile asks for the removal of the namespace and stores Terminating, and one more, after it is gone, gives up the finalizer. |
| `SessionController.SessionReconciler.Reconcile` | internal/controller/kubecopilotsession_controller.go:66-155 | Under any faults and interference only protocol steps are taken and no orphan namespace arises. Undisturbed: with the agent there the session ends converged, Active and ready; without it in Error and not ready; being deleted, Terminating with its namespace gone or going. |
| `SessionController.SessionReconciler.HandleDeletion` | internal/controller/kubecopilotsession_controller.go:160-195 | Only protocol steps; undisturbed, the settled outcome of a tear-down. |
| `SessionController.SessionReconciler.UpdateAddingFinalizer` | internal/controller/kubecopilotsession_controller.go:79-85 | The finalizer is stored only by a write made from the latest version, and the work goes on with the version that write made. |
| `SessionController.SessionReconciler.GetAgentFor` | internal/controller/kubecopilotsession_controller.go:87-96 | A missing agent leads to an Error write, a failed read to rest. |
| `SessionController.SessionReconciler.EnsureNamespace` | internal/controller/kubecopilotsession_controller.go:198-216 | Success means that the protocol stands where the namespace is known to exist. |
| `SessionController.SessionReconciler.EnsureNetworkPolicy` | internal/controller/kubecopilotsession_controller.go:220-258 | Success means that the protocol stands past the creation of the tenant policy. |
| `SessionController.SessionReconciler.RemoveNetworkPolicy` | internal/controller/kubecopilotsession_controller.go:113-131 | Success means that the protocol stands past the removal of the tenant policy. |
| `SessionController.SessionReconciler.EnsureRole` | internal/controller/kubecopilotsession_controller.go:262-295 | Success means that the protocol stands past the creation of the tenant role. |
| `SessionController.SessionReconciler.EnsureBinding` | internal/controller/kubecopilotsession_controller.go:297-327 | Success means that the protocol stands past the creation of the tenant binding. |
| `SessionController.SessionReconciler.SaveStatusOf` | internal/controller/kubecopilotsession_controller.go:139-151 | The status is stored only if made from the latest version. |
| `SessionController.SessionReconciler.UpdateTerminating` | internal/controller/kubecopilotsession_controller.go:163-168 | The phase Terminating is written, and the work goes on with the version that write made. |
| `SessionController.SessionReconciler.WriteTerminating` | internal/controller/kubecopilotsession_controller.go:163-168 | Terminating is stored only by a write made from the latest version. |
| `SessionController.SessionReconciler.NamespaceConfirmedGone` | internal/controller/kubecopilotsession_controller.go:170-186 | True only when the namespace was read as absent; a live one is asked to be removed first. |
| `SessionController.SessionReconciler.UpdateRemovingFinalizer` | internal/controller/kubecopilotsession_controller.go:188-192 | The finalizer is dropped by a versioned write, after which a session being deleted disappears unless others hold finalizers. |
| `AgentRbac.ClusterObjectsAreGuarded` | internal/controller/kubecopilotagent_controller.go:94-107 | In every run in which no clean-up read of an object that is there fails with an error other than not-found, at every step and crash point: ClusterRole and ClusterRoleBinding exist only while the agent exists with the rbac finalizer, and the binding never without the role. Reads may fail in any other way. |
| `AgentRbac.CleanUpIsCompleteIffRead` | internal/controller/kubecopilotagent_controller.go:810-828 | The finalizer goes in any case; nothing is left behind exactly when the read of every object that is there was answered. |
| `AgentRbac.UnreadObjectsStay` | internal/controller/kubecopilotagent_controller.go:812-827 | From any good state with both objects and no foreign finalizer: if both clean-up reads fail with another error, the agent is gone and both objects are as they were. |
| `AgentRbac.UnreadableLeavesOrphans` | internal/controller/kubecopilotagent_controller.go:812-827 | A concrete run from a cluster without the agent: it is created, provided for, deleted, and both reads of its clean-up fail with another error; then the agent is gone and both cluster-wide objects remain. |
| `AgentRbac.UndisturbedCleanUp` | internal/controller/kubecopilotagent_controller.go:94-107 | An undisturbed reconcile of an agent being deleted removes both cluster-wide objects and then the finalizer. |
| `AgentRbac.ReconcileProvisions` | internal/controller/kubecopilotagent_controller.go:117-157 | After any history of edits and crashes, one failure-free reconcile of an agent with `rbac` set: the account named in the spec, or else `<name>-sa`, exists; for rules of either kind the role holds the current rules and the binding names exactly that account; new objects belong to the agent, and a kind without rules is left alone. |
| `AgentRbac.WithoutRbacNothingIsMade` | internal/controller/kubecopilotagent_controller.go:108-118 | Without `rbac` an undisturbed reconcile only gives the agent its id. |
| `AgentRbac.ReconcileIsIdempotent` | internal/controller/kubecopilotagent_controller.go:117-157 | Repeating it changes nothing on these objects, whichever kinds of rules there are. |
| `AgentRbac.WithoutFinalizer` | internal/controller/kubecopilotagent_controller.go:797-805 | The loop removes every occurrence of the finalizer and keeps the others in order. |
| `AgentRbac.WithoutKeepsOthers` | internal/controller/kubecopilotagent_controller.go:797-805 | A list without the finalizer stays as it is, in its order. |
| `AgentRbac.AgentReconciler.Reconcile` | internal/controller/kubecopilotagent_controller.go:78-157 | Under any faults and interference only protocol steps are taken; if no clean-up read overlooks an object that is there, the cluster-wide objects stay guarded. Undisturbed: an agent with `rbac` ends provisioned and nothing else changes; one being deleted ends without cluster-wide objects and without the finalizer. |
| `AgentRbac.AgentReconciler.CleanupClusterRBAC` | internal/controller/kubecopilotagent_controller.go:810-828 | Binding first, then role; on success the protocol stands at the removal of the finalizer, and both objects are gone unless a call failed with an error other than not-found. |
| `AgentRbac.AgentReconciler.DropClusterBinding` | internal/controller/kubecopilotagent_controller.go:813-818 | On success the binding is gone, or, if its read failed with an error other than not-found, exactly as it was; the role is not touched. |
| `AgentRbac.AgentReconciler.DropClusterRole` | internal/controller/kubecopilotagent_controller.go:820-825 | On success the role is gone, or, if its read failed with an error other than not-found, exactly as it was; the binding is not touched. |
| `AgentRbac.AgentReconciler.EnsureServiceAccount` | internal/controller/kubecopilotagent_controller.go:503-521 | Success means that the protocol stands past the creation of the account. |
| `AgentRbac.AgentReconciler.EnsureRole` | internal/controller/kubecopilotagent_controller.go:523-547 | Success means that the protocol stands past the write of the current rules. |
| `AgentRbac.AgentReconciler.EnsureRoleBinding` | internal/controller/kubecopilotagent_controller.go:549-587 | Success means that the protocol stands past the write of the current account. |
| `AgentRbac.AgentReconciler.EnsureClusterRole` | internal/controller/kubecopilotagent_controller.go:589-608 | Success means that the protocol stands past the write of the current cluster rules. |
| `AgentRbac.AgentReconciler.EnsureClusterRoleBinding` | internal/controller/kubecopilotagent_controller.go:610-645 | The last call of a reconcile: the binding is made to name the current account only. |
| `AgentRbac.AgentReconciler.UpdateAddingFinalizer` | internal/controller/kubecopilotagent_controller.go:142-147 | The finalizer is stored before any cluster-wide object is made, and the work goes on with the version that write made. |
| `AgentRbac.AgentReconciler.UpdateRemovingFinalizer` | internal/controller/kubecopilotagent_controller.go:101-104 | The last call of a clean-up: only protocol steps, then rest. |
| `AgentRbac.AgentReconciler.WriteWithoutFinalizer` | internal/controller/kubecopilotagent_controller.go:101-104 | All occurrences of the finalizer go in one versioned write; an agent being deleted without finalizers is gone. |
| `AgentRbac.AgentReconciler.ManageRBAC` | internal/controller/kubecopilotagent_controller.go:117-136 | Account, then role and binding if there are rules, then the cluster-wide part: only protocol steps. |
| `AgentRbac.AgentReconciler.ManageClusterRBAC` | internal/controller/kubecopilotagent_controller.go:138-157 | Finalizer first, then cluster role, then its binding: only protocol steps. |
| `ChunkStream.RunStreaming` | agent-server-container/github-copilot/server.py:215-423 | For every event sequence that ends the wait. The response of an uncancelled run is the content of the last complete message, if any, with the text deltas after it, or the fixed text if that is empty; the session is the one announced last, else the one opened, else the one asked for. The posts are numbered 0..n-1; with chunks on they are the opening one, then one post for each notable event in order, saying what that event says with the session id known by then, then at most one more; the thinking posts are the first 300 characters of the flushed texts, and unless cancelled the non-white characters of these are those of all reasoning deltas, in order. |
| `ChunkStream.NotesAreGathered` | agent-server-container/github-copilot/server.py:264-300 | After any events the response gathered is the content of the last complete message followed by the text deltas after it, and the session id the last one announced, else the one opened, else the one asked for. |
| `ChunkStream.PostsTellTheRun` | agent-server-container/github-copilot/server.py:228-421 | With chunks on: the opening post with the start of the message; then, in event order and none twice, posts that tell of events, every notable event told, each with the session id announced by then; then the notice of a cancelled run, or at most one last thought. |
| `ChunkStream.PostTells` | agent-server-container/github-copilot/server.py:275-378 | What one event makes the handler post tells of that event: its tool, output, description, preview, names or state, cut where the source cuts; an event that posts nothing is one that need not be told. |
| `ChunkStream.PostsAreNumbered` | agent-server-container/github-copilot/server.py:228-423 | The posts of any interaction carry 0..n-1 in posting order, at most two more than there are events; without chunks there are none, and a cancelled run ends with its notice. |
| `ChunkStream.ThinkingIsConserved` | agent-server-container/github-copilot/server.py:275-294 | The thinking posts of any interaction are the cuts, in order, of texts that hold all the reasoning received, up to white space; of a cancelled run, all but what is left in the buffer. |
| `ChunkStream.ShortThoughtsAreShownInFull` | agent-server-container/github-copilot/server.py:415-421 | If no flushed text is longer than 300 characters, the texts of the thinking posts themselves hold all the reasoning. |
| `ChunkStream.NextIsLawful` | agent-server-container/github-copilot/server.py:259-387 | One event keeps the numbering, the match between thinking posts and flushed texts, and the conservation of reasoning; every flushed text stays one sentence. |
| `ChunkStream.NumberedOnce` | agent-server-container/github-copilot/server.py:228-240 | In such a numbering each of 0..n-1 occurs exactly once, and no other number. |
| `ChunkStream.StreamRun.OnEvent` | agent-server-container/github-copilot/server.py:259-387 | Each event changes the run as its branch says: at most one post with the next number, the buffer and the flushed text named, response, session and flags as the branch has them; numbering and conservation hold on. |
| `ChunkStream.StreamRun.Think` | agent-server-container/github-copilot/server.py:275-294 | A delta is gathered; with chunks on and a terminator in the buffer, the text up to the first one is flushed and posted, and what stays holds exactly the ink behind it. |
| `ChunkStream.StreamRun.FlushSentence` | agent-server-container/github-copilot/server.py:281-294 | The stripped text up to the first terminator joins the flushed texts and its first 300 characters are posted; a blank one posts nothing; the rest stays in the buffer. |
| `ChunkStream.SplitSentence` | agent-server-container/github-copilot/server.py:284-287 | The split is at the first full stop, exclamation mark, question mark or line end; it loses only white space, and a head that is not blank is one sentence. |
| `ChunkStream.FlushedIsOneSentence` | agent-server-container/github-copilot/server.py:284-288 | A flushed text has no white space at its ends and no sentence terminator before its last character. |
| `ChunkStream.SplitKeepsInk` | agent-server-container/github-copilot/server.py:284-287 | Splitting at the first terminator and stripping both parts loses only white space. |
| `ChunkStream.SplitIsAtFirstEnd` | agent-server-container/github-copilot/server.py:284-287 | The head holds the ink up to the first sentence end and the rest the ink behind it. |
| `ChunkStream.FlushingConserves` | agent-server-container/github-copilot/server.py:284-294 | The conservation law survives a flush, also one whose text is empty. |
| `ChunkStream.LastFlushConserves` | agent-server-container/github-copilot/server.py:415-421 | With the last flush everything that was received has been flushed. |
| `ChunkStream.StreamRun.OnMessage` | agent-server-container/github-copilot/server.py:296-321 | A final text replaces the response and posts a preview; tool requests post the names worth showing. |
| `ChunkStream.StreamRun.OnToolStart` | agent-server-container/github-copilot/server.py:324-334 | Skipped tools post nothing; others post the first non-empty of description, command and arguments, cut. |
| `ChunkStream.StreamRun.OnToolComplete` | agent-server-container/github-copilot/server.py:336-350 | Skipped tools and blank outputs post nothing. |
| `ChunkStream.StreamRun.OnActivity` | agent-server-container/github-copilot/server.py:323-378 | Tools, skills and sub-agents only post. |
| `ChunkStream.StreamRun.OnSession` | agent-server-container/github-copilot/server.py:265-273 | Session ids, text deltas, idle and deletion change only what the handler keeps, and post nothing. |
| `ChunkStream.StreamRun.constructor` | agent-server-container/github-copilot/server.py:228-254 | The counters start at zero and, with chunks enabled, the first post has number 0. |
| `ChunkStream.StreamRun.Finish` | agent-server-container/github-copilot/server.py:400-423 | A cancelled run posts its notice; any other posts the cut of what is left in the buffer, and that text joins the flushed ones; the response is never empty. |
| `ChunkDelivery.NameParsesBack` | internal/webhook/server.go:186-190 | Splitting a chunk name at its last hyphen gives back the last (up to) twelve characters of the send and the sequence, at every width, if and only if the sequence is not negative. |
| `ChunkDelivery.SequenceIsPadded` | internal/webhook/server.go:190-190 | A sequence that is not negative is written in its decimal digits, at least four of them and no more than four unless the first is not a zero. |
| `ChunkDelivery.NamesCollide` | internal/webhook/server.go:186-190 | Two posts get one name exactly when they agree on the last twelve characters of the send and on the sequence. |
| `ChunkDelivery.NegativeSequenceCollides` | internal/webhook/server.go:190-190 | The concrete failure outside that range: with a negative sequence two different sends share a name. |
| `ChunkDelivery.WebSendsKeepTheirIdentity` | web-ui/app/k8s_client.py:32-32 | A send made by the web client keeps all its random characters in its chunk names. |
| `ChunkDelivery.ChunkStore.HandleChunk` | internal/webhook/server.go:168-222 | A chunk is created exactly when the API accepts it and its name is free in its namespace, and then it is the one object added, with this payload, its namespace or `default`, and a name of the last twelve characters of the send and the padded number; otherwise the store is unchanged. |
| `ChunkDelivery.ChunkStore.NameChunk` | internal/webhook/server.go:176-205 | The object a payload becomes: default namespace, last twelve characters of the send, padded number. |
| `ChunkDelivery.OnePerSequence` | internal/webhook/server.go:186-218 | The store keeps at most one chunk per send, namespace and sequence. |
| `ChunkDelivery.DeliveryIsWellStored` | internal/webhook/server.go:168-222 | After any arrivals, in any order, with losses and repeats, every object is stored under the name of its payload, no two under one name. |
| `ChunkDelivery.ArrivedIsStored` | internal/webhook/server.go:186-218 | A post that arrives is in the store from then on, provided no other post competes for its name. |
| `ChunkDelivery.AllPostsAreStored` | internal/webhook/server.go:168-222 | If every post of the only interaction of a send arrives and no other send posts under the same last twelve characters in its namespace, all of them are stored, whatever the order, repeats and losses of repeats. |
| `ChunkDelivery.StoredChunksArePosts` | internal/webhook/server.go:168-222 | However often a send was dispatched, and whatever the order, losses and repeats of its posts, each chunk stored for it is the post of its number of one of its interactions. |
| `ChunkDelivery.ReachableStoresAreDistinct` | internal/webhook/server.go:186-218 | Every snapshot a reader can meet has distinct sequences per send. |
| `ChunkDelivery.ListChunksForSend` | web-ui/app/k8s_client.py:258-278 | The list holds exactly the chunks with the two labels in the namespace, by rising sequence. |
| `ChunkReaders.WebStream.Load` | web-ui/app/main.py:65-70 | The initial load shows everything listed, each sequence once. |
| `ChunkReaders.WebStream.Poll` | web-ui/app/main.py:76-82 | A later poll shows what is listed under sequences not shown before, and nothing else. |
| `ChunkReaders.ChunksStream` | web-ui/app/main.py:58-84 | Over any schedule of polls: a failed first poll shows nothing; otherwise each sequence any poll met is shown exactly once, and with a growing store exactly what is stored at a successful poll has been shown. |
| `ChunkReaders.WatchSend` | web-ui/app/main.py:58-84 | From the agent to the browser: for any number of interactions of a send, every arrival order, loss pattern and poll schedule, the stream shows each sequence at most once, only posts of their number of one of the interactions, and after a successful poll exactly the chunks stored by then; once all posts of the only interaction have arrived, unrivalled, that is the whole interaction, each post once. |
| `ChunkReaders.WholeInteractionIsShown` | web-ui/app/main.py:58-84 | A stream that shows exactly what is stored, after all posts of the only interaction have arrived, shows each of them once, as many as there are, and nothing else. |
| `ChunkReaders.ChunkPrinter.Poll` | cmd/cli/invoke.go:90-118 | One poll prints, by rising sequence, chunks of the snapshot that reach the watermark, and every sequence the snapshot has there. |
| `ChunkReaders.ChunkPrinter.Relevant` | cmd/cli/invoke.go:100-109 | Exactly the chunks of the send, by rising sequence. |
| `ChunkReaders.StreamChunks` | cmd/cli/invoke.go:80-118 | Over any polls the printed sequences rise strictly and belong to the send; a number is printed if and only if some poll offers it before any poll has met a higher one; if each number is one object, the same for the chunks themselves; if every poll met a gap-free prefix, exactly the longest of them was printed. |
| `ChunkReaders.GapFreePoll` | cmd/cli/invoke.go:111-118 | A poll of a gap-free prefix extends a gap-free output to exactly that prefix. |
| `ChunkReaders.LateIsNeverPrinted` | cmd/cli/invoke.go:111-118 | For any polls: a number that none offers until one has met a higher number of the send is never printed. |
| `ChunkReaders.PrintedObjects` | cmd/cli/invoke.go:111-118 | With one object per number, the chunks printed are exactly those some poll met before any had met a higher-numbered one. |
| `ChunkReaders.StoreHasOneObjectEach` | internal/webhook/server.go:186-218 | Polls of a store that only takes in what arrives meet one object per number. |
| `ChatQueue.ConcurrencyIsBounded` | agent-server-container/github-copilot/server.py:48-52 | In every interleaving at await points at most the configured number of items run, the semaphore counts the rest, the counter of unfinished items is exact, and every registered session is the one its own running item streams from. |
| `ChatQueue.EveryItemIsInOnePlace` | agent-server-container/github-copilot/server.py:428-476 | An accepted item is in exactly one of queue, waiting, running, finished, or lost in a restart; no other item is anywhere. |
| `ChatQueue.ItemsAreRecordedOnce` | agent-server-container/github-copilot/server.py:453-455 | A queued item leaves at most one exchange, with its own message; while its task runs, exactly when it has recorded it. |
| `ChatQueue.HistoriesHoldEachExchangeOnce` | agent-server-container/github-copilot/server.py:118-127 | All history files together hold every completed queued or direct exchange exactly once, and each file those of its session in order of completion, across concurrent items, migrations and restarts. |
| `ChatQueue.ExchangesAreKept` | agent-server-container/github-copilot/server.py:438-476 | Whatever happens later, restarts included, what a history file holds stays the beginning of some history file: under its own name, or the one it migrated to. |
| `ChatQueue.FirstComeFirstServed` | agent-server-container/github-copilot/server.py:428-435 | Whatever happens short of a restart, the queue is served first come, first served: of what is queued now a first part is gone, the rest stands in front in the same order, and behind it only items accepted since. |
| `ChatQueue.SaidMoves` | agent-server-container/github-copilot/server.py:881-887 | Renaming a file onto a session in which nothing was said moves exactly what was said there. |
| `ChatQueue.HandlerLeavesOneEntry` | agent-server-container/github-copilot/server.py:438-476 | Whatever other tasks do at its awaits, a handled item ends, gives its permit back, and leaves one entry if it completes and none if it fails; if it completes, a history file holds its message with the answer of the agent, and it is the file of the resolved session unless another task may have renamed that. |
| `ChatQueue.ChatServer.HandleAsyncItem` | agent-server-container/github-copilot/server.py:438-476 | From any good state and whatever other tasks do at its awaits: the state stays good, the item has ended and given its permit back, no more items run than there are permits, and it has left one exchange if it completed and none if it failed; that exchange is its own message with the answer of the agent, and a history file holds it, the one of the resolved session unless another task may have renamed that. |
| `ChatQueue.ChatServer.AsyncChat` | agent-server-container/github-copilot/server.py:808-821 | The item is appended to the queue and counted. |
| `ChatQueue.ChatServer.ProcessQueue` | agent-server-container/github-copilot/server.py:431-435 | The head of the queue gets a task of its own, and the rest stays in order. |
| `ChatQueue.ChatServer.Acquire` | agent-server-container/github-copilot/server.py:441-441 | A waiting item takes a permit only if one is left. |
| `ChatQueue.ChatServer.Register` | agent-server-container/github-copilot/server.py:244-253 | The opened session is registered for the item that runs. |
| `ChatQueue.ChatServer.Leave` | agent-server-container/github-copilot/server.py:395-398 | At the end of the wait the registration goes. |
| `ChatQueue.ChatServer.Record` | agent-server-container/github-copilot/server.py:453-455 | Load, append and save in one segment: the file of the session grows by the exchange of the message of the item with the answer of the agent, and every other file stays. |
| `ChatQueue.ChatServer.Finish` | agent-server-container/github-copilot/server.py:474-476 | Registration, count and permit are given back together. |
| `ChatQueue.ChatServer.CancelBegin` | agent-server-container/github-copilot/server.py:826-831 | Unknown ids are not found; otherwise the registered session of that id is the one to be disconnected. |
| `ChatQueue.ChatServer.CancelEnd` | agent-server-container/github-copilot/server.py:832-838 | After the disconnect the registration is dropped, if it is still there. |
| `ChatQueue.ChatServer.Migrate` | agent-server-container/github-copilot/server.py:881-887 | The file of the id asked for becomes the file of the resolved id, unless there is one already. |
| `ChatQueue.ChatServer.Chat` | agent-server-container/github-copilot/server.py:876-893 | The last segment of a direct chat, on the files: the one under the resolved id, or else the one asked for, which takes over the one asked for where that is renamed, grows by the message with the answer, or `No response`; every other file stays. |
| `ChatQueue.ChatServer.Restart` | agent-server-container/github-copilot/server.py:42-52 | A new process starts with empty tables; the history files are as they were. |
| `BackgroundTasks.NotificationsAreBounded` | agent-server-container/github-copilot/server.py:498-511 | Over any run with crashes and restarts a task is notified at most once more often than its saves failed just before a notification, and a notification after a successful save is its last. |
| `BackgroundTasks.SilentAfterSavedNotice` | agent-server-container/github-copilot/server.py:705-738 | After a notification with a successful save the task is ended or absent in file and memory, and gets no runner, check or notification ever again. |
| `BackgroundTasks.CrashAfterSaveIsSilent` | agent-server-container/github-copilot/server.py:741-750 | A successful save before posting leaves the file with the task ended or absent, so a crash before the post leads to no further run or notification. |
| `BackgroundTasks.DeletedReturnsIff` | agent-server-container/github-copilot/server.py:983-991 | A deleted task comes back at the next restart exactly when the file is readable, held it other than as pending, and no save succeeded since, its own deletion included. |
| `BackgroundTasks.DeletedMayReturn` | agent-server-container/github-copilot/server.py:983-991 | The concrete run: the delete could not be saved, and after a restart the task is run again. |
| `BackgroundTasks.AbsentStaysAbsent` | agent-server-container/github-copilot/server.py:695-698 | After a delete no new check begins and the id does not re-enter memory while the process lives; a later successful save removes it from the file. |
| `BackgroundTasks.SavedDeleteIsForGood` | agent-server-container/github-copilot/server.py:983-991 | A delete that was saved holds over every later run, restarts included. |
| `BackgroundTasks.SettledStays` | agent-server-container/github-copilot/server.py:741-752 | A task without runner that is ended or absent in memory and file stays so: restore relaunches only what is recorded as running. |
| `BackgroundTasks.MostChecksAreBounded` | agent-server-container/github-copilot/server.py:929-930 | Under the creation clamps no runner begins more than 17280 checks. |
| `BackgroundTasks.MostChecksReachTimeout` | agent-server-container/github-copilot/server.py:687-694 | That many intervals reach the timeout, and for a positive timeout stay less than one interval beyond it. |
| `BackgroundTasks.TaskServer.RunBackgroundTask` | agent-server-container/github-copilot/server.py:669-738 | The runner always ends, whatever others do at its awaits: at most ceil(timeout/interval) checks, stopping at the first that is met; expiry at timeout <= elapsed < timeout + interval; one notification, after the save, exactly when met or expired; a task still in memory is Completed exactly when met, TimedOut exactly when expired and Failed exactly when its type is unknown, and a save that succeeds puts that in the file. |
| `BackgroundTasks.TaskServer.Poll` | agent-server-container/github-copilot/server.py:692-724 | The loop: it ends because the task is gone, the condition was met, or the time is up, and says how many checks began. |
| `BackgroundTasks.TaskServer.CheckOnce` | agent-server-container/github-copilot/server.py:692-705 | One turn: the runner of a deleted task ends without a check; otherwise one check begins, and its answer decides between saving, sleeping again and timing out. |
| `BackgroundTasks.TaskServer.Announce` | agent-server-container/github-copilot/server.py:705-738 | The outcome is saved, then notified, once. |
| `BackgroundTasks.TaskServer.SaveTasks` | agent-server-container/github-copilot/server.py:498-513 | The file becomes what is in memory, or stays as it was. |
| `BackgroundTasks.TaskServer.CreateMonitorTask` | agent-server-container/github-copilot/server.py:911-942 | An unknown type is refused and nothing changes; otherwise the task is kept as pending with its own type, interval and timeout, the interval raised to 5 and the timeout lowered to 86400 where beyond, saved, and given a runner. |
| `BackgroundTasks.TaskServer.DeleteTask` | agent-server-container/github-copilot/server.py:983-991 | The task leaves memory, all others stay, and the rest is saved; an unknown id changes nothing. |
| `BackgroundTasks.TaskServer.BeginRunner` | agent-server-container/github-copilot/server.py:669-692 | A task gone before its runner starts ends it; an unknown type is marked failed and saved; any other is marked running, saved, and put to the loop test. |
| `BackgroundTasks.TaskServer.RestoreTasks` | agent-server-container/github-copilot/server.py:741-752 | After a restart memory holds exactly the ended and running tasks of a file that can be read, as they were, and exactly the running ones have a runner. |

## Left out

- Glob.Match: character classes, escapes and malformed patterns are read as literals; the policy API documents only `*` and `?`, and the code ignores match errors.
- PolicyEvaluator.ToLower: lower-casing is an arbitrary map from character to character, so length-changing Unicode case rules are not modelled.
- ChunkDelivery.ChunkName: names are sequences of characters; the source cuts the send name at bytes, which agrees for the ASCII names Kubernetes allows.
- ChunkStream.RunStreaming: the fixed wording and symbols around a chunk's text are left to the constructor names of `Content`; white space of thinking text is not preserved by the code and not claimed.
- ChunkReaders.StreamChunks: how many polls are made is a parameter; the source stops at Done, Error, a failed list or its timeout. Done is written at dispatch, so nothing is claimed about how much had arrived when it stops.
- ChunkReaders.ChunksStream: streaming by session id, where sequences restart with each send.
- ChatQueue.Step: the order in which waiting tasks get permits is arbitrary; a history file that cannot be written or parsed is a failed run of its item, and partial writes are not modelled.
- BackgroundTasks.Step: a check in progress when its task is deleted may still notify; nothing is claimed against that. Pending tasks in the file are dropped by a restart, as the code does. Retries inside one notification call count as one call.
- HTTP, JSON, TLS, logging, manager set-up, the Copilot SDK and the checkers' cluster queries are inputs: each call succeeds or fails, each event and answer is arbitrary.
- ChunkDelivery.Payload: a chunk's kind and text are values of the agent's own kinds of content; the webhook takes any text, but neither the store nor the readers look at it.
- AgentRbac.Finalizer: finalizers of others are names; the controller's own is a constant of its own, told apart from every name.
- The error texts written into a send's status, the deletion of a send object, and the deletion of stored chunks (web-ui/app/k8s_client.py:133-160): `Deliver`, and with it every result about what stays stored, is about a store that only grows.
- Deletion of a session's namespace by anyone but the controller or the cluster on its request.
- An agent with both `rbac` and `kubeconfigSecretRef`, which the API rejects and which returns before deletion handling; kubeconfig, volume, pod and service steps after the RBAC part.
- Policy, message, cancel, tool-server and team reconcilers, response and notification webhooks: short flows with one branch each.
- The order of equal keys in the library's sorts, which no result depends on.
