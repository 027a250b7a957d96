/** The planner's task queue: adding, importing, removing and reordering
    tasks, assigning them, starting a session, and the dependency links
    between tasks with their cycle check and blocked rule. */
module Planner {
  import opened Wrappers
  import opened Types
  import JsText
  import App

  // ---------------------------------------------------------------
  // Looking tasks up
  // ---------------------------------------------------------------

  /** `tasks.findIndex(t => t.id === id)`, with -1 as `None`. */
  function FindIndex(tasks: seq<Task>, id: string): (r: Option<nat>)
    ensures r.Some? ==>
      r.value < |tasks| && tasks[r.value].id == id && (forall j :: 0 <= j < r.value ==> tasks[j].id != id)
    ensures r.None? ==> forall j :: 0 <= j < |tasks| ==> tasks[j].id != id
  {
    if |tasks| == 0 then None
    else if tasks[0].id == id then Some(0)
    else match FindIndex(tasks[1..], id)
      case None => None
      case Some(k) => Some(k + 1)
  }

  /** `tasks.find(t => t.id === id)`: the first task with that id. */
  function FindTask(tasks: seq<Task>, id: string): Option<Task> {
    match FindIndex(tasks, id)
    case Some(k) => Some(tasks[k])
    case None => None
  }

  /** The ids of the tasks. */
  ghost function Ids(tasks: seq<Task>): set<string> {
    set i | 0 <= i < |tasks| :: tasks[i].id
  }

  // ---------------------------------------------------------------
  // The dependency graph
  // ---------------------------------------------------------------

  /** `a` lists `b` among the tasks blocking it (`a` being the first task
      with its id). */
  predicate Edge(tasks: seq<Task>, a: string, b: string) {
    FindTask(tasks, a).Some? && b in FindTask(tasks, a).value.dependencies
  }

  /** A chain of one or more dependency links. */
  predicate IsPath(tasks: seq<Task>, p: seq<string>) {
    |p| >= 2 && forall i :: 0 <= i < |p| - 1 ==> Edge(tasks, p[i], p[i + 1])
  }

  /** `a` depends on `b`, directly or through other tasks. */
  ghost predicate DependsOn(tasks: seq<Task>, a: string, b: string) {
    exists p :: IsPath(tasks, p) && p[0] == a && p[|p| - 1] == b
  }

  /** No task depends on itself. */
  ghost predicate Acyclic(tasks: seq<Task>) {
    forall a :: !DependsOn(tasks, a, a)
  }

  /** The listed tasks `current` depends on. */
  ghost function ReachSet(tasks: seq<Task>, current: string): set<string> {
    set x | x in Ids(tasks) && DependsOn(tasks, current, x)
  }

  /** The inner `check` of `isCircular`: does `current` depend on `source`?
      On a cyclic graph the source recurses without end; `fuel` is the
      number of nested calls the stack allows, and `None` is the stack
      overflow once it is spent. `some` stops at the first `true` and an
      overflow propagates out of it. */
  function Check(tasks: seq<Task>, source: string, current: string, fuel: nat): Option<bool>
    decreases fuel, 0, 0
  {
    if fuel == 0 then None
    else match FindTask(tasks, current)
      case None => Some(false)
      case Some(t) =>
        if source in t.dependencies then Some(true)
        else CheckAny(tasks, source, t.dependencies, fuel - 1)
  }

  /** `ds.some(depId => check(depId))`. */
  function CheckAny(tasks: seq<Task>, source: string, ds: seq<string>, fuel: nat): Option<bool>
    decreases fuel, 1, |ds|
  {
    if |ds| == 0 then Some(false)
    else match Check(tasks, source, ds[0], fuel)
      case None => None
      case Some(true) => Some(true)
      case Some(false) => CheckAny(tasks, source, ds[1..], fuel)
  }

  /** `isCircular(sourceId, targetId)`: would making `source` depend on
      `target` close a cycle? */
  function IsCircular(tasks: seq<Task>, source: string, target: string, fuel: nat): Option<bool> {
    Check(tasks, source, target, fuel)
  }

  /** `ds` without any `x` (`filter(d => d !== x)`). */
  function RemoveAll(ds: seq<string>, x: string): (r: seq<string>)
    ensures forall y :: y in r <==> y in ds && y != x
    ensures |r| <= |ds|
  {
    if |ds| == 0 then []
    else (if ds[0] == x then [] else [ds[0]]) + RemoveAll(ds[1..], x)
  }

  /** The new dependency list of `handleLinkTask`: unlink a listed target,
      link an unlisted one at the end. */
  function ToggleDep(ds: seq<string>, target: string): seq<string> {
    if target in ds then RemoveAll(ds, target) else ds + [target]
  }

  datatype LinkOutcome = Unchanged | CircularRefused | StackOverflow | Toggled

  const CircularMessage: string := "Cannot link: Circular dependency detected."

  /** A linking source is chosen and differs from the clicked target. */
  predicate Armed(linking: Option<string>, target: string) {
    linking.Some? && linking.value != "" && linking.value != target
  }

  /** `handleLinkTask`: with a source chosen and distinct from the target,
      refuse a link that would close a cycle; otherwise toggle the target in
      the first source task's dependency list, leaving every other task as
      it was. */
  method LinkTask(tasks: seq<Task>, linking: Option<string>, target: string, fuel: nat)
    returns (r: seq<Task>, outcome: LinkOutcome)
    ensures outcome != Toggled ==> r == tasks
    ensures !Armed(linking, target) ==> outcome == Unchanged
    ensures outcome == CircularRefused <==> Armed(linking, target) && Check(tasks, linking.value, target, fuel) == Some(true)
    ensures outcome == StackOverflow <==> Armed(linking, target) && Check(tasks, linking.value, target, fuel).None?
    ensures outcome == Toggled <==>
      Armed(linking, target) && Check(tasks, linking.value, target, fuel) == Some(false)
      && FindIndex(tasks, linking.value).Some?
    ensures outcome == Toggled ==>
      var k := FindIndex(tasks, linking.value).value;
      |r| == |tasks| && r[k] == tasks[k].(dependencies := ToggleDep(tasks[k].dependencies, target))
      && (forall i :: 0 <= i < |tasks| && i != k ==> r[i] == tasks[i])
    ensures outcome == CircularRefused ==> DependsOn(tasks, target, linking.value)
    ensures Acyclic(tasks) ==> Acyclic(r)
    ensures Acyclic(tasks) && fuel >= |tasks| + 2 ==> outcome != StackOverflow
  {
    if linking.None? || linking.value == "" || linking.value == target {
      return tasks, Unchanged;
    }
    var sourceId := linking.value;
    var circular := IsCircular(tasks, sourceId, target, fuel);
    CheckDefinedBelowLength(tasks, sourceId, target, fuel);
    if circular.None? {
      return tasks, StackOverflow;
    }
    if circular.value {
      CheckTrueSound(tasks, sourceId, target, fuel);
      return tasks, CircularRefused;
    }
    var sourceTaskIndex := FindIndex(tasks, sourceId);
    if sourceTaskIndex.None? {
      return tasks, Unchanged;
    }
    var k := sourceTaskIndex.value;
    var sourceTask := tasks[k];
    var newDeps := sourceTask.dependencies;
    if target in newDeps {
      newDeps := RemoveAll(newDeps, target);
    } else {
      newDeps := newDeps + [target];
    }
    r := tasks[k := sourceTask.(dependencies := newDeps)];
    outcome := Toggled;
    CheckFalseSound(tasks, sourceId, target, fuel);
    LinkKeepsAcyclic(tasks, k, newDeps, target);
  }

  // ---------------------------------------------------------------
  // The rest of the queue
  // ---------------------------------------------------------------

  /** The row's blocked marker: some dependency is missing or not done. */
  predicate IsBlocked(tasks: seq<Task>, t: Task) {
    |t.dependencies| > 0
    && !(forall i :: 0 <= i < |t.dependencies| ==>
           FindTask(tasks, t.dependencies[i]).Some? && FindTask(tasks, t.dependencies[i]).value.done)
  }

  /** A task with `id` taken out of its dependency list. */
  function Purge(t: Task, id: string): Task {
    t.(dependencies := RemoveAll(t.dependencies, id))
  }

  /** `removeTask`: drop the task, then purge its id from every list. */
  function RemoveTask(tasks: seq<Task>, id: string): seq<Task>
    decreases |tasks|
  {
    if |tasks| == 0 then []
    else (if tasks[0].id == id then [] else [Purge(tasks[0], id)]) + RemoveTask(tasks[1..], id)
  }

  /** The task made for an imported issue. */
  function FromIssue(issue: Issue, newId: string): Task {
    Task(newId, issue.title, false, Some(issue.id), Some(issue.identifier), [], issue.assignee, issue.team, issue.project)
  }

  /** The issue ids the queue already holds (`filter(Boolean)` drops tasks
      without one and the empty id). */
  function Imported(tasks: seq<Task>): set<string> {
    set i | 0 <= i < |tasks| && tasks[i].linearId.Some? && tasks[i].linearId.value != "" :: tasks[i].linearId.value
  }

  /** One new task per issue not yet imported, in selection order; `ids`
      are the fresh ids drawn for them. */
  function NewTasks(issues: seq<Issue>, ids: seq<string>, imported: set<string>): (r: seq<Task>)
    requires |ids| == |issues|
    ensures |r| <= |issues|
    ensures forall t :: t in r ==>
      !t.done && t.dependencies == [] && t.linearId.Some? && t.linearId.value !in imported
    decreases |issues|
  {
    if |issues| == 0 then []
    else (if issues[0].id in imported then [] else [FromIssue(issues[0], ids[0])])
         + NewTasks(issues[1..], ids[1..], imported)
  }

  /** `handleLinearSelect`. */
  function LinearSelect(tasks: seq<Task>, issues: seq<Issue>, ids: seq<string>): seq<Task>
    requires |ids| == |issues|
  {
    tasks + NewTasks(issues, ids, Imported(tasks))
  }

  /** A task typed in by hand. */
  function ManualTask(newId: string, title: string): Task {
    Task(newId, title, false, None, None, [], None, None, None)
  }

  /** `addManualTask`: blank input is ignored; the title keeps its spaces. */
  function AddManualTask(tasks: seq<Task>, input: string, newId: string): seq<Task> {
    if JsText.Trim(input) == "" then tasks else tasks + [ManualTask(newId, input)]
  }

  /** `updateAssignee`. */
  function UpdateAssignee(tasks: seq<Task>, taskId: string, assignee: Option<Assignee>): (r: seq<Task>)
    ensures |r| == |tasks|
    ensures forall i :: 0 <= i < |tasks| ==> r[i] == (if tasks[i].id == taskId then tasks[i].(assignee := assignee) else tasks[i])
  {
    seq(|tasks|, i requires 0 <= i < |tasks| =>
      if tasks[i].id == taskId then tasks[i].(assignee := assignee) else tasks[i])
  }

  /** `startSession`, with the entry's id and time as parameters. */
  function StartSession(log: DayLog, entryId: string, now: int): DayLog {
    var entry := ChatEntry(entryId, now, System, "Session #" + JsText.IntToString(log.sessionCount + 1) + " Started");
    App.Merge(log, App.NoUpdates.(currentPhase := Some(Focus), timerSeconds := Some(90 * 60),
                                  isTimerRunning := Some(true), sessionLog := Some(log.sessionLog + [entry])))
  }

  /** `Array.prototype.splice` on a copy: the new array, then the removed
      elements. */
  function Splice<T>(s: seq<T>, start: nat, deleteCount: nat, items: seq<T>): (seq<T>, seq<T>)
    requires start + deleteCount <= |s|
  {
    (s[..start] + items + s[start + deleteCount..], s[start..start + deleteCount])
  }

  /** `handleDrop`: without a dragged row, or onto itself, nothing moves;
      otherwise the dragged task is cut out and inserted at the drop index. */
  method HandleDrop(tasks: seq<Task>, draggedIndex: Option<nat>, index: nat) returns (r: seq<Task>)
    requires draggedIndex.Some? ==> draggedIndex.value < |tasks| && index < |tasks|
    ensures draggedIndex.None? || draggedIndex.value == index ==> r == tasks
    ensures draggedIndex.Some? && draggedIndex.value != index ==>
      var d := draggedIndex.value;
      |r| == |tasks| && r[index] == tasks[d] && multiset(r) == multiset(tasks)
      && r[..index] + r[index + 1..] == tasks[..d] + tasks[d + 1..]
  {
    if draggedIndex.None? || draggedIndex.value == index {
      return tasks;
    }
    var d := draggedIndex.value;
    var newTasks := tasks;
    var cut := Splice(newTasks, d, 1, []);
    newTasks := cut.0;
    var movedItem := cut.1[0];
    newTasks := Splice(newTasks, index, 0, [movedItem]).0;
    r := newTasks;
    assert cut.0 == tasks[..d] + tasks[d + 1..];
    assert tasks == tasks[..d] + [tasks[d]] + tasks[d + 1..];
    assert r == cut.0[..index] + [movedItem] + cut.0[index..];
    assert r[..index] == cut.0[..index];
    assert r[index + 1..] == cut.0[index..];
    assert cut.0 == cut.0[..index] + cut.0[index..];
    assert movedItem == tasks[d];
    assert multiset(tasks) == multiset(cut.0) + multiset{movedItem};
    assert multiset(r) == multiset(cut.0[..index]) + multiset{movedItem} + multiset(cut.0[index..]);
  }

  // ---------------------------------------------------------------
  // Properties: lookups
  // ---------------------------------------------------------------

  /** The first match is the task found, and a task is found exactly when
      its id is listed. */
  lemma FindTaskFirst(tasks: seq<Task>, id: string)
    ensures FindTask(tasks, id).Some? <==> id in Ids(tasks)
    ensures FindTask(tasks, id).Some? ==> FindTask(tasks, id).value in tasks && FindTask(tasks, id).value.id == id
  {
    if id in Ids(tasks) {
      var i :| 0 <= i < |tasks| && tasks[i].id == id;
    }
  }

  /** Lookups depend only on the ids, position by position. */
  lemma {:induction false} FindIndexById(a: seq<Task>, b: seq<Task>, id: string)
    requires |a| == |b| && forall i :: 0 <= i < |a| ==> a[i].id == b[i].id
    ensures FindIndex(a, id) == FindIndex(b, id)
    decreases |a|
  {
    if |a| > 0 {
      FindIndexById(a[1..], b[1..], id);
    }
  }

  lemma {:induction false} IdsBound(tasks: seq<Task>)
    ensures |Ids(tasks)| <= |tasks|
    decreases |tasks|
  {
    if |tasks| > 0 {
      var front := tasks[..|tasks| - 1];
      IdsBound(front);
      assert Ids(tasks) == Ids(front) + {tasks[|tasks| - 1].id} by {
        forall x | x in Ids(tasks) ensures x in Ids(front) + {tasks[|tasks| - 1].id} {
          var i :| 0 <= i < |tasks| && tasks[i].id == x;
          if i < |tasks| - 1 {
            assert front[i] == tasks[i];
          }
        }
        forall x | x in Ids(front) ensures x in Ids(tasks) {
          var i :| 0 <= i < |front| && front[i].id == x;
          assert tasks[i] == front[i];
        }
      }
    }
  }

  // ---------------------------------------------------------------
  // Properties: paths
  // ---------------------------------------------------------------

  lemma PathConcat(tasks: seq<Task>, p: seq<string>, q: seq<string>)
    requires IsPath(tasks, p) && IsPath(tasks, q) && p[|p| - 1] == q[0]
    ensures IsPath(tasks, p + q[1..]) && (p + q[1..])[0] == p[0] && (p + q[1..])[|p + q[1..]| - 1] == q[|q| - 1]
  {
    var r := p + q[1..];
    forall i | 0 <= i < |r| - 1 ensures Edge(tasks, r[i], r[i + 1]) {
      if i < |p| - 1 {
        assert r[i] == p[i] && r[i + 1] == p[i + 1];
      } else {
        assert r[i] == q[i - |p| + 1] && r[i + 1] == q[i - |p| + 2];
      }
    }
  }

  lemma DependsTrans(tasks: seq<Task>, a: string, b: string, c: string)
    requires DependsOn(tasks, a, b) && DependsOn(tasks, b, c)
    ensures DependsOn(tasks, a, c)
  {
    var p :| IsPath(tasks, p) && p[0] == a && p[|p| - 1] == b;
    var q :| IsPath(tasks, q) && q[0] == b && q[|q| - 1] == c;
    PathConcat(tasks, p, q);
  }

  lemma EdgeDepends(tasks: seq<Task>, a: string, b: string)
    requires Edge(tasks, a, b)
    ensures DependsOn(tasks, a, b)
  {
    assert IsPath(tasks, [a, b]);
  }

  lemma PathTail(tasks: seq<Task>, p: seq<string>)
    requires IsPath(tasks, p) && |p| > 2
    ensures IsPath(tasks, p[1..]) && DependsOn(tasks, p[1], p[|p| - 1])
  {
    var q := p[1..];
    forall i | 0 <= i < |q| - 1 ensures Edge(tasks, q[i], q[i + 1]) {
      assert q[i] == p[i + 1] && q[i + 1] == p[i + 2];
    }
    assert q[0] == p[1] && q[|q| - 1] == p[|p| - 1];
  }

  // ---------------------------------------------------------------
  // Properties: the cycle check
  // ---------------------------------------------------------------

  lemma {:induction false} AnyTrue(tasks: seq<Task>, s: string, ds: seq<string>, f: nat)
    requires CheckAny(tasks, s, ds, f) == Some(true)
    ensures exists i :: 0 <= i < |ds| && Check(tasks, s, ds[i], f) == Some(true)
    decreases |ds|
  {
    if Check(tasks, s, ds[0], f) != Some(true) {
      AnyTrue(tasks, s, ds[1..], f);
      var i :| 0 <= i < |ds[1..]| && Check(tasks, s, ds[1..][i], f) == Some(true);
      assert ds[1..][i] == ds[i + 1];
    }
  }

  lemma {:induction false} AnyNotFalse(tasks: seq<Task>, s: string, ds: seq<string>, f: nat, i: nat)
    requires i < |ds| && Check(tasks, s, ds[i], f) != Some(false)
    ensures CheckAny(tasks, s, ds, f) != Some(false)
    decreases |ds|
  {
    if i > 0 && Check(tasks, s, ds[0], f) == Some(false) {
      assert ds[1..][i - 1] == ds[i];
      AnyNotFalse(tasks, s, ds[1..], f, i - 1);
    }
  }

  lemma {:induction false} AnyDefined(tasks: seq<Task>, s: string, ds: seq<string>, f: nat)
    requires forall i :: 0 <= i < |ds| ==> Check(tasks, s, ds[i], f).Some?
    ensures CheckAny(tasks, s, ds, f).Some?
    decreases |ds|
  {
    if |ds| > 0 {
      assert forall i :: 0 <= i < |ds[1..]| ==> ds[1..][i] == ds[i + 1];
      AnyDefined(tasks, s, ds[1..], f);
    }
  }

  /** A `true` answer names a real chain from `current` to `source`. */
  lemma {:induction false} CheckTrueSound(tasks: seq<Task>, s: string, current: string, fuel: nat)
    requires Check(tasks, s, current, fuel) == Some(true)
    ensures DependsOn(tasks, current, s)
    decreases fuel
  {
    var t := FindTask(tasks, current).value;
    if s in t.dependencies {
      EdgeDepends(tasks, current, s);
    } else {
      AnyTrue(tasks, s, t.dependencies, fuel - 1);
      var i :| 0 <= i < |t.dependencies| && Check(tasks, s, t.dependencies[i], fuel - 1) == Some(true);
      CheckTrueSound(tasks, s, t.dependencies[i], fuel - 1);
      EdgeDepends(tasks, current, t.dependencies[i]);
      DependsTrans(tasks, current, t.dependencies[i], s);
    }
  }

  /** Along any chain from `current` to `source` the check never answers
      `false`: it finds the chain or runs out of stack. */
  lemma {:induction false} CheckComplete(tasks: seq<Task>, s: string, current: string, fuel: nat, p: seq<string>)
    requires IsPath(tasks, p) && p[0] == current && p[|p| - 1] == s
    ensures Check(tasks, s, current, fuel) != Some(false)
    decreases fuel
  {
    if fuel > 0 {
      assert Edge(tasks, p[0], p[1]);
      var t := FindTask(tasks, current).value;
      if s !in t.dependencies {
        assert |p| > 2;
        PathTail(tasks, p);
        CheckComplete(tasks, s, p[1], fuel - 1, p[1..]);
        var i :| 0 <= i < |t.dependencies| && t.dependencies[i] == p[1];
        AnyNotFalse(tasks, s, t.dependencies, fuel - 1, i);
      }
    }
  }

  /** A `false` answer means there is no chain. */
  lemma CheckFalseSound(tasks: seq<Task>, s: string, current: string, fuel: nat)
    ensures Check(tasks, s, current, fuel) == Some(false) ==> !DependsOn(tasks, current, s)
  {
    forall p | IsPath(tasks, p) && p[0] == current && p[|p| - 1] == s
      ensures Check(tasks, s, current, fuel) != Some(false)
    {
      CheckComplete(tasks, s, current, fuel, p);
    }
  }

  /** `isCircular(s, t)` answers exactly whether `t` already depends on `s`,
      whenever it answers. */
  lemma IsCircularMeans(tasks: seq<Task>, s: string, t: string, fuel: nat)
    ensures IsCircular(tasks, s, t, fuel) == Some(true) ==> DependsOn(tasks, t, s)
    ensures IsCircular(tasks, s, t, fuel) == Some(false) ==> !DependsOn(tasks, t, s)
  {
    if IsCircular(tasks, s, t, fuel) == Some(true) {
      CheckTrueSound(tasks, s, t, fuel);
    }
    CheckFalseSound(tasks, s, t, fuel);
  }

  /** What a task depends on includes what its dependencies depend on, but
      not, in an acyclic graph, the dependency itself. */
  lemma ReachShrinks(tasks: seq<Task>, current: string, d: string)
    requires Acyclic(tasks) && Edge(tasks, current, d) && d in Ids(tasks)
    ensures ReachSet(tasks, d) <= ReachSet(tasks, current) - {d}
    ensures d in ReachSet(tasks, current)
  {
    EdgeDepends(tasks, current, d);
    forall x | x in ReachSet(tasks, d) ensures x in ReachSet(tasks, current) - {d} {
      DependsTrans(tasks, current, d, x);
    }
  }

  lemma SubsetSmaller<T>(a: set<T>, b: set<T>, d: T)
    requires a <= b - {d} && d in b
    ensures |a| < |b|
  {
    var c := b - {d};
    assert |c| == |b| - 1;
    assert a * c == a;
    assert |c| == |c - a| + |a|;
  }

  /** On an acyclic graph the check answers once the stack allows two more
      nested calls than there are tasks `current` depends on. */
  lemma {:induction false} CheckDefined(tasks: seq<Task>, s: string, current: string, fuel: nat)
    requires Acyclic(tasks) && fuel >= |ReachSet(tasks, current)| + 2
    ensures Check(tasks, s, current, fuel).Some?
    decreases fuel
  {
    var found := FindTask(tasks, current);
    if found.Some? && s !in found.value.dependencies {
      var ds := found.value.dependencies;
      forall i | 0 <= i < |ds| ensures Check(tasks, s, ds[i], fuel - 1).Some? {
        FindTaskFirst(tasks, ds[i]);
        if ds[i] in Ids(tasks) {
          ReachShrinks(tasks, current, ds[i]);
          SubsetSmaller(ReachSet(tasks, ds[i]), ReachSet(tasks, current), ds[i]);
          CheckDefined(tasks, s, ds[i], fuel - 1);
        }
      }
      AnyDefined(tasks, s, ds, fuel - 1);
    }
  }

  lemma CheckDefinedBelowLength(tasks: seq<Task>, s: string, current: string, fuel: nat)
    ensures Acyclic(tasks) && fuel >= |tasks| + 2 ==> Check(tasks, s, current, fuel).Some?
  {
    if Acyclic(tasks) && fuel >= |tasks| + 2 {
      IdsBound(tasks);
      assert ReachSet(tasks, current) <= Ids(tasks);
      SubsetCard(ReachSet(tasks, current), Ids(tasks));
      CheckDefined(tasks, s, current, fuel);
    }
  }

  lemma SubsetCard<T>(a: set<T>, b: set<T>)
    requires a <= b
    ensures |a| <= |b|
  {
    assert a * b == a;
    assert |b| == |b - a| + |a|;
  }

  // ---------------------------------------------------------------
  // Properties: linking keeps the graph acyclic
  // ---------------------------------------------------------------

  /** Rewriting the first source task's list within its old entries plus
      the target adds at most the link from source to target. */
  lemma UpdatedEdges(tasks: seq<Task>, k: nat, newDeps: seq<string>, target: string, a: string, b: string)
    requires k < |tasks| && FindIndex(tasks, tasks[k].id) == Some(k)
    requires forall x :: x in newDeps ==> x in tasks[k].dependencies || x == target
    ensures var updated := tasks[k := tasks[k].(dependencies := newDeps)];
      Edge(updated, a, b) ==> Edge(tasks, a, b) || (a == tasks[k].id && b == target)
  {
    var updated := tasks[k := tasks[k].(dependencies := newDeps)];
    FindIndexById(tasks, updated, a);
  }

  /** Any chain after the update either existed before or runs through the
      new link: from `a` to the source, then from the target to `b`. */
  lemma {:induction false} LinkedReach(tasks: seq<Task>, k: nat, newDeps: seq<string>, target: string, p: seq<string>)
    requires k < |tasks| && FindIndex(tasks, tasks[k].id) == Some(k)
    requires forall x :: x in newDeps ==> x in tasks[k].dependencies || x == target
    requires IsPath(tasks[k := tasks[k].(dependencies := newDeps)], p)
    ensures var a, b, src := p[0], p[|p| - 1], tasks[k].id;
      DependsOn(tasks, a, b)
      || ((a == src || DependsOn(tasks, a, src)) && (b == target || DependsOn(tasks, target, b)))
    decreases |p|
  {
    var updated := tasks[k := tasks[k].(dependencies := newDeps)];
    var a, c, b, src := p[0], p[1], p[|p| - 1], tasks[k].id;
    assert Edge(updated, a, c);
    UpdatedEdges(tasks, k, newDeps, target, a, c);
    if |p| > 2 {
      var q := p[1..];
      PathTail(updated, p);
      LinkedReach(tasks, k, newDeps, target, q);
      assert q[0] == c && q[|q| - 1] == b;
      if Edge(tasks, a, c) {
        EdgeDepends(tasks, a, c);
        if DependsOn(tasks, c, b) {
          DependsTrans(tasks, a, c, b);
        } else if c != src {
          DependsTrans(tasks, a, c, src);
        }
      } else if DependsOn(tasks, c, b) {
        assert a == src && c == target;
      }
    } else {
      if Edge(tasks, a, c) {
        EdgeDepends(tasks, a, c);
      }
    }
  }

  /** With no chain from the target back to the source, toggling the link
      keeps an acyclic graph acyclic. */
  lemma LinkKeepsAcyclic(tasks: seq<Task>, k: nat, newDeps: seq<string>, target: string)
    requires k < |tasks| && FindIndex(tasks, tasks[k].id) == Some(k)
    requires forall x :: x in newDeps ==> x in tasks[k].dependencies || x == target
    ensures Acyclic(tasks) && !DependsOn(tasks, target, tasks[k].id) && tasks[k].id != target ==>
      Acyclic(tasks[k := tasks[k].(dependencies := newDeps)])
  {
    var updated := tasks[k := tasks[k].(dependencies := newDeps)];
    var src := tasks[k].id;
    forall p | IsPath(updated, p) && p[0] == p[|p| - 1]
      ensures DependsOn(tasks, p[0], p[0]) || DependsOn(tasks, target, src) || src == target
    {
      var a := p[0];
      LinkedReach(tasks, k, newDeps, target, p);
      if !DependsOn(tasks, a, a) && a != src && a != target {
        DependsTrans(tasks, target, a, src);
      }
    }
  }

  /** Linking and then unlinking the same target restores the list. */
  lemma ToggleTwice(ds: seq<string>, target: string)
    requires target !in ds
    ensures ToggleDep(ToggleDep(ds, target), target) == ds
  {
    RemoveAbsent(ds, target);
    RemoveAllAppend(ds, [target], target);
  }

  lemma {:induction false} RemoveAbsent(ds: seq<string>, x: string)
    requires x !in ds
    ensures RemoveAll(ds, x) == ds
    decreases |ds|
  {
    if |ds| > 0 {
      RemoveAbsent(ds[1..], x);
    }
  }

  lemma {:induction false} RemoveAllAppend(a: seq<string>, b: seq<string>, x: string)
    ensures RemoveAll(a + b, x) == RemoveAll(a, x) + RemoveAll(b, x)
    decreases |a|
  {
    if |a| == 0 {
      assert a + b == b;
    } else {
      assert (a + b)[0] == a[0] && (a + b)[1..] == a[1..] + b;
      RemoveAllAppend(a[1..], b, x);
    }
  }

  // ---------------------------------------------------------------
  // Properties: removing, importing and adding tasks
  // ---------------------------------------------------------------

  /** After `removeTask` no task has the id and no list mentions it, and
      every remaining task is a purged original with another id. */
  lemma {:induction false} RemoveTaskPurges(tasks: seq<Task>, id: string)
    ensures forall t :: t in RemoveTask(tasks, id) ==> t.id != id && id !in t.dependencies
    ensures forall t :: t in RemoveTask(tasks, id) ==> exists u :: u in tasks && u.id != id && t == Purge(u, id)
    ensures forall u :: u in tasks && u.id != id ==> Purge(u, id) in RemoveTask(tasks, id)
    decreases |tasks|
  {
    if |tasks| > 0 {
      RemoveTaskPurges(tasks[1..], id);
      assert forall u :: u in tasks[1..] ==> u in tasks;
      assert forall u :: u in tasks ==> u == tasks[0] || u in tasks[1..];
    }
  }

  /** `removeTask` works task by task: on a concatenation it is the
      concatenation of the results, so the survivors keep their order. */
  lemma {:induction false} RemoveTaskAppend(a: seq<Task>, b: seq<Task>, id: string)
    ensures RemoveTask(a + b, id) == RemoveTask(a, id) + RemoveTask(b, id)
    decreases |a|
  {
    if |a| == 0 {
      assert a + b == b;
    } else {
      assert (a + b)[0] == a[0] && (a + b)[1..] == a[1..] + b;
      RemoveTaskAppend(a[1..], b, id);
    }
  }

  /** One task is dropped when it has the id and purged otherwise; a purge
      touches only the dependency list; a second removal changes nothing. */
  lemma RemoveTaskSingle(t: Task, id: string, ts: seq<Task>)
    ensures RemoveTask([t], id) == (if t.id == id then [] else [Purge(t, id)])
    ensures Purge(t, id) == t.(dependencies := RemoveAll(t.dependencies, id))
    ensures forall d :: d in Purge(t, id).dependencies <==> d in t.dependencies && d != id
    ensures RemoveTask(RemoveTask(ts, id), id) == RemoveTask(ts, id)
  {
    assert [t][1..] == [];
    RemoveTaskPurges(ts, id);
    RemoveTaskUntouched(RemoveTask(ts, id), id);
  }

  /** Where the id is neither a task nor a dependency, removal changes
      nothing. */
  lemma {:induction false} RemoveTaskUntouched(tasks: seq<Task>, id: string)
    requires forall t :: t in tasks ==> t.id != id && id !in t.dependencies
    ensures RemoveTask(tasks, id) == tasks
    decreases |tasks|
  {
    if |tasks| > 0 {
      assert tasks[0] in tasks;
      RemoveAbsent(tasks[0].dependencies, id);
      assert forall u :: u in tasks[1..] ==> u in tasks;
      RemoveTaskUntouched(tasks[1..], id);
      assert tasks == [tasks[0]] + tasks[1..];
    }
  }

  /** Every issue not yet imported gets a task carrying its id. */
  lemma {:induction false} NewTasksCover(issues: seq<Issue>, ids: seq<string>, imported: set<string>, i: nat)
    requires |ids| == |issues| && i < |issues| && issues[i].id !in imported
    ensures FromIssue(issues[i], ids[i]) in NewTasks(issues, ids, imported)
    decreases |issues|
  {
    if i > 0 {
      assert issues[1..][i - 1] == issues[i] && ids[1..][i - 1] == ids[i];
      NewTasksCover(issues[1..], ids[1..], imported, i - 1);
    }
  }

  /** Only issues not yet imported get a task. */
  lemma {:induction false} NewTasksFrom(issues: seq<Issue>, ids: seq<string>, imported: set<string>)
    requires |ids| == |issues|
    ensures forall t :: t in NewTasks(issues, ids, imported) ==>
      exists i :: 0 <= i < |issues| && issues[i].id !in imported && t == FromIssue(issues[i], ids[i])
    decreases |issues|
  {
    if |issues| > 0 {
      NewTasksFrom(issues[1..], ids[1..], imported);
      forall t | t in NewTasks(issues, ids, imported)
        ensures exists i :: 0 <= i < |issues| && issues[i].id !in imported && t == FromIssue(issues[i], ids[i])
      {
        if t !in NewTasks(issues[1..], ids[1..], imported) {
          assert issues[0].id !in imported && t == FromIssue(issues[0], ids[0]);
        } else {
          var j :| 0 <= j < |issues[1..]| && issues[1..][j].id !in imported && t == FromIssue(issues[1..][j], ids[1..][j]);
          assert issues[1..][j] == issues[j + 1] && ids[1..][j] == ids[j + 1];
        }
      }
    }
  }

  lemma {:induction false} NewTasksNone(issues: seq<Issue>, ids: seq<string>, imported: set<string>)
    requires |ids| == |issues| && forall i :: 0 <= i < |issues| ==> issues[i].id in imported
    ensures NewTasks(issues, ids, imported) == []
    decreases |issues|
  {
    if |issues| > 0 {
      assert forall i :: 0 <= i < |issues[1..]| ==> issues[1..][i] == issues[i + 1];
      NewTasksNone(issues[1..], ids[1..], imported);
    }
  }

  /** Importing keeps the queue as a prefix and appends, for exactly the
      issues not yet imported, a fresh undone task without dependencies;
      importing the same issues again adds nothing when their ids are not
      empty. */
  lemma LinearSelectEffect(tasks: seq<Task>, issues: seq<Issue>, ids: seq<string>, ids2: seq<string>)
    requires |ids| == |issues| && |ids2| == |issues|
    ensures var r := LinearSelect(tasks, issues, ids);
      r[..|tasks|] == tasks
      && (forall t :: t in r[|tasks|..] ==>
            !t.done && t.dependencies == [] && t.linearId.Some? && t.linearId.value !in Imported(tasks))
      && (forall i :: 0 <= i < |issues| && issues[i].id !in Imported(tasks) ==> FromIssue(issues[i], ids[i]) in r)
    ensures (forall i :: 0 <= i < |issues| ==> issues[i].id != "") ==>
      LinearSelect(LinearSelect(tasks, issues, ids), issues, ids2) == LinearSelect(tasks, issues, ids)
  {
    var added := NewTasks(issues, ids, Imported(tasks));
    var r := tasks + added;
    assert r[|tasks|..] == added;
    forall i | 0 <= i < |issues| && issues[i].id !in Imported(tasks) ensures FromIssue(issues[i], ids[i]) in r {
      NewTasksCover(issues, ids, Imported(tasks), i);
    }
    if forall i :: 0 <= i < |issues| ==> issues[i].id != "" {
      forall i | 0 <= i < |issues| ensures issues[i].id in Imported(r) {
        if issues[i].id in Imported(tasks) {
          var j :| 0 <= j < |tasks| && tasks[j].linearId.Some? && tasks[j].linearId.value != ""
                   && tasks[j].linearId.value == issues[i].id;
          assert r[j] == tasks[j];
        } else {
          NewTasksCover(issues, ids, Imported(tasks), i);
          var t := FromIssue(issues[i], ids[i]);
          var j :| 0 <= j < |r| && r[j] == t;
        }
      }
      NewTasksNone(issues, ids2, Imported(r));
      assert r + [] == r;
    }
  }

  /** Blank input leaves the queue alone; anything else appends exactly one
      undone manual task titled with the input as typed. */
  lemma AddManualTaskEffect(tasks: seq<Task>, input: string, newId: string)
    ensures (forall i :: 0 <= i < |input| ==> JsText.IsJsWhitespace(input[i])) ==> AddManualTask(tasks, input, newId) == tasks
    ensures (exists i :: 0 <= i < |input| && !JsText.IsJsWhitespace(input[i])) ==>
      AddManualTask(tasks, input, newId) == tasks + [ManualTask(newId, input)]
      && !ManualTask(newId, input).done && ManualTask(newId, input).dependencies == []
  {
    JsText.TrimEmptyIffBlank(input);
  }

  /** Reassigning touches only the assignee of the tasks with that id, so
      the dependency graph and every lookup's id are unchanged, and doing it
      twice is doing it once. */
  lemma UpdateAssigneeEffect(tasks: seq<Task>, taskId: string, assignee: Option<Assignee>, a: string, b: string)
    ensures var r := UpdateAssignee(tasks, taskId, assignee);
      (forall i :: 0 <= i < |tasks| ==> r[i].id == tasks[i].id && r[i].dependencies == tasks[i].dependencies
                                        && r[i].done == tasks[i].done)
      && (forall i :: 0 <= i < |tasks| && tasks[i].id == taskId ==> r[i].assignee == assignee)
      && (Edge(r, a, b) <==> Edge(tasks, a, b))
      && UpdateAssignee(r, taskId, assignee) == r
  {
    var r := UpdateAssignee(tasks, taskId, assignee);
    FindIndexById(tasks, r, a);
  }

  /** `startSession` starts a running ninety-minute focus session from any
      phase, logs one entry naming the next session number, and leaves the
      count and the active task for the session end to change. */
  lemma StartSessionEffect(log: DayLog, entryId: string, now: int)
    ensures var r := StartSession(log, entryId, now);
      r.currentPhase == Focus && r.timerSeconds == 5400 && r.isTimerRunning
      && r.sessionCount == log.sessionCount && r.activeTaskId == log.activeTaskId && r.tasks == log.tasks
      && |r.sessionLog| == |log.sessionLog| + 1 && r.sessionLog[..|log.sessionLog|] == log.sessionLog
      && r.sessionLog[|log.sessionLog|].sender == System
    ensures log.sessionCount >= 0 ==>
      StartSession(log, entryId, now).sessionLog[|log.sessionLog|].message
      == "Session #" + JsText.NatToString(log.sessionCount + 1) + " Started"
  {
  }

  /** Planner's blocked marker: a listed dependency that is missing counts
      as blocking, as does one that is not done; a task whose dependencies
      all exist and are done is not blocked. */
  lemma BlockedMeans(tasks: seq<Task>, t: Task)
    ensures IsBlocked(tasks, t) <==>
      exists i :: 0 <= i < |t.dependencies|
        && (FindTask(tasks, t.dependencies[i]).None? || !FindTask(tasks, t.dependencies[i]).value.done)
    ensures t.dependencies == [] ==> !IsBlocked(tasks, t)
  {
  }
}
