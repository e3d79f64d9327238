/** From a session to the list of tasks that carries it out (rejilla-caps-burn.c, new_task): find a chain,
    group its plugins into tasks, add processing plugins, and slip in an erase task when the medium has to
    be blanked first. */
module NewTask {
  import opened Flags
  import opened Plugins
  import opened Caps
  import opened BestLink

  datatype JobKind = LinkJob | ModifierJob | EraserJob

  datatype Job = Job(plugin: Plugin, output: TrackType, kind: JobKind)

  datatype TaskAction = ActionNone | ActionErase | ActionNormal | ActionChecksum

  datatype Task = Task(action: TaskAction, jobs: seq<Job>)

  // ----- reading a task list -----

  function LinkJobs(jobs: seq<Job>): seq<Job> {
    if jobs == [] then []
    else
      var rest, last := LinkJobs(jobs[..|jobs| - 1]), jobs[|jobs| - 1];
      if last.kind == LinkJob then rest + [last] else rest
  }

  /** The jobs of the chain, task by task; tasks without any are left out. */
  function Groups(tasks: seq<Task>): seq<seq<Job>> {
    if tasks == [] then []
    else
      var rest, last := Groups(tasks[..|tasks| - 1]), LinkJobs(tasks[|tasks| - 1].jobs);
      if last == [] then rest else rest + [last]
  }

  function Concat(groups: seq<seq<Job>>): seq<Job> {
    if groups == [] then [] else Concat(groups[..|groups| - 1]) + groups[|groups| - 1]
  }

  predicate AllProcessing(tasks: seq<Task>) {
    forall t :: 0 <= t < |tasks| ==> tasks[t].action == ActionNormal && LinkJobs(tasks[t].jobs) == []
  }

  lemma {:induction false} LinkJobsAppend(jobs: seq<Job>, job: Job)
    ensures LinkJobs(jobs + [job]) == if job.kind == LinkJob then LinkJobs(jobs) + [job] else LinkJobs(jobs)
  {
    assert (jobs + [job])[..|jobs|] == jobs;
  }

  lemma {:induction false} GroupsConcat(a: seq<Task>, b: seq<Task>)
    ensures Groups(a + b) == Groups(a) + Groups(b)
  {
    if b == [] {
      assert a + b == a;
    } else {
      GroupsConcat(a, b[..|b| - 1]);
      assert (a + b)[..|a + b| - 1] == a + b[..|b| - 1];
    }
  }

  lemma {:induction false} ProcessingHasNoGroups(tasks: seq<Task>)
    requires forall t :: 0 <= t < |tasks| ==> LinkJobs(tasks[t].jobs) == []
    ensures Groups(tasks) == []
  {
    if tasks != [] {
      ProcessingHasNoGroups(tasks[..|tasks| - 1]);
    }
  }

  lemma {:induction false} GroupsOne(task: Task)
    ensures Groups([task]) == if LinkJobs(task.jobs) == [] then [] else [LinkJobs(task.jobs)]
  {
    assert [task][..0] == [];
  }

  /** A job as it runs: `joins` if it runs in one task with the job before it. */
  datatype Slot = Slot(job: Job, joins: bool)

  function SlotsOf(jobs: seq<Job>): (r: seq<Slot>)
    ensures |r| == |jobs|
  {
    seq(|jobs|, k requires 0 <= k < |jobs| => Slot(jobs[k], k > 0))
  }

  /** All jobs but the eraser's, in the order in which they run. */
  function Slots(tasks: seq<Task>): seq<Slot> {
    if tasks == [] then []
    else
      var last := tasks[|tasks| - 1];
      Slots(tasks[..|tasks| - 1]) + if last.action == ActionErase then [] else SlotsOf(last.jobs)
  }

  lemma {:induction false} SlotsConcat(a: seq<Task>, b: seq<Task>)
    ensures Slots(a + b) == Slots(a) + Slots(b)
  {
    hide SlotsOf;
    if b == [] {
      assert a + b == a;
    } else {
      var init, last := b[..|b| - 1], b[|b| - 1];
      SlotsConcat(a, init);
      assert (a + b)[..|a + b| - 1] == a + init && (a + b)[|a + b| - 1] == last;
      var own := if last.action == ActionErase then [] else SlotsOf(last.jobs);
      assert Slots(a) + (Slots(init) + own) == Slots(a + init) + own;
    }
  }

  lemma {:induction false} SlotsOne(task: Task)
    ensures Slots([task]) == if task.action == ActionErase then [] else SlotsOf(task.jobs)
  {
    assert [task][..0] == [];
  }

  lemma {:induction false} SlotsLast(tasks: seq<Task>, last: Task)
    requires tasks != []
    ensures Slots(tasks[|tasks| - 1 := last]) == Slots(tasks[..|tasks| - 1]) + Slots([last])
  {
    assert tasks[|tasks| - 1 := last] == tasks[..|tasks| - 1] + [last];
    SlotsConcat(tasks[..|tasks| - 1], [last]);
  }

  // ----- the chain as jobs -----

  predicate Nodes(g: Graph, nodes: seq<Node>) {
    forall i :: 0 <= i < |nodes| ==> nodes[i].link.target.Some? && nodes[i].link.target.value < |g|
  }

  /** Job i of a chain in input-to-output order: it produces what the next node takes, the last one the
      requested output. */
  function JobOf(g: Graph, nodes: seq<Node>, i: nat, output: TrackType): Job
    requires Nodes(g, nodes) && i < |nodes|
  {
    Job(nodes[i].plugin, if i + 1 < |nodes| then g[nodes[i + 1].link.target.value].typ else output, LinkJob)
  }

  function JobsOf(g: Graph, nodes: seq<Node>, n: nat, output: TrackType): (r: seq<Job>)
    requires Nodes(g, nodes) && n <= |nodes|
    ensures |r| == n
  {
    seq(n, i requires 0 <= i < n => JobOf(g, nodes, i, output))
  }

  /** Job i may read its predecessor's output through a pipe. */
  predicate Shares(g: Graph, nodes: seq<Node>, i: nat, noTmp: bool)
    requires Nodes(g, nodes) && i < |nodes|
  {
    noTmp && Pipe in g[nodes[i].link.target.value].io
  }

  /** The k-th job of group t sits behind another one exactly when it shares with its predecessor. */
  predicate PlacedBySharing(g: Graph, nodes: seq<Node>, noTmp: bool, groups: seq<seq<Job>>, t: nat, k: nat)
    requires Nodes(g, nodes) && t <= |groups|
  {
    var i := |Concat(groups[..t])| + k;
    i < |nodes| && (k > 0 <==> i > 0 && Shares(g, nodes, i, noTmp))
  }

  predicate GroupedBySharing(g: Graph, nodes: seq<Node>, noTmp: bool, groups: seq<seq<Job>>)
    requires Nodes(g, nodes)
  {
    forall t, k :: 0 <= t < |groups| && 0 <= k < |groups[t]| ==> PlacedBySharing(g, nodes, noTmp, groups, t, k)
  }

  lemma {:induction false} ConcatPrefixes(groups: seq<seq<Job>>, t: nat, k: nat)
    requires t < |groups| && k < |groups[t]|
    ensures |Concat(groups[..t])| + k < |Concat(groups)|
    ensures Concat(groups)[|Concat(groups[..t])| + k] == groups[t][k]
  {
    var init := groups[..|groups| - 1];
    if t < |init| {
      ConcatPrefixes(init, t, k);
      assert init[..t] == groups[..t];
    }
  }

  lemma {:induction false} NewGroup(g: Graph, nodes: seq<Node>, noTmp: bool, groups: seq<seq<Job>>, job: Job)
    requires Nodes(g, nodes) && |Concat(groups)| < |nodes| && GroupedBySharing(g, nodes, noTmp, groups)
    requires |Concat(groups)| > 0 ==> !Shares(g, nodes, |Concat(groups)|, noTmp)
    ensures Concat(groups + [[job]]) == Concat(groups) + [job]
    ensures GroupedBySharing(g, nodes, noTmp, groups + [[job]])
  {
    var more := groups + [[job]];
    assert more[..|groups|] == groups;
    forall t, k | 0 <= t < |more| && 0 <= k < |more[t]|
      ensures PlacedBySharing(g, nodes, noTmp, more, t, k)
    {
      assert more[..t] == groups[..t];
      if t == |groups| {
        assert groups[..t] == groups;
      } else {
        assert PlacedBySharing(g, nodes, noTmp, groups, t, k);
      }
    }
  }

  lemma {:induction false} SameGroup(g: Graph, nodes: seq<Node>, noTmp: bool, groups: seq<seq<Job>>, job: Job)
    requires Nodes(g, nodes) && groups != [] && groups[|groups| - 1] != []
    requires |Concat(groups)| < |nodes| && GroupedBySharing(g, nodes, noTmp, groups)
    requires Shares(g, nodes, |Concat(groups)|, noTmp)
    ensures var more := groups[..|groups| - 1] + [groups[|groups| - 1] + [job]];
            Concat(more) == Concat(groups) + [job] && GroupedBySharing(g, nodes, noTmp, more)
  {
    var last := |groups| - 1;
    var more := groups[..last] + [groups[last] + [job]];
    assert more[..last] == groups[..last];
    forall t, k | 0 <= t < |more| && 0 <= k < |more[t]|
      ensures PlacedBySharing(g, nodes, noTmp, more, t, k)
    {
      assert more[..t] == groups[..t];
      if t == last && k == |groups[last]| {
        assert Concat(groups) == Concat(groups[..last]) + groups[last];
      } else {
        assert PlacedBySharing(g, nodes, noTmp, groups, t, k);
      }
    }
  }

  // ----- processing plugins -----

  function InsertByPriority(list: seq<Plugin>, plugin: Plugin): (r: seq<Plugin>)
    ensures multiset(r) == multiset(list) + multiset{plugin}
    ensures forall m :: m in r <==> m in list || m == plugin
  {
    if list == [] || plugin.priority < list[0].priority then [plugin] + list
    else
      assert list == [list[0]] + list[1..];
      [list[0]] + InsertByPriority(list[1..], plugin)
  }

  /** Stable sort by rising priority. */
  function SortModifiers(list: seq<Plugin>): (r: seq<Plugin>)
    ensures multiset(r) == multiset(list) && forall m :: m in r <==> m in list
  {
    if list == [] then []
    else
      assert list == list[..|list| - 1] + [list[|list| - 1]];
      InsertByPriority(SortModifiers(list[..|list| - 1]), list[|list| - 1])
  }

  predicate Rising(list: seq<Plugin>) {
    forall i, j :: 0 <= i < j < |list| ==> list[i].priority <= list[j].priority
  }

  lemma {:induction false} InsertRising(list: seq<Plugin>, plugin: Plugin)
    requires Rising(list)
    ensures Rising(InsertByPriority(list, plugin))
  {
    if list != [] && list[0].priority <= plugin.priority {
      InsertRising(list[1..], plugin);
      var rest := InsertByPriority(list[1..], plugin);
      forall i | 0 <= i < |rest| ensures list[0].priority <= rest[i].priority {
        assert rest[i] in rest;
      }
    }
  }

  lemma {:induction false} SortedRising(list: seq<Plugin>)
    ensures Rising(SortModifiers(list)) && multiset(SortModifiers(list)) == multiset(list)
  {
    if list != [] {
      SortedRising(list[..|list| - 1]);
      InsertRising(SortModifiers(list[..|list| - 1]), list[|list| - 1]);
    }
  }

  /** The active plugins meant for this position, in order. */
  function Chosen(modifiers: seq<Plugin>, position: Position): (r: seq<Plugin>)
    ensures forall m :: m in r <==> m in modifiers && GetActive(m, false) && position in m.processFlags
  {
    if modifiers == [] then []
    else
      var rest, last := Chosen(modifiers[..|modifiers| - 1], position), modifiers[|modifiers| - 1];
      assert modifiers == modifiers[..|modifiers| - 1] + [last];
      if GetActive(last, false) && position in last.processFlags then rest + [last] else rest
  }

  function ModifierJobs(plugins: seq<Plugin>, io: TrackType): seq<Job> {
    seq(|plugins|, k requires 0 <= k < |plugins| => Job(plugins[k], io, ModifierJob))
  }

  /** A task for each job, the latest first. */
  function TaskEach(jobs: seq<Job>): seq<Task> {
    if jobs == [] then [] else [Task(ActionNormal, [jobs[|jobs| - 1]])] + TaskEach(jobs[..|jobs| - 1])
  }

  /** Where the jobs of the processing plugins go: into the running task (or one new task) when data flows through
      pipes, into tasks of their own otherwise. */
  datatype Placement = Placement(grown: Option<Task>, created: seq<Task>)

  function Placed(task: Option<Task>, shared: bool, jobs: seq<Job>): Placement {
    if !shared then Placement(task, TaskEach(jobs))
    else if task.Some? then Placement(Some(task.value.(jobs := task.value.jobs + jobs)), [])
    else Placement(None, if jobs == [] then [] else [Task(ActionNormal, jobs)])
  }

  /** One more job, given where the others are. */
  function PlaceOne(p: Placement, shared: bool, job: Job): Placement {
    if (p.grown.None? && p.created == []) || !shared then
      p.(created := [Task(ActionNormal, [job])] + p.created)
    else if p.created != [] then
      p.(created := p.created[0 := p.created[0].(jobs := p.created[0].jobs + [job])])
    else p.(grown := Some(p.grown.value.(jobs := p.grown.value.jobs + [job])))
  }

  lemma {:induction false} PlaceOneMore(task: Option<Task>, shared: bool, jobs: seq<Job>, job: Job)
    ensures Placed(task, shared, jobs + [job]) == PlaceOne(Placed(task, shared, jobs), shared, job)
  {
    assert (jobs + [job])[..|jobs|] == jobs && (jobs == [] ==> jobs + [job] == [job]);
    if task.Some? {
      assert task.value.jobs + (jobs + [job]) == task.value.jobs + jobs + [job];
    }
    var one := [Task(ActionNormal, [job])];
    assert one + [] == one;
  }

  lemma {:induction false} ModifiersAreNoLinks(jobs: seq<Job>, more: seq<Job>)
    requires forall j :: j in more ==> j.kind == ModifierJob
    ensures LinkJobs(jobs + more) == LinkJobs(jobs)
  {
    if more == [] {
      assert jobs + more == jobs;
    } else {
      var init, last := more[..|more| - 1], more[|more| - 1];
      assert more == init + [last] && jobs + more == jobs + init + [last];
      ModifiersAreNoLinks(jobs, init);
      LinkJobsAppend(jobs + init, last);
    }
  }

  lemma {:induction false} TasksEachProcess(jobs: seq<Job>)
    requires forall j :: j in jobs ==> j.kind == ModifierJob
    ensures AllProcessing(TaskEach(jobs))
  {
    if jobs != [] {
      TasksEachProcess(jobs[..|jobs| - 1]);
      var last := jobs[|jobs| - 1];
      LinkJobsAppend([], last);
      assert [] + [last] == [last];
    }
  }

  /** Processing plugins add no chain job to a task, and no task of another kind. */
  lemma {:induction false} PlacingIsProcessing(task: Option<Task>, shared: bool, jobs: seq<Job>)
    requires forall j :: j in jobs ==> j.kind == ModifierJob
    ensures var r := Placed(task, shared, jobs);
            && r.grown.Some? == task.Some?
            && (task.Some? ==> r.grown.value.action == task.value.action
                               && LinkJobs(r.grown.value.jobs) == LinkJobs(task.value.jobs))
            && AllProcessing(r.created)
  {
    if task.Some? {
      ModifiersAreNoLinks(task.value.jobs, jobs);
      assert task.value.jobs + [] == task.value.jobs;
    }
    ModifiersAreNoLinks([], jobs);
    assert [] + jobs == jobs;
    TasksEachProcess(jobs);
  }

  /** Every active processing plugin meant for the position, by rising priority, gets a job; the caller's task may
      have grown, new tasks come out latest first. */
  method AddProcessingPlugins(noTmp: bool, task: Option<Task>, caps: Caps, io: TrackType, position: Position)
    returns (grown: Option<Task>, created: seq<Task>)
    ensures Placement(grown, created) == if caps.typ.Disc? then Placement(task, [])
              else Placed(task, noTmp && Pipe in caps.io,
                          ModifierJobs(Chosen(SortModifiers(caps.modifiers), position), io))
  {
    grown, created := task, [];
    if caps.typ.Disc? {
      return;
    }
    var modifiers := SortModifiers(caps.modifiers);
    ghost var shared, jobs: seq<Job> := noTmp && Pipe in caps.io, [];
    if task.Some? {
      assert task.value.jobs + [] == task.value.jobs;
    }
    for i := 0 to |modifiers|
      invariant jobs == ModifierJobs(Chosen(modifiers[..i], position), io)
      invariant Placement(grown, created) == Placed(task, shared, jobs)
    {
      var plugin := modifiers[i];
      ChosenNext(modifiers, i, position, io);
      if !GetActive(plugin, false) || position !in plugin.processFlags {
        continue;
      }
      var job := Job(plugin, io, ModifierJob);
      PlaceOneMore(task, shared, jobs, job);
      jobs := jobs + [job];
      if (grown.None? && created == []) || Pipe !in caps.io || !noTmp {
        created := [Task(ActionNormal, [job])] + created;
      } else if created != [] {
        created := created[0 := created[0].(jobs := created[0].jobs + [job])];
      } else {
        grown := Some(grown.value.(jobs := grown.value.jobs + [job]));
      }
    }
    assert modifiers[..|modifiers|] == modifiers;
  }

  lemma {:induction false} ChosenNext(modifiers: seq<Plugin>, i: nat, position: Position, io: TrackType)
    requires i < |modifiers|
    ensures ModifierJobs(Chosen(modifiers[..i + 1], position), io)
            == ModifierJobs(Chosen(modifiers[..i], position), io)
               + if GetActive(modifiers[i], false) && position in modifiers[i].processFlags
                 then [Job(modifiers[i], io, ModifierJob)] else []
  {
    assert modifiers[..i + 1][..i] == modifiers[..i];
  }

  /** What the processing plugins leave alone: the chain jobs of the running task and everything without active
      modifiers. */
  method PlaceProcessing(noTmp: bool, task: Option<Task>, caps: Caps, io: TrackType, position: Position)
    returns (grown: Option<Task>, created: seq<Task>, ghost jobs: seq<Job>)
    ensures Selected(jobs, caps, io, position)
    ensures Placement(grown, created) == Placed(task, noTmp && Pipe in caps.io, jobs)
    ensures grown.Some? == task.Some? && AllProcessing(created)
    ensures task.Some? ==> grown.value.action == task.value.action
                           && LinkJobs(grown.value.jobs) == LinkJobs(task.value.jobs)
    ensures task.Some? && noTmp && Pipe in caps.io ==> created == []
    ensures (forall m :: m in caps.modifiers ==> !GetActive(m, false)) ==> created == [] && grown == task
  {
    grown, created := AddProcessingPlugins(noTmp, task, caps, io, position);
    if task.Some? {
      assert task.value.jobs + [] == task.value.jobs;
    }
    jobs := if caps.typ.Disc? then [] else ModifierJobs(Chosen(SortModifiers(caps.modifiers), position), io);
    if !caps.typ.Disc? {
      ChosenAreSelected(caps, io, position);
    }
    PlacingIsProcessing(task, noTmp && Pipe in caps.io, jobs);
    assert ModifierJobs([], io) == [];
    NoneChosen(caps.modifiers, position);
  }

  lemma {:induction false} NoneChosen(modifiers: seq<Plugin>, position: Position)
    ensures (forall m :: m in modifiers ==> !GetActive(m, false)) ==> Chosen(SortModifiers(modifiers), position) == []
  {
    var chosen := Chosen(SortModifiers(modifiers), position);
    assert chosen != [] ==> chosen[0] in chosen;
  }

  // ----- where the processing plugins run -----

  /** Exactly the active plugins of the caps meant for this position, each as often as it is there, by rising
      priority. A disc has none. */
  ghost predicate Selected(jobs: seq<Job>, caps: Caps, io: TrackType, position: Position) {
    && (forall k :: 0 <= k < |jobs| ==> jobs[k].kind == ModifierJob && jobs[k].output == io)
    && (forall m :: multiset(PluginsOf(jobs))[m] ==
          if !caps.typ.Disc? && GetActive(m, false) && position in m.processFlags then multiset(caps.modifiers)[m]
          else 0)
    && Rising(PluginsOf(jobs))
  }

  function PluginsOf(jobs: seq<Job>): (r: seq<Plugin>)
    ensures |r| == |jobs|
  {
    seq(|jobs|, k requires 0 <= k < |jobs| => jobs[k].plugin)
  }

  lemma {:induction false} ChosenRise(modifiers: seq<Plugin>, position: Position)
    requires Rising(modifiers)
    ensures Rising(Chosen(modifiers, position))
  {
    if modifiers != [] {
      var init, last := modifiers[..|modifiers| - 1], modifiers[|modifiers| - 1];
      ChosenRise(init, position);
      forall m | m in Chosen(init, position) ensures m.priority <= last.priority {
        var k :| 0 <= k < |init| && init[k] == m;
      }
    }
  }

  lemma {:induction false} ChosenCount(modifiers: seq<Plugin>, position: Position, m: Plugin)
    ensures multiset(Chosen(modifiers, position))[m] ==
              if GetActive(m, false) && position in m.processFlags then multiset(modifiers)[m] else 0
  {
    if modifiers != [] {
      ChosenCount(modifiers[..|modifiers| - 1], position, m);
      assert modifiers == modifiers[..|modifiers| - 1] + [modifiers[|modifiers| - 1]];
    }
  }

  lemma {:induction false} ChosenAreSelected(caps: Caps, io: TrackType, position: Position)
    requires !caps.typ.Disc?
    ensures Selected(ModifierJobs(Chosen(SortModifiers(caps.modifiers), position), io), caps, io, position)
  {
    hide Chosen, SortModifiers, GetActive, Rising;
    var chosen := Chosen(SortModifiers(caps.modifiers), position);
    SortedRising(caps.modifiers);
    ChosenRise(SortModifiers(caps.modifiers), position);
    forall m ensures multiset(chosen)[m] ==
                       if GetActive(m, false) && position in m.processFlags then multiset(caps.modifiers)[m] else 0
    {
      ChosenCount(SortModifiers(caps.modifiers), position, m);
    }
    assert PluginsOf(ModifierJobs(chosen, io)) == chosen;
  }

  lemma {:induction false} DiscHasNone(jobs: seq<Job>, caps: Caps, io: TrackType, position: Position)
    requires caps.typ.Disc? && Selected(jobs, caps, io, position)
    ensures jobs == []
  {
    assert multiset(PluginsOf(jobs)) == multiset{};
    assert |PluginsOf(jobs)| == |multiset(PluginsOf(jobs))|;
  }

  /** The jobs of the processing plugins of one caps as they run. Where data flows through pipes they run together, by
      rising priority, in the running task or, if there is none, in one of their own; otherwise each has a task of its
      own, and the one of the highest priority comes first. */
  ghost predicate IsBlock(slots: seq<Slot>, caps: Caps, io: TrackType, position: Position, shared: bool, alone: bool) {
    exists jobs :: Selected(jobs, caps, io, position) && slots == Block(jobs, shared, alone)
  }

  function Block(jobs: seq<Job>, shared: bool, alone: bool): (r: seq<Slot>)
    ensures |r| == |jobs|
  {
    if shared then seq(|jobs|, k requires 0 <= k < |jobs| => Slot(jobs[k], k > 0 || !alone))
    else seq(|jobs|, k requires 0 <= k < |jobs| => Slot(jobs[|jobs| - 1 - k], false))
  }

  lemma {:induction false} TaskEachSlots(jobs: seq<Job>)
    ensures Slots(TaskEach(jobs)) == Block(jobs, false, true)
    ensures forall k :: 0 <= k < |TaskEach(jobs)| ==> TaskEach(jobs)[k].jobs != []
  {
    if jobs != [] {
      var init, task := jobs[..|jobs| - 1], Task(ActionNormal, [jobs[|jobs| - 1]]);
      TaskEachSlots(init);
      SlotsConcat([task], TaskEach(init));
      SlotsOne(task);
      hide Slots, TaskEach;
      assert Block(jobs, false, true) == SlotsOf(task.jobs) + Block(init, false, true);
    }
  }

  lemma {:induction false} BlockJoins(before: seq<Job>, jobs: seq<Job>)
    requires before != []
    ensures SlotsOf(before + jobs) == SlotsOf(before) + Block(jobs, true, false)
  {
  }

  lemma {:induction false} GrownSlots(tasks: seq<Task>, jobs: seq<Job>)
    requires tasks != [] && tasks[|tasks| - 1].action == ActionNormal && tasks[|tasks| - 1].jobs != []
    ensures var last := tasks[|tasks| - 1];
            Slots(tasks[|tasks| - 1 := last.(jobs := last.jobs + jobs)]) == Slots(tasks) + Block(jobs, true, false)
  {
    hide Slots, SlotsOf, Block;
    var last := tasks[|tasks| - 1];
    var before, grown := tasks[..|tasks| - 1], last.(jobs := last.jobs + jobs);
    SlotsLast(tasks, grown);
    SlotsLast(tasks, last);
    SlotsOne(grown);
    SlotsOne(last);
    BlockJoins(last.jobs, jobs);
    assert tasks[|tasks| - 1 := last] == tasks;
    assert Slots(before) + (Slots([last]) + Block(jobs, true, false)) == Slots(tasks) + Block(jobs, true, false);
  }

  /** Placing the jobs appends their block to what runs already. */
  lemma {:induction false} PlacedSlots(tasks: seq<Task>, shared: bool, jobs: seq<Job>)
    requires NoneEmpty(tasks) && (tasks != [] ==> tasks[|tasks| - 1].action == ActionNormal)
    ensures var p := Placed(if tasks == [] then None else Some(tasks[|tasks| - 1]), shared, jobs);
            var r := if tasks == [] then p.created else tasks[|tasks| - 1 := p.grown.value] + p.created;
            Slots(r) == Slots(tasks) + Block(jobs, shared, tasks == []) && NoneEmpty(r)
  {
    if !shared {
      TaskEachSlots(jobs);
      SlotsConcat(tasks, TaskEach(jobs));
      assert tasks != [] ==> tasks[|tasks| - 1 := tasks[|tasks| - 1]] == tasks;
      assert tasks == [] ==> tasks + TaskEach(jobs) == TaskEach(jobs);
    } else if tasks != [] {
      GrownSlots(tasks, jobs);
      var last := tasks[|tasks| - 1];
      var grown := tasks[|tasks| - 1 := last.(jobs := last.jobs + jobs)];
      assert grown + [] == grown;
    } else {
      SlotsOne(Task(ActionNormal, jobs));
      assert Slots(tasks) + SlotsOf(jobs) == SlotsOf(jobs) == Block(jobs, true, true);
    }
  }

  predicate NoneEmpty(tasks: seq<Task>) {
    forall t :: 0 <= t < |tasks| ==> tasks[t].jobs != []
  }

  /** What arrives at node i. */
  function ArrivingAt(g: Graph, nodes: seq<Node>, i: nat, input: TrackType): TrackType
    requires Nodes(g, nodes) && i < |nodes|
  {
    if i == 0 then input else g[nodes[i].link.target.value].typ
  }

  /** These are the jobs of the processing plugins of the first nodes: before the first job of the chain those for
      preprocessing, before each other one those that run before the target. */
  ghost predicate AreBlocks(g: Graph, nodes: seq<Node>, input: TrackType, noTmp: bool, blocks: seq<seq<Slot>>)
    requires Nodes(g, nodes)
  {
    && |blocks| <= |nodes|
    && forall i :: 0 <= i < |blocks| ==>
         IsBlock(blocks[i], g[nodes[i].link.target.value], ArrivingAt(g, nodes, i, input),
                 if i == 0 then Preprocessing else BeforeTarget, Shares(g, nodes, i, noTmp), i == 0)
  }

  /** Each block right before the job of its node; that job shares a task with what runs before it iff it is not the
      first of the chain and reads through a pipe. */
  function LinedUp(g: Graph, nodes: seq<Node>, output: TrackType, noTmp: bool, blocks: seq<seq<Slot>>): seq<Slot>
    requires Nodes(g, nodes) && |blocks| <= |nodes|
  {
    if blocks == [] then []
    else
      var i := |blocks| - 1;
      LinedUp(g, nodes, output, noTmp, blocks[..i]) + blocks[i]
      + [Slot(JobOf(g, nodes, i, output), i > 0 && Shares(g, nodes, i, noTmp))]
  }

  lemma {:induction false} BlocksGrow(g: Graph, nodes: seq<Node>, input: TrackType, output: TrackType, noTmp: bool,
                                      blocks: seq<seq<Slot>>, block: seq<Slot>)
    requires Nodes(g, nodes) && |blocks| < |nodes| && AreBlocks(g, nodes, input, noTmp, blocks)
    requires var i := |blocks|;
             IsBlock(block, g[nodes[i].link.target.value], ArrivingAt(g, nodes, i, input),
                     if i == 0 then Preprocessing else BeforeTarget, Shares(g, nodes, i, noTmp), i == 0)
    ensures AreBlocks(g, nodes, input, noTmp, blocks + [block])
    ensures LinedUp(g, nodes, output, noTmp, blocks + [block])
            == LinedUp(g, nodes, output, noTmp, blocks) + block
               + [Slot(JobOf(g, nodes, |blocks|, output), |blocks| > 0 && Shares(g, nodes, |blocks|, noTmp))]
  {
    hide IsBlock;
    assert (blocks + [block])[..|blocks|] == blocks;
  }

  /** The tasks run the chain, the processing plugins in front of each of its jobs, and after the last one those for
      what comes out. */
  ghost predicate RunsInOrder(g: Graph, nodes: seq<Node>, input: TrackType, output: TrackType, end: Caps, noTmp: bool,
                              tasks: seq<Task>)
    requires Nodes(g, nodes)
  {
    exists blocks, after :: IsOrder(g, nodes, input, output, end, noTmp, tasks, blocks, after)
  }

  ghost predicate IsOrder(g: Graph, nodes: seq<Node>, input: TrackType, output: TrackType, end: Caps, noTmp: bool,
                          tasks: seq<Task>, blocks: seq<seq<Slot>>, after: seq<Slot>)
    requires Nodes(g, nodes)
  {
    && |blocks| == |nodes| && AreBlocks(g, nodes, input, noTmp, blocks)
    && IsBlock(after, end, output, AfterTarget, noTmp && Pipe in end.io, true)
    && Slots(tasks) == LinedUp(g, nodes, output, noTmp, blocks) + after
  }

  // ----- assembling the task list -----

  /** The erase task, if any, is the last but one. */
  predicate EraseIsLastButOne(tasks: seq<Task>) {
    forall t :: 0 <= t < |tasks| && tasks[t].action == ActionErase ==> t == |tasks| - 2
  }

  predicate HasErase(tasks: seq<Task>) {
    exists t :: 0 <= t < |tasks| && tasks[t].action == ActionErase
  }

  /** The tasks carry out the chain: their chain jobs, task by task, are its plugins in input-to-output order,
      grouped by sharing. */
  ghost predicate CarriesOut(g: Graph, nodes: seq<Node>, output: TrackType, noTmp: bool, tasks: seq<Task>) {
    && Nodes(g, nodes)
    && Concat(Groups(tasks)) == JobsOf(g, nodes, |nodes|, output)
    && GroupedBySharing(g, nodes, noTmp, Groups(tasks))
  }

  /** Loop state after i nodes. */
  ghost predicate Assembled(g: Graph, nodes: seq<Node>, i: nat, output: TrackType, noTmp: bool, tasks: seq<Task>) {
    && Nodes(g, nodes) && i <= |nodes|
    && Concat(Groups(tasks)) == JobsOf(g, nodes, i, output)
    && GroupedBySharing(g, nodes, noTmp, Groups(tasks))
    && AllNormal(tasks)
  }

  predicate AllNormal(tasks: seq<Task>) {
    forall t :: 0 <= t < |tasks| ==> tasks[t].action == ActionNormal
  }

  lemma {:induction false} NormalWith(tasks: seq<Task>, job: Job)
    requires AllNormal(tasks)
    ensures AllNormal(tasks + [Task(ActionNormal, [job])])
  {
  }

  lemma {:induction false} OneLinkJob(job: Job)
    requires job.kind == LinkJob
    ensures LinkJobs([job]) == [job]
  {
    LinkJobsAppend([], job);
    assert [] + [job] == [job];
  }

  predicate ChainOnly(jobs: seq<Job>) {
    jobs != [] && forall k :: 0 <= k < |jobs| ==> jobs[k].kind == LinkJob
  }

  /** Erase task aside, every task has jobs, and every job is a job of the chain. */
  predicate NothingProcesses(tasks: seq<Task>) {
    forall t :: 0 <= t < |tasks| && tasks[t].action != ActionErase ==> ChainOnly(tasks[t].jobs)
  }

  /** An erase task holds the plugin for erasing, and nothing else. */
  predicate ErasesAlone(tasks: seq<Task>, eraser: Option<Plugin>) {
    forall t :: 0 <= t < |tasks| && tasks[t].action == ActionErase ==>
      eraser.Some? && tasks[t].jobs == [Job(eraser.value, NoTrack, EraserJob)]
  }

  /** A task images or records, or it erases and holds no job of the chain. */
  predicate EraseOrNormal(tasks: seq<Task>) {
    forall t :: 0 <= t < |tasks| ==>
      tasks[t].action == ActionNormal || (tasks[t].action == ActionErase && LinkJobs(tasks[t].jobs) == [])
  }

  function Erases(tasks: seq<Task>): (n: nat)
    ensures n <= |tasks|
  {
    if tasks == [] then 0
    else Erases(tasks[..|tasks| - 1]) + if tasks[|tasks| - 1].action == ActionErase then 1 else 0
  }

  /** Without processing plugins there is a task for every group, and the erase task. */
  lemma {:induction false} GroupCount(tasks: seq<Task>)
    requires NothingProcesses(tasks) && EraseOrNormal(tasks)
    ensures |tasks| == |Groups(tasks)| + Erases(tasks)
  {
    if tasks != [] {
      GroupCount(tasks[..|tasks| - 1]);
      var last := tasks[|tasks| - 1];
      if last.action != ActionErase {
        assert ChainOnly(last.jobs);
        PureTaskIsItsGroup(last.jobs);
      }
    }
  }

  lemma {:induction false} NoErases(tasks: seq<Task>)
    requires forall t :: 0 <= t < |tasks| ==> tasks[t].action != ActionErase
    ensures Erases(tasks) == 0
  {
    if tasks != [] {
      NoErases(tasks[..|tasks| - 1]);
    }
  }

  lemma {:induction false} OneErase(tasks: seq<Task>)
    requires EraseIsLastButOne(tasks)
    ensures Erases(tasks) == if HasErase(tasks) then 1 else 0
  {
    var n := |tasks|;
    if HasErase(tasks) {
      assert tasks[n - 2].action == ActionErase;
      NoErases(tasks[..n - 2]);
      assert tasks[..n - 1][..n - 2] == tasks[..n - 2];
    } else {
      NoErases(tasks);
    }
  }

  /** Each group of jobs is not empty, and without pipes each is a single job. */
  lemma {:induction false} GroupsNotEmpty(tasks: seq<Task>)
    ensures forall t :: 0 <= t < |Groups(tasks)| ==> Groups(tasks)[t] != []
  {
    if tasks != [] {
      GroupsNotEmpty(tasks[..|tasks| - 1]);
    }
  }

  lemma {:induction false} SingleGroups(groups: seq<seq<Job>>)
    requires forall t :: 0 <= t < |groups| ==> |groups[t]| == 1
    ensures |Concat(groups)| == |groups|
  {
    if groups != [] {
      SingleGroups(groups[..|groups| - 1]);
    }
  }

  lemma {:induction false} AtLeastOneEach(groups: seq<seq<Job>>)
    requires forall t :: 0 <= t < |groups| ==> groups[t] != []
    ensures |groups| <= |Concat(groups)| && (groups == [] ==> Concat(groups) == [])
  {
    if groups != [] {
      AtLeastOneEach(groups[..|groups| - 1]);
    }
  }

  /** How many tasks a chain is cut into, where it is a single job or data never flows through pipes. */
  lemma {:induction false} TaskCount(g: Graph, nodes: seq<Node>, output: TrackType, noTmp: bool, tasks: seq<Task>)
    requires CarriesOut(g, nodes, output, noTmp, tasks) && NothingProcesses(tasks) && EraseOrNormal(tasks)
    requires EraseIsLastButOne(tasks) && (|nodes| == 1 || !noTmp)
    ensures |tasks| == |nodes| + if HasErase(tasks) then 1 else 0
  {
    var groups := Groups(tasks);
    GroupsNotEmpty(tasks);
    AtLeastOneEach(groups);
    if !noTmp {
      forall t | 0 <= t < |groups| ensures |groups[t]| == 1 {
        assert |groups[t]| > 1 ==> PlacedBySharing(g, nodes, noTmp, groups, t, 1);
      }
      SingleGroups(groups);
    }
    GroupCount(tasks);
    OneErase(tasks);
  }

  /** A task of chain jobs only is exactly its own group. */
  lemma {:induction false} PureTaskIsItsGroup(jobs: seq<Job>)
    requires forall k :: 0 <= k < |jobs| ==> jobs[k].kind == LinkJob
    ensures LinkJobs(jobs) == jobs
  {
    if jobs != [] {
      PureTaskIsItsGroup(jobs[..|jobs| - 1]);
    }
  }

  lemma {:induction false} SwapLast(tasks: seq<Task>, grown: Task, created: seq<Task>)
    requires tasks != [] && LinkJobs(grown.jobs) == LinkJobs(tasks[|tasks| - 1].jobs)
    requires AllProcessing(created)
    ensures Groups(tasks[|tasks| - 1 := grown] + created) == Groups(tasks)
  {
    var init, last := tasks[..|tasks| - 1], tasks[|tasks| - 1];
    assert tasks == init + [last] && tasks[|tasks| - 1 := grown] == init + [grown];
    GroupsConcat(init + [grown], created);
    GroupsConcat(init, [grown]);
    GroupsConcat(init, [last]);
    GroupsOne(grown);
    GroupsOne(last);
    ProcessingHasNoGroups(created);
  }

  lemma {:induction false} AppendTask(tasks: seq<Task>, job: Job)
    requires job.kind == LinkJob
    ensures Groups(tasks + [Task(ActionNormal, [job])]) == Groups(tasks) + [[job]]
  {
    OneLinkJob(job);
    GroupsConcat(tasks, [Task(ActionNormal, [job])]);
    GroupsOne(Task(ActionNormal, [job]));
  }

  lemma {:induction false} AppendJob(tasks: seq<Task>, job: Job)
    requires tasks != [] && job.kind == LinkJob && LinkJobs(tasks[|tasks| - 1].jobs) != []
    ensures var last := tasks[|tasks| - 1];
            var groups := Groups(tasks);
            && groups != [] && groups[|groups| - 1] == LinkJobs(last.jobs)
            && Groups(tasks[|tasks| - 1 := last.(jobs := last.jobs + [job])])
               == groups[..|groups| - 1] + [groups[|groups| - 1] + [job]]
  {
    var init, last := tasks[..|tasks| - 1], tasks[|tasks| - 1];
    var longer := last.(jobs := last.jobs + [job]);
    assert tasks == init + [last] && tasks[|tasks| - 1 := longer] == init + [longer];
    LinkJobsAppend(last.jobs, job);
    GroupsConcat(init, [last]);
    GroupsConcat(init, [longer]);
    GroupsOne(last);
    GroupsOne(longer);
  }

  lemma {:induction false} JobsGrow(g: Graph, nodes: seq<Node>, i: nat, output: TrackType)
    requires Nodes(g, nodes) && i < |nodes|
    ensures JobsOf(g, nodes, i + 1, output) == JobsOf(g, nodes, i, output) + [JobOf(g, nodes, i, output)]
  {
  }

  lemma {:induction false} StepProcessing(g: Graph, nodes: seq<Node>, i: nat, output: TrackType, noTmp: bool,
                                          tasks: seq<Task>, grown: Task, created: seq<Task>)
    requires Assembled(g, nodes, i, output, noTmp, tasks) && tasks != []
    requires grown.action == ActionNormal && LinkJobs(grown.jobs) == LinkJobs(tasks[|tasks| - 1].jobs)
    requires AllProcessing(created)
    ensures Assembled(g, nodes, i, output, noTmp, tasks[|tasks| - 1 := grown] + created)
  {
    SwapLast(tasks, grown, created);
  }

  lemma {:induction false} StepNewTask(g: Graph, nodes: seq<Node>, i: nat, output: TrackType, noTmp: bool,
                                       tasks: seq<Task>, job: Job)
    requires Assembled(g, nodes, i, output, noTmp, tasks) && i < |nodes| && job == JobOf(g, nodes, i, output)
    requires i > 0 ==> !Shares(g, nodes, i, noTmp)
    ensures Assembled(g, nodes, i + 1, output, noTmp, tasks + [Task(ActionNormal, [job])])
    ensures LinkJobs([job]) == [job]
  {
    JobsGrow(g, nodes, i, output);
    NewGroup(g, nodes, noTmp, Groups(tasks), job);
    AppendTask(tasks, job);
    OneLinkJob(job);
    NormalWith(tasks, job);
  }

  lemma {:induction false} StepSameTask(g: Graph, nodes: seq<Node>, i: nat, output: TrackType, noTmp: bool,
                                        tasks: seq<Task>, job: Job)
    requires Assembled(g, nodes, i, output, noTmp, tasks) && i < |nodes| && job == JobOf(g, nodes, i, output)
    requires tasks != [] && LinkJobs(tasks[|tasks| - 1].jobs) != [] && Shares(g, nodes, i, noTmp)
    ensures var last := tasks[|tasks| - 1];
            && Assembled(g, nodes, i + 1, output, noTmp, tasks[|tasks| - 1 := last.(jobs := last.jobs + [job])])
            && LinkJobs(last.jobs + [job]) != []
  {
    JobsGrow(g, nodes, i, output);
    AppendJob(tasks, job);
    SameGroup(g, nodes, noTmp, Groups(tasks), job);
    LinkJobsAppend(tasks[|tasks| - 1].jobs, job);
  }

  lemma {:induction false} PureWithTask(tasks: seq<Task>, job: Job)
    requires job.kind == LinkJob
    ensures NothingProcesses(tasks) ==> NothingProcesses(tasks + [Task(ActionNormal, [job])])
  {
  }

  lemma {:induction false} PureWithJob(tasks: seq<Task>, job: Job)
    requires job.kind == LinkJob && tasks != []
    ensures var last := tasks[|tasks| - 1];
            NothingProcesses(tasks) ==> NothingProcesses(tasks[|tasks| - 1 := last.(jobs := last.jobs + [job])])
  {
  }

  /** Assembled so far, and ready for the next node: the latest task is the one its job may join. */
  ghost predicate Ready(g: Graph, nodes: seq<Node>, i: nat, output: TrackType, noTmp: bool, tasks: seq<Task>) {
    && Assembled(g, nodes, i, output, noTmp, tasks)
    && (i == 0 <==> tasks == []) && NoneEmpty(tasks)
    && (i > 0 ==> LinkJobs(tasks[|tasks| - 1].jobs) != [])
  }

  lemma {:induction false} StartReady(g: Graph, nodes: seq<Node>, output: TrackType, noTmp: bool)
    requires Nodes(g, nodes)
    ensures Ready(g, nodes, 0, output, noTmp, [])
  {
  }

  lemma {:induction false} FirstProcessing(g: Graph, nodes: seq<Node>, output: TrackType, noTmp: bool,
                                           created: seq<Task>)
    requires Assembled(g, nodes, 0, output, noTmp, []) && AllProcessing(created)
    ensures Assembled(g, nodes, 0, output, noTmp, created)
  {
    ProcessingHasNoGroups(created);
  }

  /** First half of a turn: the processing plugins in front of node i. */
  method AddProcessing(g: Graph, nodes: seq<Node>, i: nat, input: TrackType, output: TrackType, noTmp: bool,
                       position: Position, tasks: seq<Task>)
    returns (r: seq<Task>, ghost block: seq<Slot>)
    requires Ready(g, nodes, i, output, noTmp, tasks) && i < |nodes|
    ensures IsBlock(block, g[nodes[i].link.target.value], input, position, Shares(g, nodes, i, noTmp), i == 0)
    ensures Slots(r) == Slots(tasks) + block && NoneEmpty(r)
    ensures Assembled(g, nodes, i, output, noTmp, r)
    ensures Shares(g, nodes, i, noTmp) && tasks != [] ==> r != [] && LinkJobs(r[|r| - 1].jobs) != []
    ensures NoActiveModifiers(g) ==> r == tasks
  {
    hide Slots, Block, Concat, JobsOf, Groups, GroupedBySharing, Placed, Selected, LinkJobs, GetActive;
    var caps := g[nodes[i].link.target.value];
    var task := if tasks == [] then None else Some(tasks[|tasks| - 1]);
    var grown, created;
    ghost var jobs;
    grown, created, jobs := PlaceProcessing(noTmp, task, caps, input, position);
    block := Block(jobs, Shares(g, nodes, i, noTmp), i == 0);
    PlacedSlots(tasks, Shares(g, nodes, i, noTmp), jobs);
    if grown.Some? {
      StepProcessing(g, nodes, i, output, noTmp, tasks, grown.value, created);
      r := tasks[|tasks| - 1 := grown.value] + created;
    } else {
      FirstProcessing(g, nodes, output, noTmp, created);
      r := created;
    }
  }

  lemma {:induction false} LinkJobSlots(tasks: seq<Task>, job: Job)
    ensures Slots(tasks + [Task(ActionNormal, [job])]) == Slots(tasks) + [Slot(job, false)]
    ensures NoneEmpty(tasks) ==> NoneEmpty(tasks + [Task(ActionNormal, [job])])
  {
    SlotsConcat(tasks, [Task(ActionNormal, [job])]);
    SlotsOne(Task(ActionNormal, [job]));
  }

  lemma {:induction false} JoiningJobSlots(tasks: seq<Task>, job: Job)
    requires tasks != [] && tasks[|tasks| - 1].action == ActionNormal && tasks[|tasks| - 1].jobs != []
    ensures var last := tasks[|tasks| - 1];
            var r := tasks[|tasks| - 1 := last.(jobs := last.jobs + [job])];
            Slots(r) == Slots(tasks) + [Slot(job, true)] && (NoneEmpty(tasks) ==> NoneEmpty(r))
  {
    GrownSlots(tasks, [job]);
    assert Block([job], true, false) == [Slot(job, true)];
  }

  /** Second half of a turn: the job of node i, in a task of its own or in the latest one. */
  method AddLinkJob(g: Graph, nodes: seq<Node>, i: nat, output: TrackType, noTmp: bool, noTask: bool, job: Job,
                    tasks: seq<Task>)
    returns (r: seq<Task>)
    requires Assembled(g, nodes, i, output, noTmp, tasks) && i < |nodes| && job == JobOf(g, nodes, i, output)
    requires (noTask <==> i == 0) && NoneEmpty(tasks)
    requires Shares(g, nodes, i, noTmp) && !noTask ==> tasks != [] && LinkJobs(tasks[|tasks| - 1].jobs) != []
    ensures Ready(g, nodes, i + 1, output, noTmp, r)
    ensures Slots(r) == Slots(tasks) + [Slot(job, i > 0 && Shares(g, nodes, i, noTmp))]
    ensures NothingProcesses(tasks) ==> NothingProcesses(r)
  {
    hide Slots, GroupedBySharing, Groups, Concat, JobsOf;
    if noTask || Pipe !in g[nodes[i].link.target.value].io || !noTmp {
      StepNewTask(g, nodes, i, output, noTmp, tasks, job);
      PureWithTask(tasks, job);
      r := tasks + [Task(ActionNormal, [job])];
      assert r[|r| - 1].jobs == [job];
      LinkJobSlots(tasks, job);
    } else {
      StepSameTask(g, nodes, i, output, noTmp, tasks, job);
      PureWithJob(tasks, job);
      var last := tasks[|tasks| - 1];
      r := tasks[|tasks| - 1 := last.(jobs := last.jobs + [job])];
      assert r[|r| - 1].jobs == last.jobs + [job];
      JoiningJobSlots(tasks, job);
    }
  }

  lemma {:induction false} NoBlocks(g: Graph, nodes: seq<Node>, input: TrackType, output: TrackType, noTmp: bool)
    requires Nodes(g, nodes)
    ensures AreBlocks(g, nodes, input, noTmp, []) && Slots([]) == LinedUp(g, nodes, output, noTmp, [])
  {
  }

  method AssembleTasks(g: Graph, nodes: seq<Node>, input: TrackType, output: TrackType, noTmp: bool)
    returns (tasks: seq<Task>, ghost blocks: seq<seq<Slot>>)
    requires nodes != [] && Nodes(g, nodes)
    ensures tasks != [] && Assembled(g, nodes, |nodes|, output, noTmp, tasks) && NoneEmpty(tasks)
    ensures |blocks| == |nodes| && AreBlocks(g, nodes, input, noTmp, blocks)
    ensures Slots(tasks) == LinedUp(g, nodes, output, noTmp, blocks)
    ensures NoActiveModifiers(g) ==> NothingProcesses(tasks)
  {
    hide AreBlocks, IsBlock, Slots, Assembled;
    tasks, blocks := [], [];
    NoBlocks(g, nodes, input, output, noTmp);
    var pluginInput, position := input, Preprocessing;
    StartReady(g, nodes, output, noTmp);
    for i := 0 to |nodes|
      invariant Ready(g, nodes, i, output, noTmp, tasks)
      invariant |blocks| == i && AreBlocks(g, nodes, input, noTmp, blocks)
      invariant Slots(tasks) == LinedUp(g, nodes, output, noTmp, blocks)
      invariant i < |nodes| ==> pluginInput == ArrivingAt(g, nodes, i, input)
      invariant position == if i == 0 then Preprocessing else BeforeTarget
      invariant NoActiveModifiers(g) ==> NothingProcesses(tasks)
    {
      var pluginOutput := if i + 1 < |nodes| then g[nodes[i + 1].link.target.value].typ else output;
      var noTask := tasks == [];
      ghost var block;
      tasks, block := AddProcessing(g, nodes, i, pluginInput, output, noTmp, position, tasks);
      BlocksGrow(g, nodes, input, output, noTmp, blocks, block);
      blocks := blocks + [block];
      tasks := AddLinkJob(g, nodes, i, output, noTmp, noTask, Job(nodes[i].plugin, pluginOutput, LinkJob), tasks);
      position := BeforeTarget;
      pluginInput := pluginOutput;
    }
  }

  // ----- the whole of new_task -----

  function Reversed<T>(s: seq<T>): (r: seq<T>)
    ensures |r| == |s| && forall i :: 0 <= i < |s| ==> r[i] == s[|s| - 1 - i]
  {
    seq(|s|, i requires 0 <= i < |s| => s[|s| - 1 - i])
  }

  /** The medium as it will be once blanked. */
  function Blanked(media: Media): Media {
    media - {MediumClosed, MediumAppendable, MediumUnformatted, MediumHasData, MediumHasAudio} + {MediumBlank}
  }

  function QueryFor(flags: BurnFlags, input: TrackType, output: TrackType): Query {
    Query(flags,
          if output.Disc? then output.media else {MediumFile},
          input,
          if NoTmpFiles in flags then {Pipe} else {File})
  }

  /** Some chain leads from the session input to the caps chosen for this output. */
  ghost predicate Feasible(g: Graph, group: int, flags: BurnFlags, input: TrackType, output: TrackType)
    requires WellFormed(g)
  {
    var start := StartFor(g, output, 0);
    start < |g| && HasRoute(g, QueryFor(flags, input, output), start, group, {})
  }

  /** What the task list carries out: a best chain for this output, under these flags. */
  datatype Plan = Plan(path: seq<Node>, flags: BurnFlags, output: TrackType)

  ghost predicate IsPlan(g: Graph, group: int, input: TrackType, plan: Plan)
    requires WellFormed(g)
  {
    var q, start := QueryFor(plan.flags, input, plan.output), StartFor(g, plan.output, 0);
    && start < |g|
    && IsRoute(g, q, start, group, {}, plan.path) && StopsAtFit(g, q, plan.path)
    && (NoActiveModifiers(g) ==>
          forall p :: IsRoute(g, q, start, group, {}, p) ==> AtLeast(Priorities(plan.path), Priorities(p)))
  }

  lemma {:induction false} InsertErase(g: Graph, nodes: seq<Node>, output: TrackType, noTmp: bool, tasks: seq<Task>,
                                       eraser: Plugin)
    returns (r: seq<Task>)
    requires tasks != [] && Assembled(g, nodes, |nodes|, output, noTmp, tasks)
    ensures r == tasks[..|tasks| - 1] + [Task(ActionErase, [Job(eraser, NoTrack, EraserJob)])] + [tasks[|tasks| - 1]]
    ensures CarriesOut(g, nodes, output, noTmp, r)
    ensures EraseIsLastButOne(r) && HasErase(r) && EraseOrNormal(r) && ErasesAlone(r, Some(eraser))
    ensures NothingProcesses(tasks) ==> NothingProcesses(r)
    ensures Slots(r) == Slots(tasks) && (NoneEmpty(tasks) ==> NoneEmpty(r))
  {
    var init, last := tasks[..|tasks| - 1], tasks[|tasks| - 1];
    var erase := Task(ActionErase, [Job(eraser, NoTrack, EraserJob)]);
    r := init + [erase] + [last];
    LinkJobsAppend([], erase.jobs[0]);
    assert [] + [erase.jobs[0]] == erase.jobs;
    assert tasks == init + [last];
    assert forall t :: 0 <= t < |init| ==> init[t] == tasks[t];
    GroupsConcat(init, [last]);
    GroupsConcat(init + [erase], [last]);
    GroupsConcat(init, [erase]);
    GroupsOne(erase);
    ErasePlaced(init, last, erase);
    EraseRunsAside(init, last, erase);
  }

  lemma {:induction false} EraseRunsAside(init: seq<Task>, last: Task, erase: Task)
    requires erase.action == ActionErase
    ensures Slots(init + [erase] + [last]) == Slots(init + [last])
    ensures NoneEmpty(init + [last]) && erase.jobs != [] ==> NoneEmpty(init + [erase] + [last])
  {
    SlotsConcat(init, [last]);
    SlotsConcat(init + [erase], [last]);
    SlotsConcat(init, [erase]);
    SlotsOne(erase);
    assert (init + [last])[|init|] == last && forall t :: 0 <= t < |init| ==> (init + [last])[t] == init[t];
  }

  lemma {:induction false} ErasePlaced(init: seq<Task>, last: Task, erase: Task)
    requires erase.action == ActionErase && last.action == ActionNormal
    requires forall t :: 0 <= t < |init| ==> init[t].action == ActionNormal
    ensures var r := init + [erase] + [last];
            && EraseIsLastButOne(r) && HasErase(r)
            && (NothingProcesses(init + [last]) ==> NothingProcesses(r))
            && (LinkJobs(erase.jobs) == [] ==> EraseOrNormal(r))
  {
    var r, whole := init + [erase] + [last], init + [last];
    assert r[|init|] == erase && r[|init| + 1] == last && whole[|init|] == last;
    forall t | 0 <= t < |init| ensures r[t] == init[t] && whole[t] == init[t] {
    }
  }

  lemma {:induction false} AppendProcessing(g: Graph, nodes: seq<Node>, output: TrackType, noTmp: bool,
                                            tasks: seq<Task>, created: seq<Task>)
    requires Assembled(g, nodes, |nodes|, output, noTmp, tasks) && AllProcessing(created)
    ensures Assembled(g, nodes, |nodes|, output, noTmp, tasks + created)
  {
    GroupsConcat(tasks, created);
    ProcessingHasNoGroups(created);
    assert Groups(tasks) + [] == Groups(tasks);
  }

  lemma {:induction false} RouteNodes(g: Graph, q: Query, c: nat, group: int, path: seq<Node>)
    requires WellFormed(g) && c < |g| && IsRoute(g, q, c, group, {}, path)
    ensures Nodes(g, Reversed(path))
  {
    RouteIsSimple(g, q, c, group, {}, path);
  }

  /** The search of new_task for one output. */
  method FindPlan(g: Graph, group: int, flags: BurnFlags, input: TrackType, output: TrackType)
    returns (path: seq<Node>)
    requires WellFormed(g)
    ensures path != [] <==> Feasible(g, group, flags, input, output)
    ensures path != [] ==> IsPlan(g, group, input, Plan(path, flags, output))
  {
    path := [];
    var start := FindStartCaps(g, output);
    if start < |g| {
      path := FindBestLink(g, QueryFor(flags, input, output), start, group, {});
    }
  }

  /** What a session asks new_task for; the plugin for erasing is handed in. */
  datatype Request = Request(group: int, flags: BurnFlags, input: TrackType, output: TrackType, driveOk: bool,
                             canBlank: bool, eraser: Option<Plugin>)

  /** The output is feasible as it is. */
  ghost predicate AsItIs(g: Graph, r: Request)
    requires WellFormed(g)
  {
    Feasible(g, r.group, r.flags, r.input, r.output)
  }

  /** The output is feasible once it is blanked, and that is allowed. */
  ghost predicate OnceBlanked(g: Graph, r: Request)
    requires WellFormed(g)
  {
    && r.output.Disc? && BlankBeforeWrite in r.flags && r.canBlank
    && Feasible(g, r.group, r.flags - {BlankBeforeWrite}, r.input, Disc(Blanked(r.output.media)))
  }

  /** new_task fails exactly when neither the medium as it is nor, where erasing is allowed, the blanked
      medium can be reached; the tasks carry out a best chain, with every processing plugin in its place; there is
      an erase task exactly when only the blanked medium can be reached and a plugin for erasing was found, and then
      it runs last but one, and alone. */
  ghost predicate Fulfils(g: Graph, r: Request, tasks: seq<Task>, plan: Plan)
    requires WellFormed(g)
  {
    && (tasks != [] <==> StartFor(g, r.output, 0) < |g| && r.driveOk && (AsItIs(g, r) || OnceBlanked(g, r)))
    && (tasks != [] ==>
          && plan.output == (if AsItIs(g, r) then r.output else Disc(Blanked(r.output.media)))
          && plan.flags == (if AsItIs(g, r) then r.flags else r.flags - {BlankBeforeWrite})
          && IsPlan(g, r.group, r.input, plan)
          && CarriesOut(g, Reversed(plan.path), plan.output, NoTmpFiles in r.flags, tasks)
          && (NoActiveModifiers(g) ==> NothingProcesses(tasks))
          && RunsInOrder(g, Reversed(plan.path), r.input, plan.output, g[StartFor(g, plan.output, 0)],
                         NoTmpFiles in r.flags, tasks))
    && EraseIsLastButOne(tasks) && EraseOrNormal(tasks) && ErasesAlone(tasks, r.eraser) && NoneEmpty(tasks)
    && (HasErase(tasks) <==> tasks != [] && !AsItIs(g, r) && r.eraser.Some?)
  }

  /** The path for the medium as it is, or else, where that is allowed, for the blanked one. */
  method ChoosePlan(g: Graph, group: int, flags: BurnFlags, input: TrackType, output: TrackType, canBlank: bool)
    returns (path: seq<Node>, used: BurnFlags, target: TrackType, blanked: bool)
    requires WellFormed(g)
    ensures var asItIs := Feasible(g, group, flags, input, output);
            var asBlanked := output.Disc? && BlankBeforeWrite in flags && canBlank
                             && Feasible(g, group, flags - {BlankBeforeWrite}, input, Disc(Blanked(output.media)));
            && (path != [] <==> asItIs || asBlanked)
            && (path != [] ==>
                  && IsPlan(g, group, input, Plan(path, used, target)) && (blanked <==> !asItIs)
                  && used == (if asItIs then flags else flags - {BlankBeforeWrite})
                  && target == (if asItIs then output else Disc(Blanked(output.media))))
  {
    hide Feasible, IsPlan;
    used, target, blanked := flags, output, false;
    path := FindPlan(g, group, flags, input, output);
    if path == [] && output.Disc? && BlankBeforeWrite in flags && canBlank {
      used, target, blanked := flags - {BlankBeforeWrite}, Disc(Blanked(output.media)), true;
      path := FindPlan(g, group, used, input, target);
    }
  }

  lemma {:induction false} SameSlotsSameOrder(g: Graph, nodes: seq<Node>, input: TrackType, output: TrackType,
                                              end: Caps, noTmp: bool, tasks: seq<Task>, others: seq<Task>)
    requires Nodes(g, nodes) && RunsInOrder(g, nodes, input, output, end, noTmp, tasks)
    requires Slots(others) == Slots(tasks)
    ensures RunsInOrder(g, nodes, input, output, end, noTmp, others)
  {
    var blocks, after :| IsOrder(g, nodes, input, output, end, noTmp, tasks, blocks, after);
    assert IsOrder(g, nodes, input, output, end, noTmp, others, blocks, after);
  }

  /** The chain alone. */
  function ChainSlots(g: Graph, nodes: seq<Node>, n: nat, output: TrackType, noTmp: bool): seq<Slot>
    requires Nodes(g, nodes) && n <= |nodes|
  {
    seq(n, i requires 0 <= i < n => Slot(JobOf(g, nodes, i, output), i > 0 && Shares(g, nodes, i, noTmp)))
  }

  lemma {:induction false} EmptyBlock(g: Graph, c: nat, io: TrackType, position: Position, shared: bool, alone: bool)
    requires c < |g| && NoActiveModifiers(g)
    ensures IsBlock([], g[c], io, position, shared, alone)
  {
    assert PluginsOf([]) == [];
    forall m ensures !(GetActive(m, false) && position in m.processFlags) || multiset(g[c].modifiers)[m] == 0 {
      assert m in g[c].modifiers ==> !GetActive(m, false);
    }
    assert Selected([], g[c], io, position) && Block([], shared, alone) == [];
  }

  /** Without active processing plugins the chain runs alone. */
  lemma {:induction false} ChainRunsAlone(g: Graph, nodes: seq<Node>, n: nat, input: TrackType, output: TrackType,
                                          noTmp: bool)
    returns (blocks: seq<seq<Slot>>)
    requires Nodes(g, nodes) && n <= |nodes| && NoActiveModifiers(g)
    ensures |blocks| == n && AreBlocks(g, nodes, input, noTmp, blocks)
    ensures LinedUp(g, nodes, output, noTmp, blocks) == ChainSlots(g, nodes, n, output, noTmp)
  {
    hide AreBlocks, IsBlock, LinedUp;
    blocks := [];
    if n == 0 {
      NoBlocks(g, nodes, input, output, noTmp);
    } else {
      var i := n - 1;
      blocks := ChainRunsAlone(g, nodes, i, input, output, noTmp);
      EmptyBlock(g, nodes[i].link.target.value, ArrivingAt(g, nodes, i, input),
                 if i == 0 then Preprocessing else BeforeTarget, Shares(g, nodes, i, noTmp), i == 0);
      BlocksGrow(g, nodes, input, output, noTmp, blocks, []);
      blocks := blocks + [[]];
    }
  }

  lemma {:induction false} ChainInOrder(g: Graph, nodes: seq<Node>, input: TrackType, output: TrackType, end: nat,
                                        noTmp: bool, tasks: seq<Task>)
    requires Nodes(g, nodes) && end < |g| && NoActiveModifiers(g)
    requires Slots(tasks) == ChainSlots(g, nodes, |nodes|, output, noTmp)
    ensures RunsInOrder(g, nodes, input, output, g[end], noTmp, tasks)
  {
    hide IsBlock, AreBlocks, LinedUp, Slots;
    var blocks := ChainRunsAlone(g, nodes, |nodes|, input, output, noTmp);
    EmptyBlock(g, end, output, AfterTarget, noTmp && Pipe in g[end].io, true);
    assert Slots(tasks) + [] == Slots(tasks);
    assert IsOrder(g, nodes, input, output, g[end], noTmp, tasks, blocks, []);
  }

  lemma {:induction false} InOrder(g: Graph, nodes: seq<Node>, input: TrackType, output: TrackType, end: Caps,
                                   noTmp: bool, tasks: seq<Task>, blocks: seq<seq<Slot>>, jobs: seq<Job>,
                                   created: seq<Task>)
    requires Nodes(g, nodes) && |blocks| == |nodes| && AreBlocks(g, nodes, input, noTmp, blocks)
    requires Slots(tasks) == LinedUp(g, nodes, output, noTmp, blocks) && NoneEmpty(tasks)
    requires Selected(jobs, end, output, AfterTarget)
    requires Placement(None, created) == Placed(None, noTmp && Pipe in end.io, jobs)
    ensures RunsInOrder(g, nodes, input, output, end, noTmp, tasks + created) && NoneEmpty(tasks + created)
    ensures end.typ.Disc? ==> created == []
  {
    var after := Block(jobs, noTmp && Pipe in end.io, true);
    PlacedSlots([], noTmp && Pipe in end.io, jobs);
    SlotsConcat(tasks, created);
    assert Slots([]) + after == after;
    if end.typ.Disc? {
      DiscHasNone(jobs, end, output, AfterTarget);
    }
    assert IsBlock(after, end, output, AfterTarget, noTmp && Pipe in end.io, true);
    assert IsOrder(g, nodes, input, output, end, noTmp, tasks + created, blocks, after);
  }

  /** The tasks for a path that was found, with the erasing of the disc if that comes first. */
  method MakeTasks(g: Graph, group: int, flags: BurnFlags, input: TrackType, path: seq<Node>, used: BurnFlags,
                   target: TrackType, eraser: Option<Plugin>) returns (tasks: seq<Task>)
    requires WellFormed(g) && path != [] && IsPlan(g, group, input, Plan(path, used, target))
    requires eraser.Some? ==> target.Disc?
    ensures tasks != [] && CarriesOut(g, Reversed(path), target, NoTmpFiles in flags, tasks)
    ensures EraseIsLastButOne(tasks) && EraseOrNormal(tasks) && (HasErase(tasks) <==> eraser.Some?)
    ensures NoneEmpty(tasks) && ErasesAlone(tasks, eraser)
    ensures NoActiveModifiers(g) ==> NothingProcesses(tasks)
    ensures RunsInOrder(g, Reversed(path), input, target, g[StartFor(g, target, 0)], NoTmpFiles in flags, tasks)
  {
    hide AreBlocks, IsBlock, LinedUp, Slots, Selected, NothingProcesses, Placed, RunsInOrder, Groups, Concat,
         GroupedBySharing, JobsOf;
    ghost var nodes, noTmp, blocks := Reversed(path), NoTmpFiles in flags, [];
    var start := FindStartCaps(g, target);
    RouteNodes(g, QueryFor(used, input, target), start, group, path);
    tasks, blocks := AssembleTasks(g, Reversed(path), input, target, NoTmpFiles in flags);
    var grown, created;
    ghost var jobs;
    grown, created, jobs := PlaceProcessing(NoTmpFiles in flags, None, g[start], target, AfterTarget);
    AppendProcessing(g, Reversed(path), target, NoTmpFiles in flags, tasks, created);
    InOrder(g, nodes, input, target, g[start], noTmp, tasks, blocks, jobs, created);
    if g[start].typ.Disc? && eraser.Some? {
      assert tasks + created == tasks;
      ghost var expected := InsertErase(g, Reversed(path), target, NoTmpFiles in flags, tasks, eraser.value);
      SameSlotsSameOrder(g, nodes, input, target, g[start], noTmp, tasks, expected);
      tasks := tasks[..|tasks| - 1] + [Task(ActionErase, [Job(eraser.value, NoTrack, EraserJob)])]
               + [tasks[|tasks| - 1]];
    } else {
      assert created == [] ==> tasks + created == tasks;
      tasks := tasks + created;
    }
  }

  method NewTask(g: Graph, group: int, flags: BurnFlags, input: TrackType, output: TrackType,
                 driveOk: bool, canBlank: bool, eraser: Option<Plugin>)
    returns (tasks: seq<Task>, ghost plan: Plan)
    requires WellFormed(g)
    ensures Fulfils(g, Request(group, flags, input, output, driveOk, canBlank, eraser), tasks, plan)
  {
    hide Feasible, IsPlan, CarriesOut, NothingProcesses;
    plan := Plan([], flags, output);
    var start := FindStartCaps(g, output);
    if start == |g| || !driveOk {
      return [], plan;
    }
    var path, used, target, blanked := ChoosePlan(g, group, flags, input, output, canBlank);
    if path == [] {
      return [], plan;
    }
    plan := Plan(path, used, target);
    tasks := MakeTasks(g, group, flags, input, path, used, target, if blanked then eraser else None);
  }
}
