/** What the jobs of the tasks new_task makes are asked to do when they run (burn-job.c, get_action), whichever of them
    are active: one erases, at most one records, and which ones these are. */
module Roles {
  import opened Flags
  import opened Plugins
  import opened Caps
  import opened BestLink
  import opened NewTask
  import Pipeline

  // ----- what comes out of the jobs -----

  lemma {:induction false} RouteFollows(g: Graph, q: Query, c: nat, group: int, used: set<nat>, path: seq<Node>, i: nat)
    requires WellFormed(g) && c < |g| && IsRoute(g, q, c, group, used, path) && StopsAtFit(g, q, path)
    requires i < |path| - 1
    ensures !g[path[i].link.target.value].typ.Disc?
    decreases i
  {
    if i > 0 {
      var n := path[0];
      assert forall k :: 0 <= k < |path| - 1 ==> path[1..][k] == path[k + 1];
      RouteFollows(g, q, n.link.target.value, NextGroup(group, n.plugin), used + {c}, path[1..], i - 1);
    }
  }

  /** What a job makes is no disc. */
  predicate NoDisc(slot: Slot) {
    !slot.job.output.Disc?
  }

  predicate NoDiscs(slots: seq<Slot>) {
    forall x :: 0 <= x < |slots| ==> NoDisc(slots[x])
  }

  predicate NoErasers(slots: seq<Slot>) {
    forall x :: 0 <= x < |slots| ==> slots[x].job.kind != EraserJob
  }

  lemma {:induction false} BlockMakesNoDisc(slots: seq<Slot>, caps: Caps, io: TrackType, position: Position,
                                            shared: bool, alone: bool)
    requires IsBlock(slots, caps, io, position, shared, alone) && (io.Disc? ==> caps.typ.Disc?)
    ensures NoDiscs(slots) && NoErasers(slots) && (caps.typ.Disc? ==> slots == [])
  {
    var jobs :| Selected(jobs, caps, io, position) && slots == Block(jobs, shared, alone);
    if caps.typ.Disc? {
      DiscHasNone(jobs, caps, io, position);
    }
  }

  lemma {:induction false} EndsTurn(before: seq<Slot>, block: seq<Slot>, slot: Slot)
    requires NoErasers(before) && NoErasers(block) && slot.job.kind != EraserJob && NoDiscs(before) && NoDiscs(block)
    ensures var slots := before + block + [slot];
            && NoErasers(slots) && slots[..|slots| - 1] == before + block && slots[|slots| - 1] == slot
            && NoDiscs(before + block) && (NoDisc(slot) ==> NoDiscs(slots))
  {
  }

  lemma {:induction false} NothingMakesNoDisc()
    ensures NoErasers([]) && NoDiscs([])
  {
  }

  /** Of the first n jobs of the chain and what runs before them, none makes a disc unless it is the last of all. */
  lemma {:induction false} OrderMakesNoDisc(g: Graph, nodes: seq<Node>, input: TrackType, output: TrackType,
                                            noTmp: bool, blocks: seq<seq<Slot>>)
    requires Nodes(g, nodes) && AreBlocks(g, nodes, input, noTmp, blocks)
    requires nodes != [] && (input.Disc? ==> g[nodes[0].link.target.value].typ.Disc?)
    requires forall i :: 0 < i < |nodes| ==> !g[nodes[i].link.target.value].typ.Disc?
    ensures var slots := LinedUp(g, nodes, output, noTmp, blocks);
            && NoErasers(slots)
            && (|blocks| < |nodes| ==> NoDiscs(slots))
            && (|blocks| == |nodes| ==> slots != [] && NoDiscs(slots[..|slots| - 1])
                                        && slots[|slots| - 1].job == JobOf(g, nodes, |nodes| - 1, output))
    decreases |blocks|
  {
    hide IsBlock, NoErasers, NoDiscs, Shares;
    if blocks == [] {
      NothingMakesNoDisc();
    } else {
      var i := |blocks| - 1;
      OrderMakesNoDisc(g, nodes, input, output, noTmp, blocks[..i]);
      BlockMakesNoDisc(blocks[i], g[nodes[i].link.target.value], ArrivingAt(g, nodes, i, input),
                       if i == 0 then Preprocessing else BeforeTarget, Shares(g, nodes, i, noTmp), i == 0);
      EndsTurn(LinedUp(g, nodes, output, noTmp, blocks[..i]), blocks[i],
               Slot(JobOf(g, nodes, i, output), i > 0 && Shares(g, nodes, i, noTmp)));
    }
  }

  lemma {:induction false} EndsOrder(chain: seq<Slot>, after: seq<Slot>)
    requires chain != [] && NoErasers(chain) && NoErasers(after) && NoDiscs(chain[..|chain| - 1]) && NoDiscs(after)
    ensures chain + after != [] && NoErasers(chain + after) && (NoDisc(chain[|chain| - 1]) ==> NoDiscs(chain + after))
    ensures after == [] ==> chain + after == chain
  {
  }

  /** All that runs is no eraser, and makes no disc but for the last, which is the last of the chain. */
  lemma {:induction false} AllButLast(g: Graph, r: Request, tasks: seq<Task>, plan: Plan)
    requires WellFormed(g) && Fulfils(g, r, tasks, plan) && tasks != []
    ensures var slots := Slots(tasks);
            && slots != [] && NoErasers(slots)
            && (if plan.output.Disc?
                then NoDiscs(slots[..|slots| - 1])
                     && slots[|slots| - 1].job == Job(plan.path[0].plugin, plan.output, LinkJob)
                else NoDiscs(slots))
  {
    hide CarriesOut, LinedUp, AreBlocks, IsBlock, Slots, NothingProcesses, Feasible, AsItIs, OnceBlanked, HasErase;
    hide EraseIsLastButOne, EraseOrNormal, ErasesAlone, NoneEmpty, AtLeast, NoActiveModifiers, Blanked;
    var nodes, noTmp, start := Reversed(plan.path), NoTmpFiles in r.flags, StartFor(g, plan.output, 0);
    var q := QueryFor(plan.flags, r.input, plan.output);
    RouteNodes(g, q, start, r.group, plan.path);
    var blocks, after :| IsOrder(g, nodes, r.input, plan.output, g[start], noTmp, tasks, blocks, after);
    RouteIsSimple(g, q, start, r.group, {}, plan.path);
    forall i | 0 < i < |nodes| ensures !g[nodes[i].link.target.value].typ.Disc? {
      RouteFollows(g, q, start, r.group, {}, plan.path, |nodes| - 1 - i);
    }
    OrderMakesNoDisc(g, nodes, r.input, plan.output, noTmp, blocks);
    BlockMakesNoDisc(after, g[start], plan.output, AfterTarget, noTmp && Pipe in g[start].io, true);
    EndsOrder(LinedUp(g, nodes, plan.output, noTmp, blocks), after);
  }

  // ----- from what runs to the tasks -----

  /** A job of a task that does not erase is among those that run. */
  lemma {:induction false} JobRuns(tasks: seq<Task>, t: nat, k: nat) returns (x: nat)
    requires t < |tasks| && tasks[t].action != ActionErase && k < |tasks[t].jobs|
    ensures x < |Slots(tasks)| && Slots(tasks)[x].job == tasks[t].jobs[k]
    ensures t < |tasks| - 1 && tasks[|tasks| - 1].action != ActionErase ==>
              x + |tasks[|tasks| - 1].jobs| < |Slots(tasks)|
    ensures t == |tasks| - 1 ==> x == |Slots(tasks)| - |tasks[t].jobs| + k
    decreases |tasks|
  {
    var init, last := tasks[..|tasks| - 1], tasks[|tasks| - 1];
    if t < |init| {
      x := JobRuns(init, t, k);
    } else {
      x := |Slots(init)| + k;
    }
  }

  lemma {:induction false} TheOneWithADisc(g: Graph, r: Request, tasks: seq<Task>, plan: Plan, t: nat, k: nat)
    requires WellFormed(g) && Fulfils(g, r, tasks, plan) && t < |tasks| && k < |tasks[t].jobs|
    ensures var job := tasks[t].jobs[k];
            && (job.kind == EraserJob <==> tasks[t].action == ActionErase)
            && (job.output.Disc? <==> plan.output.Disc? && t == |tasks| - 1 && k == |tasks[t].jobs| - 1)
            && (job.output.Disc? ==> job == Job(plan.path[0].plugin, plan.output, LinkJob))
  {
    hide CarriesOut, Slots, NothingProcesses, Feasible, RunsInOrder, IsPlan;
    AllButLast(g, r, tasks, plan);
    if tasks[t].action != ActionErase {
      var x := JobRuns(tasks, t, k);
      assert tasks[|tasks| - 1].jobs != [];
      assert x < |Slots(tasks)| - 1 ==> Slots(tasks)[..|Slots(tasks)| - 1][x] == Slots(tasks)[x];
    }
  }

  // ----- what they are asked to do -----

  /** Any task of a session, with any jobs of it active. Run for real, a job is asked to erase exactly if it is the
      eraser and active, and to record exactly if it is active and the very last job of all, where the output is a disc;
      it is the first plugin of the chain that was found then, told to write that disc. Every other job makes an image.
      Run to learn the size, the last active job is asked for that and every other one for an image. */
  lemma {:induction false} JobIsAsked(g: Graph, r: Request, tasks: seq<Task>, plan: Plan, t: nat, k: nat,
                                      jobs: Pipeline.Chain)
    requires WellFormed(g) && Fulfils(g, r, tasks, plan) && t < |tasks| && k < |tasks[t].jobs| == |jobs|
    ensures var job := tasks[t].jobs[k];
            var asked := Pipeline.GetAction(jobs, k, tasks[t].action, job.output.Disc?);
            && (asked == Pipeline.JobErase <==> jobs[k].active && job.kind == EraserJob)
            && (asked == Pipeline.JobRecord <==>
                  jobs[k].active && plan.output.Disc? && t == |tasks| - 1 && k == |jobs| - 1)
            && (asked == Pipeline.JobRecord ==> job == Job(plan.path[0].plugin, plan.output, LinkJob))
            && asked in {Pipeline.JobErase, Pipeline.JobRecord, Pipeline.JobImage}
    ensures Pipeline.GetAction(jobs, k, ActionNone, tasks[t].jobs[k].output.Disc?)
            == if Pipeline.IsLastActive(jobs, k) then Pipeline.JobSize else Pipeline.JobImage
  {
    hide Fulfils;
    TheOneWithADisc(g, r, tasks, plan, t, k);
    Shapes(g, r, tasks, plan, t);
  }

  lemma {:induction false} Shapes(g: Graph, r: Request, tasks: seq<Task>, plan: Plan, t: nat)
    requires WellFormed(g) && Fulfils(g, r, tasks, plan) && t < |tasks|
    ensures tasks[t].action == ActionNormal || (tasks[t].action == ActionErase && |tasks[t].jobs| == 1)
    ensures tasks[|tasks| - 1].action == ActionNormal
  {
    assert tasks[t].action == ActionErase ==> r.eraser.Some?;
  }

  /** Over all tasks of a session no two jobs ever record. */
  lemma {:induction false} OneRecords(g: Graph, r: Request, tasks: seq<Task>, plan: Plan, t: nat, k: nat,
                                      jobs: Pipeline.Chain, t': nat, k': nat, jobs': Pipeline.Chain)
    requires WellFormed(g) && Fulfils(g, r, tasks, plan)
    requires t < |tasks| && k < |tasks[t].jobs| == |jobs| && t' < |tasks| && k' < |tasks[t'].jobs| == |jobs'|
    requires Pipeline.GetAction(jobs, k, tasks[t].action, tasks[t].jobs[k].output.Disc?) == Pipeline.JobRecord
    requires Pipeline.GetAction(jobs', k', tasks[t'].action, tasks[t'].jobs[k'].output.Disc?) == Pipeline.JobRecord
    ensures t == t' && k == k'
  {
    hide Fulfils;
    JobIsAsked(g, r, tasks, plan, t, k, jobs);
    JobIsAsked(g, r, tasks, plan, t', k', jobs');
  }
}
