/**
 * The dispatcher dashboard's right-click menu on a task: which tasks a
 * multiple unassign would release, which unassign actions the menu offers,
 * the items it shows, and how the released tasks are grouped by courier
 * before one removal is dispatched per courier.
 */
module ContextMenu {
  import opened Values

  /** A task as the dashboard holds it: its IRI (`@id`), its numeric id and the courier it is assigned to. */
  datatype DashTask = DashTask(iri: string, id: int, assignedTo: string)

  /** Some task of `tasks` has this IRI (`_.find` by `@id` finds one). */
  predicate HasIri(tasks: seq<DashTask>, iri: string)
  {
    exists i :: 0 <= i < |tasks| && tasks[i].iri == iri
  }

  // ---------------------------------------------------------------------
  // mapStateToProps
  // ---------------------------------------------------------------------

  /** `tasksToUnassign`: the selected tasks that are not among the unassigned ones, in selection order. */
  function TasksToUnassign(selected: seq<DashTask>, unassigned: seq<DashTask>): seq<DashTask>
  {
    if selected == [] then []
    else
      var rest := TasksToUnassign(selected[1..], unassigned);
      if HasIri(unassigned, selected[0].iri) then rest else [selected[0]] + rest
  }

  /** `sub` is `s` with some elements dropped and the rest in their original order. */
  predicate IsSublist<T(==)>(sub: seq<T>, s: seq<T>)
    decreases |s|
  {
    if sub == [] then true
    else if s == [] then false
    else if sub[0] == s[0] then IsSublist(sub[1..], s[1..])
    else IsSublist(sub, s[1..])
  }

  /** A task is released by a multiple unassign exactly when it is selected and not unassigned. */
  lemma {:induction false} TasksToUnassignMembers(selected: seq<DashTask>, unassigned: seq<DashTask>, t: DashTask)
    ensures t in TasksToUnassign(selected, unassigned) <==> t in selected && !HasIri(unassigned, t.iri)
  {
    if selected != [] {
      TasksToUnassignMembers(selected[1..], unassigned, t);
      assert selected == [selected[0]] + selected[1..];
    }
  }

  /** The released tasks keep the selection's order. */
  lemma {:induction false} TasksToUnassignIsSublist(selected: seq<DashTask>, unassigned: seq<DashTask>)
    ensures IsSublist(TasksToUnassign(selected, unassigned), selected)
  {
    if selected != [] {
      TasksToUnassignIsSublist(selected[1..], unassigned);
      var rest := TasksToUnassign(selected[1..], unassigned);
      if !HasIri(unassigned, selected[0].iri) {
        assert ([selected[0]] + rest)[1..] == rest;
      } else if rest != [] {
        TasksToUnassignMembers(selected[1..], unassigned, rest[0]);
        assert rest[0] != selected[0];
      }
    }
  }

  /** The filter keeps every occurrence of a task it keeps: a task selected twice is released twice. */
  lemma {:induction false} TasksToUnassignCounts(selected: seq<DashTask>, unassigned: seq<DashTask>, t: DashTask)
    ensures multiset(TasksToUnassign(selected, unassigned))[t]
            == if HasIri(unassigned, t.iri) then 0 else multiset(selected)[t]
  {
    if selected != [] {
      TasksToUnassignCounts(selected[1..], unassigned, t);
      assert selected == [selected[0]] + selected[1..];
    }
  }

  // ---------------------------------------------------------------------
  // DynamicMenu
  // ---------------------------------------------------------------------

  datatype Action = UnassignSingle | UnassignMulti

  /**
   * The actions `DynamicMenu` pushes for a right-click on `trigger` (none
   * when the menu was opened on nothing).
   */
  method MenuActions(trigger: Option<DashTask>, unassigned: seq<DashTask>, selected: seq<DashTask>, toUnassign: seq<DashTask>)
    returns (actions: seq<Action>)
    ensures trigger.None? ==> actions == []
    ensures UnassignSingle in actions <==> trigger.Some? && !HasIri(unassigned, trigger.value.iri)
    ensures UnassignMulti in actions <==>
              trigger.Some? && |selected| > 0 && HasIri(selected, trigger.value.iri) && |toUnassign| > 0
    ensures |actions| <= 2
    ensures forall i, j :: 0 <= i < j < |actions| ==> actions[i] == UnassignSingle && actions[j] == UnassignMulti
  {
    actions := [];
    if trigger.Some? {
      var isAssigned := !HasIri(unassigned, trigger.value.iri);
      if isAssigned {
        actions := actions + [UnassignSingle];
      }
      if |selected| > 0 {
        var isTriggerSelected := HasIri(selected, trigger.value.iri);
        if isTriggerSelected && |toUnassign| > 0 {
          actions := actions + [UnassignMulti];
        }
      }
    }
  }

  /** A removal dispatched for one courier: `removeTasks(username, tasks)`. */
  datatype RemoveTasks = RemoveTasks(username: string, tasks: seq<DashTask>)

  /** An item of the rendered menu, with the removals its click dispatches. */
  datatype MenuItem =
    | UnassignTaskItem(taskId: int, onClick: seq<RemoveTasks>)
    | Divider
    | UnassignTasksItem(count: nat, onClick: seq<RemoveTasks>)
    | NoActionItem   // disabled

  /** The rendered menu: the single unassign, then a divider and the multiple unassign, or the disabled item. */
  function MenuItems(actions: seq<Action>, trigger: Option<DashTask>, toUnassign: seq<DashTask>): (items: seq<MenuItem>)
    requires UnassignSingle in actions ==> trigger.Some?
    ensures actions == [] <==> items == [NoActionItem]
    ensures NoActionItem in items ==> items == [NoActionItem]
    ensures UnassignSingle in actions <==> |items| > 0 && items[0].UnassignTaskItem?
    ensures UnassignSingle in actions ==> items[0] == UnassignTaskItem(trigger.value.id, Unassign([trigger.value]))
    ensures UnassignMulti in actions <==> Divider in items
    ensures UnassignMulti in actions ==>
              |items| >= 2 && items[|items| - 2] == Divider
              && items[|items| - 1] == UnassignTasksItem(|toUnassign|, Unassign(toUnassign))
    ensures |items| == (if UnassignSingle in actions then 1 else 0) + (if UnassignMulti in actions then 2 else 0)
                       + (if actions == [] then 1 else 0)
  {
    assert |actions| > 0 ==> actions[0] in actions && (actions[0] == UnassignSingle || actions[0] == UnassignMulti);
    var hasSingle, hasMulti := UnassignSingle in actions, UnassignMulti in actions;
    var multi := UnassignTasksItem(|toUnassign|, Unassign(toUnassign));
    if hasSingle && hasMulti then [UnassignTaskItem(trigger.value.id, Unassign([trigger.value])), Divider, multi]
    else if hasSingle then [UnassignTaskItem(trigger.value.id, Unassign([trigger.value]))]
    else if hasMulti then [Divider, multi]
    else [NoActionItem]
  }

  /**
   * When the right-clicked task is assigned and selected, the condition for
   * the multiple unassign holds whatever else is selected: the trigger
   * itself is one of the tasks to release.
   */
  lemma AssignedSelectedTriggerIsReleased(trigger: DashTask, unassigned: seq<DashTask>, selected: seq<DashTask>)
    requires !HasIri(unassigned, trigger.iri) && trigger in selected
    ensures trigger in TasksToUnassign(selected, unassigned)
    ensures |selected| > 0 && HasIri(selected, trigger.iri) && |TasksToUnassign(selected, unassigned)| > 0
  {
    TasksToUnassignMembers(selected, unassigned, trigger);
    var i :| 0 <= i < |selected| && selected[i] == trigger;
    assert selected[i].iri == trigger.iri;
  }

  /** The menu on an assigned, selected task offers both actions, the single one first. */
  method MenuOnAssignedSelectedTask(trigger: DashTask, unassigned: seq<DashTask>, selected: seq<DashTask>)
    returns (actions: seq<Action>)
    requires !HasIri(unassigned, trigger.iri) && trigger in selected
    ensures actions == [UnassignSingle, UnassignMulti]
  {
    var toUnassign := TasksToUnassign(selected, unassigned);
    AssignedSelectedTriggerIsReleased(trigger, unassigned, selected);
    actions := MenuActions(Some(trigger), unassigned, selected, toUnassign);
    assert UnassignSingle in actions && UnassignMulti in actions;
    assert |actions| == 2;
  }

  /** The single-task item releases exactly the right-clicked task from its courier. */
  lemma SingleItemReleasesTrigger(trigger: DashTask)
    ensures Unassign([trigger]) == [RemoveTasks(trigger.assignedTo, [trigger])]
  {
    assert [trigger][..0] == [];
  }

  // ---------------------------------------------------------------------
  // _unassign
  // ---------------------------------------------------------------------

  /** Adds a task to its courier's group, opening a new group at the end for a courier not seen yet. */
  function AddToGroup(groups: seq<RemoveTasks>, t: DashTask): seq<RemoveTasks>
  {
    if groups == [] then [RemoveTasks(t.assignedTo, [t])]
    else if groups[0].username == t.assignedTo then [groups[0].(tasks := groups[0].tasks + [t])] + groups[1..]
    else [groups[0]] + AddToGroup(groups[1..], t)
  }

  /**
   * `_unassign`: `_.groupBy` by `assignedTo` (groups in order of first
   * appearance, each in task order), then one `removeTasks` per group.
   */
  function Unassign(tasks: seq<DashTask>): seq<RemoveTasks>
  {
    if tasks == [] then [] else AddToGroup(Unassign(tasks[..|tasks| - 1]), tasks[|tasks| - 1])
  }

  /** The tasks of `tasks` assigned to `username`, in order. */
  function AssignedTo(tasks: seq<DashTask>, username: string): seq<DashTask>
  {
    if tasks == [] then []
    else AssignedTo(tasks[..|tasks| - 1], username)
         + (if tasks[|tasks| - 1].assignedTo == username then [tasks[|tasks| - 1]] else [])
  }

  function Concat(groups: seq<RemoveTasks>): seq<DashTask>
  {
    if groups == [] then [] else groups[0].tasks + Concat(groups[1..])
  }

  predicate DistinctUsernames(groups: seq<RemoveTasks>)
  {
    forall i, j :: 0 <= i < j < |groups| ==> groups[i].username != groups[j].username
  }

  lemma {:induction false} AssignedToNone(tasks: seq<DashTask>, username: string)
    requires forall i :: 0 <= i < |tasks| ==> tasks[i].assignedTo != username
    ensures AssignedTo(tasks, username) == []
  {
    if tasks != [] {
      AssignedToNone(tasks[..|tasks| - 1], username);
    }
  }

  /** Adding a task extends its courier's group, or opens one at the end; other groups are untouched. */
  lemma {:induction false} AddToGroupShape(groups: seq<RemoveTasks>, t: DashTask)
    requires DistinctUsernames(groups)
    ensures var r := AddToGroup(groups, t);
            && |r| >= |groups|
            && (forall i :: 0 <= i < |groups| ==>
                  r[i].username == groups[i].username
                  && r[i].tasks == groups[i].tasks + (if groups[i].username == t.assignedTo then [t] else []))
            && ((forall i :: 0 <= i < |groups| ==> groups[i].username != t.assignedTo) ==>
                  r == groups + [RemoveTasks(t.assignedTo, [t])])
            && ((exists i :: 0 <= i < |groups| && groups[i].username == t.assignedTo) ==> |r| == |groups|)
  {
    if groups != [] && groups[0].username != t.assignedTo {
      AddToGroupShape(groups[1..], t);
      var r := AddToGroup(groups, t);
      assert r[1..] == AddToGroup(groups[1..], t);
      forall i | 1 <= i < |groups|
        ensures r[i].username == groups[i].username
        ensures r[i].tasks == groups[i].tasks + (if groups[i].username == t.assignedTo then [t] else [])
      {
        assert r[i] == r[1..][i - 1];
      }
      if exists i :: 0 <= i < |groups| && groups[i].username == t.assignedTo {
        var i :| 0 <= i < |groups| && groups[i].username == t.assignedTo;
        assert groups[1..][i - 1].username == t.assignedTo;
      }
    }
  }

  /** Each group holds exactly its courier's tasks, in order, and is not empty. */
  predicate GroupsAreFilters(groups: seq<RemoveTasks>, tasks: seq<DashTask>)
  {
    forall i :: 0 <= i < |groups| ==> |groups[i].tasks| > 0 && groups[i].tasks == AssignedTo(tasks, groups[i].username)
  }

  /** Every task's courier has a group. */
  predicate GroupsCover(groups: seq<RemoveTasks>, tasks: seq<DashTask>)
  {
    forall t :: t in tasks ==> exists i :: 0 <= i < |groups| && groups[i].username == t.assignedTo
  }

  predicate IsNewCourier(groups: seq<RemoveTasks>, username: string)
  {
    forall i :: 0 <= i < |groups| ==> groups[i].username != username
  }

  lemma AssignedToSnoc(tasks: seq<DashTask>, t: DashTask, username: string)
    ensures AssignedTo(tasks + [t], username) == AssignedTo(tasks, username) + (if t.assignedTo == username then [t] else [])
  {
    assert (tasks + [t])[..|tasks|] == tasks;
  }

  lemma AddToGroupDistinct(groups: seq<RemoveTasks>, t: DashTask)
    requires DistinctUsernames(groups)
    ensures DistinctUsernames(AddToGroup(groups, t))
  {
    AddToGroupShape(groups, t);
  }

  lemma AddToGroupFilters(groups: seq<RemoveTasks>, tasks: seq<DashTask>, t: DashTask)
    requires DistinctUsernames(groups) && GroupsAreFilters(groups, tasks) && GroupsCover(groups, tasks)
    ensures GroupsAreFilters(AddToGroup(groups, t), tasks + [t])
  {
    AddToGroupShape(groups, t);
    var r := AddToGroup(groups, t);
    forall i | 0 <= i < |r|
      ensures |r[i].tasks| > 0 && r[i].tasks == AssignedTo(tasks + [t], r[i].username)
    {
      AssignedToSnoc(tasks, t, r[i].username);
      if i == |groups| {
        assert IsNewCourier(groups, t.assignedTo);
        forall j | 0 <= j < |tasks| ensures tasks[j].assignedTo != t.assignedTo {
          assert tasks[j] in tasks;
        }
        AssignedToNone(tasks, t.assignedTo);
      }
    }
  }

  lemma AddToGroupCovers(groups: seq<RemoveTasks>, tasks: seq<DashTask>, t: DashTask)
    requires DistinctUsernames(groups) && GroupsCover(groups, tasks)
    ensures GroupsCover(AddToGroup(groups, t), tasks + [t])
  {
    AddToGroupShape(groups, t);
    var r := AddToGroup(groups, t);
    forall x | x in tasks + [t]
      ensures exists i :: 0 <= i < |r| && r[i].username == x.assignedTo
    {
      if x in tasks {
        var i :| 0 <= i < |groups| && groups[i].username == x.assignedTo;
        assert r[i].username == x.assignedTo;
      } else if IsNewCourier(groups, t.assignedTo) {
        assert r[|groups|].username == x.assignedTo;
      } else {
        var i :| 0 <= i < |groups| && groups[i].username == t.assignedTo;
        assert r[i].username == x.assignedTo;
      }
    }
  }

  /**
   * `removeTasks` is called once per distinct courier, with exactly that
   * courier's tasks in their original order, and every task's courier gets
   * a call.
   */
  lemma {:induction false} UnassignGroupsByCourier(tasks: seq<DashTask>)
    ensures var calls := Unassign(tasks);
            && DistinctUsernames(calls)
            && (forall i :: 0 <= i < |calls| ==>
                  |calls[i].tasks| > 0 && calls[i].tasks == AssignedTo(tasks, calls[i].username))
            && (forall t :: t in tasks ==> exists i :: 0 <= i < |calls| && calls[i].username == t.assignedTo)
  {
    if tasks != [] {
      var init, t := tasks[..|tasks| - 1], tasks[|tasks| - 1];
      UnassignGroupsByCourier(init);
      var groups := Unassign(init);
      assert tasks == init + [t];
      AddToGroupDistinct(groups, t);
      AddToGroupFilters(groups, init, t);
      AddToGroupCovers(groups, init, t);
      assert GroupsAreFilters(Unassign(tasks), tasks) && GroupsCover(Unassign(tasks), tasks);
    }
  }

  lemma {:induction false} AddToGroupMultiset(groups: seq<RemoveTasks>, t: DashTask)
    ensures multiset(Concat(AddToGroup(groups, t))) == multiset(Concat(groups)) + multiset{t}
  {
    if groups != [] {
      var r := AddToGroup(groups, t);
      if groups[0].username == t.assignedTo {
        assert r[1..] == groups[1..];
      } else {
        AddToGroupMultiset(groups[1..], t);
        assert r[1..] == AddToGroup(groups[1..], t);
      }
    }
  }

  /** The groups partition the tasks: together they hold every task exactly as often as it was given. */
  lemma {:induction false} UnassignPartitions(tasks: seq<DashTask>)
    ensures multiset(Concat(Unassign(tasks))) == multiset(tasks)
  {
    if tasks != [] {
      var init, last := tasks[..|tasks| - 1], tasks[|tasks| - 1];
      UnassignPartitions(init);
      AddToGroupMultiset(Unassign(init), last);
      assert Unassign(tasks) == AddToGroup(Unassign(init), last);
      assert tasks == init + [last];
      assert multiset(tasks) == multiset(init) + multiset{last};
    }
  }
}
