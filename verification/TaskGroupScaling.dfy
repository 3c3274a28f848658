/** Scaling one task group of a job: change its count in place, then register the job. */
module TaskGroupScaling {
  import opened Wrappers

  class TaskGroup {
    const name: string
    var count: int

    constructor (name: string, count: int)
      ensures this.name == name && this.count == count
    {
      this.name, this.count := name, count;
    }
  }

  /** What a registration sends of a task group. */
  datatype Group = Group(name: string, count: int)

  function Spec(groups: seq<TaskGroup>): seq<Group>
    reads groups
  {
    seq(|groups|, i requires 0 <= i < |groups| reads groups => Group(groups[i].name, groups[i].count))
  }

  ghost predicate Distinct(groups: seq<TaskGroup>) {
    forall i, j | 0 <= i < j < |groups| :: groups[i] != groups[j]
  }

  /** The position of the first group with the name, or the number of groups if there is none. */
  function FirstNamed(groups: seq<Group>, name: string): (r: nat)
    ensures r <= |groups| && (r < |groups| ==> groups[r].name == name)
    ensures forall j | 0 <= j < r :: groups[j].name != name
  {
    if groups == [] || groups[0].name == name then 0 else 1 + FirstNamed(groups[1..], name)
  }

  lemma FirstNamedIs(groups: seq<Group>, name: string, i: nat)
    requires i <= |groups| && (i < |groups| ==> groups[i].name == name)
    requires forall j | 0 <= j < i :: groups[j].name != name
    ensures FirstNamed(groups, name) == i
  {
  }

  datatype ScaleAction = Set(count: int) | Increase | Decrease | Stop | Restart | Invalid(name: string)

  datatype Outcome = Succeeded | Rejected | JobNotFound | GroupNotFound | InvalidAction

  function NewCount(action: ScaleAction, count: int): int {
    match action
    case Set(c) => c
    case Increase => count + 1
    case Decrease => count - 1
    case _ => 0
  }

  /** What a job's groups become: a group found under the empty name is left alone. */
  function Scaled(groups: seq<Group>, name: string, action: ScaleAction): seq<Group> {
    var i := FirstNamed(groups, name);
    if name == "" || i == |groups| then groups
    else groups[i := Group(name, NewCount(action, groups[i].count))]
  }

  method FindTaskGroup(groups: seq<TaskGroup>, name: string) returns (found: Option<TaskGroup>)
    ensures var i := FirstNamed(Spec(groups), name);
      if i == |groups| then found == None else found == Some(groups[i])
  {
    for i := 0 to |groups|
      invariant forall j | 0 <= j < i :: Spec(groups)[j].name != name
    {
      if groups[i].name == name {
        FirstNamedIs(Spec(groups), name, i);
        return Some(groups[i]);
      }
    }
    FirstNamedIs(Spec(groups), name, |groups|);
    return None;
  }

  method GetTaskGroupCount(groups: seq<TaskGroup>, name: string) returns (count: Option<int>)
    ensures var i := FirstNamed(Spec(groups), name);
      if i == |groups| then count == None else count == Some(groups[i].count)
  {
    var group := FindTaskGroup(groups, name);
    count := if group.Some? then Some(group.value.count) else None;
  }

  /** A missing group would be a nil dereference, so one must exist. The source then takes an
      empty name for the sign that none was found, and fails without a change. */
  method ChangeTaskGroupCount(groups: seq<TaskGroup>, name: string, action: ScaleAction) returns (ok: bool)
    requires Distinct(groups) && FirstNamed(Spec(groups), name) < |groups|
    modifies groups
    ensures ok <==> name != ""
    ensures Spec(groups) == Scaled(old(Spec(groups)), name, action)
  {
    ghost var before := Spec(groups);
    ghost var i := FirstNamed(before, name);
    var found := FindTaskGroup(groups, name);
    var group := found.value;
    if group.name == "" {
      return false;
    }
    assert group == groups[i];
    group.count := NewCount(action, group.count);
    assert Spec(groups) == before[i := Group(name, NewCount(action, before[i].count))];
    return true;
  }

  /** `Do`, with the answers to the job's lookup (its groups, if it is found) and to a first and
      a second registration. `registered` is what was sent, in order, whether or not it was
      accepted. The error of a failed change is dropped. */
  method Do(job: Option<seq<TaskGroup>>, name: string, action: ScaleAction, accept1: bool, accept2: bool)
    returns (outcome: Outcome, registered: seq<seq<Group>>)
    requires job.Some? ==> Distinct(job.value)
    modifies if job.Some? then job.value else []
    ensures outcome == JobNotFound <==> job == None
    ensures outcome == GroupNotFound <==> job.Some? && FirstNamed(old(Spec(job.value)), name) == |job.value|
    ensures outcome == InvalidAction <==> outcome != JobNotFound && outcome != GroupNotFound && action.Invalid?
    ensures outcome == JobNotFound ==> registered == []
    ensures outcome == GroupNotFound || outcome == InvalidAction ==>
      registered == [] && Spec(job.value) == old(Spec(job.value))
    ensures outcome == Succeeded || outcome == Rejected ==>
      var before := old(Spec(job.value));
      var changed := Scaled(before, name, action);
      if action.Restart? && accept1 then
        && registered == [changed, before] && Spec(job.value) == before
        && outcome == (if accept2 then Succeeded else Rejected)
      else
        && registered == [changed] && Spec(job.value) == changed
        && outcome == (if accept1 then Succeeded else Rejected)
  {
    registered := [];
    if job.None? {
      return JobNotFound, [];
    }
    var groups := job.value;
    ghost var before := Spec(groups);
    var originalCount := GetTaskGroupCount(groups, name);
    if originalCount.None? {
      return GroupNotFound, [];
    }
    if action.Invalid? {
      return InvalidAction, [];
    }
    var _ := ChangeTaskGroupCount(groups, name, action);
    ScaledFindsSame(before, name, action);
    registered := [Spec(groups)];
    if !accept1 {
      return Rejected, registered;
    }
    if action.Restart? {
      var _ := ChangeTaskGroupCount(groups, name, Set(originalCount.value));
      SetBack(before, name, action);
      registered := registered + [Spec(groups)];
      if !accept2 {
        return Rejected, registered;
      }
    }
    outcome := Succeeded;
  }

  lemma ScaledFindsSame(groups: seq<Group>, name: string, action: ScaleAction)
    ensures |Scaled(groups, name, action)| == |groups|
    ensures FirstNamed(Scaled(groups, name, action), name) == FirstNamed(groups, name)
  {
    FirstNamedIs(Scaled(groups, name, action), name, FirstNamed(groups, name));
  }

  /** Setting the original count again undoes any change. */
  lemma SetBack(groups: seq<Group>, name: string, action: ScaleAction)
    requires FirstNamed(groups, name) < |groups|
    ensures Scaled(Scaled(groups, name, action), name, Set(groups[FirstNamed(groups, name)].count)) == groups
  {
    ScaledFindsSame(groups, name, action);
  }

  /** Scaling changes the count of the first group with the name and nothing else; it does not
      change anything exactly when the name is empty or missing, or the count is already there. */
  lemma ScaledChangesOne(groups: seq<Group>, name: string, action: ScaleAction)
    ensures var i, after := FirstNamed(groups, name), Scaled(groups, name, action);
      && |after| == |groups|
      && (forall j | 0 <= j < |groups| && j != i :: after[j] == groups[j])
      && (forall j | 0 <= j < |groups| :: after[j].name == groups[j].name)
      && (after == groups <==> name == "" || i == |groups| || groups[i].count == NewCount(action, groups[i].count))
      && (name != "" && i < |groups| ==>
            && (action.Set? ==> after[i].count == action.count)
            && (action == Increase ==> after[i].count == groups[i].count + 1)
            && (action == Decrease ==> after[i].count == groups[i].count - 1)
            && (action == Stop || action == Restart ==> after[i].count == 0))
  {
    var i, after := FirstNamed(groups, name), Scaled(groups, name, action);
    if name != "" && i < |groups| {
      assert after[i] == Group(name, NewCount(action, groups[i].count));
    }
  }
}
