/**
 * The project tracker's records (projects/models.py): users with their
 * one profile, projects, project tasks, the derived total cost, and the
 * relational store with its cascade and SET_NULL rules.
 */
module ProjectModels {
  import opened Wrappers

  type UserId = nat
  type ProjectId = nat
  type TaskId = nat

  /** The two profile roles; being a superuser is a flag on the user, not a role. */
  datatype Role = TeamLead | Staff

  /** The role a freshly created profile receives. */
  const DefaultRole: Role := Staff

  /** The requesting user as the views see it: identity, superuser flag and profile role. */
  datatype User = User(id: UserId, isSuperuser: bool, role: Role)

  /** Dates are day numbers; `startDate` is required, `endDate` optional. */
  datatype Project = Project(
    name: string,
    description: string,
    startDate: int,
    endDate: Option<int>,
    members: set<UserId>,
    createdBy: Option<UserId>)

  /**
   * `timeTaken` and `cost` are decimals with two places, held here as whole
   * hundredths; `createdAt` is the creation timestamp.
   */
  datatype Task = Task(
    project: ProjectId,
    assignedTo: Option<UserId>,
    title: string,
    description: string,
    timeTaken: int,
    cost: int,
    createdAt: int,
    completed: bool)

  /** `time_taken`: max_digits=6, decimal_places=2, so |value| < 10^4, i.e. 10^6 hundredths. */
  const TimeTakenLimit: int := 1_000_000
  /** `cost`: max_digits=10, decimal_places=2, so |value| < 10^8, i.e. 10^10 hundredths. */
  const CostLimit: int := 10_000_000_000

  /** The decimal columns can hold the task's values; saving anything else raises. */
  predicate Storable(t: Task) {
    -TimeTakenLimit < t.timeTaken < TimeTakenLimit && -CostLimit < t.cost < CostLimit
  }

  /** The ids of the tasks that belong to project `p` (the `project.tasks` relation). */
  function TasksOf(tasks: map<TaskId, Task>, p: ProjectId): (r: set<TaskId>)
    ensures r <= tasks.Keys
    ensures forall t :: t in r <==> t in tasks && tasks[t].project == p
  {
    set t | t in tasks && tasks[t].project == p
  }

  ghost function SumCosts(ids: set<TaskId>, tasks: map<TaskId, Task>): (r: int)
    requires ids <= tasks.Keys
    ensures ids == {} ==> r == 0
    ensures (forall t :: t in ids ==> tasks[t].cost >= 0) ==> r >= 0
    decreases ids
  {
    if ids == {} then 0 else var t :| t in ids; tasks[t].cost + SumCosts(ids - {t}, tasks)
  }

  /** `Project.total_cost`: the sum of the costs of the project's tasks (0 when it has none). */
  ghost function TotalCost(tasks: map<TaskId, Task>, p: ProjectId): (r: int)
    ensures (forall t :: t in tasks && tasks[t].project == p ==> tasks[t].cost >= 0) ==> r >= 0
  {
    SumCosts(TasksOf(tasks, p), tasks)
  }

  /** Any task of the set can be taken out first: the sum does not depend on the order. */
  lemma {:induction false} SumCostsPick(ids: set<TaskId>, tasks: map<TaskId, Task>, x: TaskId)
    requires ids <= tasks.Keys && x in ids
    ensures SumCosts(ids, tasks) == tasks[x].cost + SumCosts(ids - {x}, tasks)
    decreases ids
  {
    var y :| y in ids && SumCosts(ids, tasks) == tasks[y].cost + SumCosts(ids - {y}, tasks);
    if y != x {
      SumCostsPick(ids - {y}, tasks, x);
      SumCostsPick(ids - {x}, tasks, y);
      assert ids - {y} - {x} == ids - {x} - {y};
    }
  }

  /** The sum only reads the costs of the tasks in the set. */
  lemma {:induction false} SumCostsFrame(ids: set<TaskId>, a: map<TaskId, Task>, b: map<TaskId, Task>)
    requires ids <= a.Keys && ids <= b.Keys
    requires forall t :: t in ids ==> a[t].cost == b[t].cost
    ensures SumCosts(ids, a) == SumCosts(ids, b)
    decreases ids
  {
    if ids != {} {
      var x :| x in ids;
      SumCostsPick(ids, a, x);
      SumCostsPick(ids, b, x);
      SumCostsFrame(ids - {x}, a, b);
    }
  }

  /** Removing a task lowers its own project's total by its cost and leaves other totals alone. */
  lemma TotalCostRemove(tasks: map<TaskId, Task>, id: TaskId, p: ProjectId)
    requires id in tasks
    ensures TotalCost(tasks - {id}, p)
         == TotalCost(tasks, p) - (if tasks[id].project == p then tasks[id].cost else 0)
  {
    var rest := tasks - {id};
    if tasks[id].project == p {
      assert TasksOf(rest, p) == TasksOf(tasks, p) - {id};
      SumCostsPick(TasksOf(tasks, p), tasks, id);
    } else {
      assert TasksOf(rest, p) == TasksOf(tasks, p);
    }
    SumCostsFrame(TasksOf(rest, p), rest, tasks);
  }

  /** Adding a task under a new id raises its project's total by its cost. */
  lemma TotalCostAdd(tasks: map<TaskId, Task>, id: TaskId, t: Task, p: ProjectId)
    requires id !in tasks
    ensures TotalCost(tasks[id := t], p) == TotalCost(tasks, p) + (if t.project == p then t.cost else 0)
  {
    var more := tasks[id := t];
    TotalCostRemove(more, id, p);
    assert more - {id} == tasks;
  }

  /** Replacing a task changes each total by the difference its own project sees. */
  lemma TotalCostReplace(tasks: map<TaskId, Task>, id: TaskId, t: Task, p: ProjectId)
    requires id in tasks
    ensures TotalCost(tasks[id := t], p)
         == TotalCost(tasks, p)
            - (if tasks[id].project == p then tasks[id].cost else 0)
            + (if t.project == p then t.cost else 0)
  {
    TotalCostRemove(tasks, id, p);
    TotalCostAdd(tasks - {id}, id, t, p);
    assert (tasks - {id})[id := t] == tasks[id := t];
  }

  /** A project with no tasks costs nothing. */
  lemma TotalCostNoTasks(tasks: map<TaskId, Task>, p: ProjectId)
    requires forall t :: t in tasks ==> tasks[t].project != p
    ensures TotalCost(tasks, p) == 0
  {
    assert TasksOf(tasks, p) == {};
  }

  /** The references a stored project may hold: members and creator are existing users. */
  predicate ProjectRefsOk(p: Project, users: set<UserId>) {
    p.members <= users && (p.createdBy.Some? ==> p.createdBy.value in users)
  }

  /** The references a stored task may hold: an existing project, an existing assignee or none. */
  predicate TaskRefsOk(t: Task, projects: set<ProjectId>, users: set<UserId>) {
    t.project in projects && (t.assignedTo.Some? ==> t.assignedTo.value in users)
  }

  /** What deleting user `u` does to a project: SET_NULL on the creator, membership rows go. */
  function ForgetUserInProject(p: Project, u: UserId): (r: Project)
    ensures u !in r.members && r.createdBy != Some(u)
    ensures r.members == p.members - {u}
    ensures p.createdBy != Some(u) ==> r.createdBy == p.createdBy
    ensures r == p.(members := r.members, createdBy := r.createdBy)
  {
    p.(members := p.members - {u}, createdBy := if p.createdBy == Some(u) then None else p.createdBy)
  }

  /** What deleting user `u` does to a task: SET_NULL on the assignee. */
  function ForgetUserInTask(t: Task, u: UserId): (r: Task)
    ensures r.assignedTo != Some(u)
    ensures t.assignedTo != Some(u) ==> r == t
    ensures r == t.(assignedTo := r.assignedTo)
  {
    t.(assignedTo := if t.assignedTo == Some(u) then None else t.assignedTo)
  }

  /**
   * The relational store behind the views: the user table (id to superuser
   * flag), the profile table (one role per user), projects and tasks, and the
   * auto-increment counters that hand out new primary keys.
   */
  class Db {
    var users: map<UserId, bool>
    var profiles: map<UserId, Role>
    var projects: map<ProjectId, Project>
    var tasks: map<TaskId, Task>
    var nextUserId: nat
    var nextProjectId: nat
    var nextTaskId: nat

    /** Every user has exactly one profile, keys are below their counters, foreign keys resolve. */
    ghost predicate Valid()
      reads this
    {
      && profiles.Keys == users.Keys
      && 0 < nextUserId
      && (forall u :: u in users ==> 0 < u < nextUserId)
      && (forall p :: p in projects ==> p < nextProjectId && ProjectRefsOk(projects[p], users.Keys))
      && (forall t :: t in tasks ==>
            t < nextTaskId && TaskRefsOk(tasks[t], projects.Keys, users.Keys) && Storable(tasks[t]))
    }

    /** `me` is a stored user and carries its stored flag and role. */
    predicate IsUser(me: User)
      reads this
    {
      me.id in users && me.id in profiles && users[me.id] == me.isSuperuser && profiles[me.id] == me.role
    }

    constructor ()
      ensures Valid()
      ensures users == map[] && profiles == map[] && projects == map[] && tasks == map[]
    {
      users := map[];
      profiles := map[];
      projects := map[];
      tasks := map[];
      nextUserId, nextProjectId, nextTaskId := 1, 1, 1;
    }

    /**
     * Saving a new user; the post_save receiver then creates exactly one
     * profile for it, with the default role.
     */
    method CreateUser(isSuperuser: bool) returns (id: UserId)
      requires Valid()
      modifies this
      ensures Valid()
      ensures id !in old(users) && id != 0
      ensures users == old(users)[id := isSuperuser]
      ensures profiles == old(profiles)[id := DefaultRole]
      ensures projects == old(projects) && tasks == old(tasks)
    {
      id := nextUserId;
      users := users[id := isSuperuser];
      profiles := profiles[id := DefaultRole];
      nextUserId := nextUserId + 1;
    }

    /**
     * Deleting a user: the profile goes with it (CASCADE), project creators
     * and task assignees that pointed at it become null (SET_NULL), and it
     * leaves every member list; nothing else changes.
     */
    method DeleteUser(u: UserId)
      requires Valid() && u in users
      modifies this
      ensures Valid()
      ensures users == old(users) - {u} && profiles == old(profiles) - {u}
      ensures projects.Keys == old(projects).Keys && tasks.Keys == old(tasks).Keys
      ensures forall p :: p in projects ==> projects[p] == ForgetUserInProject(old(projects)[p], u)
      ensures forall t :: t in tasks ==> tasks[t] == ForgetUserInTask(old(tasks)[t], u)
    {
      var users' := users - {u};
      var projects' := map p | p in projects :: ForgetUserInProject(projects[p], u);
      var tasks' := map t | t in tasks :: ForgetUserInTask(tasks[t], u);
      assert projects'.Keys == projects.Keys;
      forall p | p in projects'
        ensures ProjectRefsOk(projects'[p], users'.Keys)
      {
        assert ProjectRefsOk(projects[p], users.Keys);
      }
      forall t | t in tasks'
        ensures TaskRefsOk(tasks'[t], projects'.Keys, users'.Keys) && Storable(tasks'[t])
      {
        assert TaskRefsOk(tasks[t], projects.Keys, users.Keys) && Storable(tasks[t]);
      }
      users := users';
      profiles := profiles - {u};
      projects := projects';
      tasks := tasks';
    }

    /** `Project.objects.create(...)`: a new row under a new id. */
    method InsertProject(p: Project) returns (id: ProjectId)
      requires Valid() && ProjectRefsOk(p, users.Keys)
      modifies this
      ensures Valid()
      ensures id !in old(projects) && projects == old(projects)[id := p]
      ensures users == old(users) && profiles == old(profiles) && tasks == old(tasks)
    {
      id := nextProjectId;
      projects := projects[id := p];
      nextProjectId := nextProjectId + 1;
    }

    /** `project.save()` on an existing row. */
    method SaveProject(id: ProjectId, p: Project)
      requires Valid() && id in projects && ProjectRefsOk(p, users.Keys)
      modifies this
      ensures Valid()
      ensures projects == old(projects)[id := p]
      ensures users == old(users) && profiles == old(profiles) && tasks == old(tasks)
    {
      projects := projects[id := p];
    }

    /** `project.delete()`: its tasks go with it (CASCADE); nothing else changes. */
    method DeleteProject(id: ProjectId)
      requires Valid() && id in projects
      modifies this
      ensures Valid()
      ensures projects == old(projects) - {id}
      ensures tasks == map t | t in old(tasks) && old(tasks)[t].project != id :: old(tasks)[t]
      ensures users == old(users) && profiles == old(profiles)
    {
      projects := projects - {id};
      tasks := map t | t in tasks && tasks[t].project != id :: tasks[t];
    }

    /** `Task.objects.create(...)`: a new row under a new id. */
    method InsertTask(t: Task) returns (id: TaskId)
      requires Valid() && TaskRefsOk(t, projects.Keys, users.Keys) && Storable(t)
      modifies this
      ensures Valid()
      ensures id !in old(tasks) && tasks == old(tasks)[id := t]
      ensures users == old(users) && profiles == old(profiles) && projects == old(projects)
    {
      id := nextTaskId;
      tasks := tasks[id := t];
      nextTaskId := nextTaskId + 1;
    }

    /** `task.save()` on an existing row. */
    method SaveTask(id: TaskId, t: Task)
      requires Valid() && id in tasks && TaskRefsOk(t, projects.Keys, users.Keys) && Storable(t)
      modifies this
      ensures Valid()
      ensures tasks == old(tasks)[id := t]
      ensures users == old(users) && profiles == old(profiles) && projects == old(projects)
    {
      tasks := tasks[id := t];
    }

    /** `task.delete()`. */
    method DeleteTask(id: TaskId)
      requires Valid() && id in tasks
      modifies this
      ensures Valid()
      ensures tasks == old(tasks) - {id}
      ensures users == old(users) && profiles == old(profiles) && projects == old(projects)
    {
      tasks := tasks - {id};
    }
  }

  /** Deleting a project leaves no task behind that still belongs to it. */
  lemma CascadeLeavesNoOrphans(tasks: map<TaskId, Task>, id: ProjectId)
    ensures TotalCost(map t | t in tasks && tasks[t].project != id :: tasks[t], id) == 0
  {
    TotalCostNoTasks(map t | t in tasks && tasks[t].project != id :: tasks[t], id);
  }
}
