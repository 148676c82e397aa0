/**
 * The project and task endpoints (projects/views.py): who sees which
 * projects and tasks, who may create, change or delete them, and which
 * fields a successful request writes. Request bodies arrive already parsed;
 * `None` for a body stands for one that is not valid JSON.
 */
module ProjectViews {
  import opened Wrappers
  import opened Http
  import opened ProjectModels

  /**
   * The single test behind project creation, task creation and deletion,
   * full task edits, the all-tasks listing and `can_assign`.
   */
  predicate IsLeadOrSuperuser(u: User)
    ensures IsLeadOrSuperuser(u) <==> !(u.role == Staff && !u.isSuperuser)
  {
    u.role == TeamLead || u.isSuperuser
  }

  /**
   * `can_edit`: a superuser, or the team lead who created the project. It is
   * exactly the pair of checks `update_project` and `delete_project` make:
   * creator or superuser, then team lead or superuser.
   */
  predicate CanEdit(u: User, p: Project)
    ensures CanEdit(u, p) <==>
              (u.isSuperuser || p.createdBy == Some(u.id)) && (u.role == TeamLead || u.isSuperuser)
  {
    u.isSuperuser || (u.role == TeamLead && p.createdBy == Some(u.id))
  }

  /** The projects `get_projects` lists for `u`. */
  function VisibleProjects(projects: map<ProjectId, Project>, u: User): (r: set<ProjectId>)
    ensures r <= projects.Keys
    ensures u.isSuperuser ==> r == projects.Keys
    ensures !u.isSuperuser && u.role == TeamLead ==>
              forall p :: p in r <==> p in projects && projects[p].createdBy == Some(u.id)
    ensures !u.isSuperuser && u.role == Staff ==>
              forall p :: p in r <==> p in projects && u.id in projects[p].members
  {
    if u.isSuperuser then projects.Keys
    else if u.role == TeamLead then set p | p in projects && projects[p].createdBy == Some(u.id)
    else set p | p in projects && u.id in projects[p].members
  }

  /**
   * Listing and editing agree: every project a user may edit is listed for
   * them, and a listed project is editable exactly when the user is a team
   * lead or a superuser.
   */
  lemma ListingMatchesEditRights(projects: map<ProjectId, Project>, u: User, p: ProjectId)
    requires p in projects
    ensures CanEdit(u, projects[p]) ==> p in VisibleProjects(projects, u)
    ensures p in VisibleProjects(projects, u) ==> (CanEdit(u, projects[p]) <==> IsLeadOrSuperuser(u))
  {
  }

  /** One entry of the `get_projects` answer. */
  datatype ListedProject = ListedProject(canEdit: bool, cost: int, staff: set<UserId>, createdBy: Option<UserId>)

  /** `get_projects`: the visible projects with their `can_edit` flag and total cost. */
  ghost function GetProjects(projects: map<ProjectId, Project>, tasks: map<TaskId, Task>, u: User)
    : (r: map<ProjectId, ListedProject>)
    ensures r.Keys == VisibleProjects(projects, u)
    ensures forall p :: p in r ==>
              && r[p].canEdit == IsLeadOrSuperuser(u)
              && r[p].cost == TotalCost(tasks, p)
              && r[p].staff == projects[p].members
  {
    map p | p in VisibleProjects(projects, u) ::
      ListedProject(CanEdit(u, projects[p]), TotalCost(tasks, p), projects[p].members, projects[p].createdBy)
  }

  /** `tasks_view` as written: only the profile role is consulted, never the superuser flag. */
  function TasksView(projects: map<ProjectId, Project>, u: User, pid: ProjectId): (s: HttpStatus)
    ensures s == NotFound <==> pid !in projects
    ensures s == Forbidden <==> pid in projects && u.role == Staff && u.id !in projects[pid].members
    ensures s == Ok || s == Forbidden || s == NotFound
  {
    if pid !in projects then NotFound
    else if u.role == Staff && u.id !in projects[pid].members then Forbidden
    else Ok
  }

  /**
   * A staff user who is not a superuser may open exactly the task pages of
   * the projects listed for them.
   */
  lemma StaffTaskPagesAreListedProjects(projects: map<ProjectId, Project>, u: User, pid: ProjectId)
    requires !u.isSuperuser && u.role == Staff
    ensures TasksView(projects, u, pid) == Ok <==> pid in VisibleProjects(projects, u)
  {
  }

  /**
   * The discrepancy in `tasks_view`: a superuser whose profile still has the
   * default role is refused the task page of a project they may edit.
   */
  lemma SuperuserRefusedTaskPage()
    ensures var u := User(1, true, DefaultRole);
            var projects := map[1 := Project("p", "", 0, None, {}, None)];
            CanEdit(u, projects[1]) && TasksView(projects, u, 1) == Forbidden
  {
  }

  /** `tasks_view` as evidently intended: superusers pass like everywhere else. */
  function TasksViewCorrected(projects: map<ProjectId, Project>, u: User, pid: ProjectId): (s: HttpStatus)
    ensures s == NotFound <==> pid !in projects
    ensures s == Forbidden <==>
              pid in projects && !u.isSuperuser && u.role == Staff && u.id !in projects[pid].members
  {
    if pid !in projects then NotFound
    else if !u.isSuperuser && u.role == Staff && u.id !in projects[pid].members then Forbidden
    else Ok
  }

  /** With the correction, whoever may edit a project, or sees it listed, may open its task page. */
  lemma ListedProjectsOpenCorrected(projects: map<ProjectId, Project>, u: User, pid: ProjectId)
    requires pid in projects
    ensures CanEdit(u, projects[pid]) ==> TasksViewCorrected(projects, u, pid) == Ok
    ensures pid in VisibleProjects(projects, u) ==> TasksViewCorrected(projects, u, pid) == Ok
  {
  }

  /** The answer of `get_staff_members`. */
  datatype StaffListing = StaffListing(staff: set<UserId>, canAssign: bool)

  /**
   * `get_staff_members`: everyone whose profile has the staff role, for
   * every requester; only a team lead or a superuser is told they may assign.
   */
  function StaffMembers(profiles: map<UserId, Role>, u: User): (r: StaffListing)
    ensures forall v :: v in r.staff <==> v in profiles && profiles[v] == Staff
    ensures r.canAssign <==> u.role == TeamLead || u.isSuperuser
  {
    StaffListing((set v | v in profiles && profiles[v] == Staff), IsLeadOrSuperuser(u))
  }

  /** The answer of `get_project_tasks`. */
  datatype TaskListing = TaskListing(status: HttpStatus, tasks: set<TaskId>, userRole: string)

  /**
   * `get_project_tasks`: a superuser or any team lead gets every task of the
   * project, whoever created it; anyone else only the tasks assigned to them.
   */
  function GetProjectTasks(projects: map<ProjectId, Project>, tasks: map<TaskId, Task>, u: User, pid: ProjectId)
    : (r: TaskListing)
    ensures pid !in projects ==> r.status == NotFound && r.tasks == {}
    ensures pid in projects ==> r.status == Ok && r.tasks <= TasksOf(tasks, pid)
    ensures pid in projects && IsLeadOrSuperuser(u) ==> r.tasks == TasksOf(tasks, pid)
    ensures pid in projects && !IsLeadOrSuperuser(u) ==>
              forall t :: t in r.tasks <==> t in TasksOf(tasks, pid) && tasks[t].assignedTo == Some(u.id)
    ensures r.userRole == if u.isSuperuser then "SUPERUSER" else if u.role == TeamLead then "TEAM_LEAD" else "STAFF"
  {
    if pid !in projects then
      TaskListing(NotFound, {}, if u.isSuperuser then "SUPERUSER" else if u.role == TeamLead then "TEAM_LEAD" else "STAFF")
    else if IsLeadOrSuperuser(u) then
      TaskListing(Ok, TasksOf(tasks, pid), if u.isSuperuser then "SUPERUSER" else "TEAM_LEAD")
    else
      TaskListing(Ok, set t | t in TasksOf(tasks, pid) && tasks[t].assignedTo == Some(u.id), "STAFF")
  }

  /**
   * The value of a `staff` key, by how the views treat it. `Ids` is a
   * collection of ids (a list, or a string or object whose characters or keys
   * are digits; an empty string or object is the empty list). `Null` is a
   * falsy value the id lookup cannot iterate: null, 0 or false. `Malformed`
   * is any other value the lookup rejects: a non-zero number, or a
   * collection holding something that is not an integer.
   */
  datatype StaffField = Ids(ids: seq<UserId>) | Null | Malformed

  /**
   * A project request body. `name` and `created` are `None` when the key is
   * missing; `created` is also `None` when the date does not parse as
   * YYYY-MM-DD. `staff` is `None` when the key is missing.
   */
  datatype ProjectPayload = ProjectPayload(
    name: Option<string>,
    description: Option<string>,
    created: Option<int>,
    staff: Option<StaffField>)

  /** `User.objects.filter(id__in=ids)`: the listed ids that name existing users. */
  function ExistingUsers(ids: seq<UserId>, users: set<UserId>): (r: set<UserId>)
    ensures r <= users
    ensures forall u :: u in r <==> u in ids && u in users
  {
    set u | u in ids && u in users
  }

  /** The body has every key a project write reads before it writes, all well formed. */
  predicate ProjectBodyOk(body: Option<ProjectPayload>) {
    body.Some? && body.value.name.Some? && body.value.created.Some?
  }

  /** The ids a `staff` list names; none for a missing key or a value that is not a list of ids. */
  function RequestedStaff(d: ProjectPayload): seq<UserId> {
    match d.staff
    case Some(Ids(ids)) => ids
    case _ => []
  }

  /**
   * `create_project`: only team leads and superusers; the requester becomes
   * the creator. The row is written before the members are looked up, so a
   * malformed `staff` answers 400 with the project already created.
   */
  method CreateProject(db: Db, me: User, body: Option<ProjectPayload>) returns (status: HttpStatus, id: Option<ProjectId>)
    requires db.Valid() && db.IsUser(me)
    modifies db
    ensures db.Valid()
    ensures db.users == old(db.users) && db.profiles == old(db.profiles) && db.tasks == old(db.tasks)
    ensures !IsLeadOrSuperuser(me) ==> status == Forbidden
    ensures IsLeadOrSuperuser(me) && !ProjectBodyOk(body) ==> status == BadRequest
    ensures status == Ok <==> IsLeadOrSuperuser(me) && ProjectBodyOk(body) && body.value.staff != Some(Malformed)
    ensures IsLeadOrSuperuser(me) && ProjectBodyOk(body) && body.value.staff == Some(Malformed) ==> status == BadRequest
    ensures status == Ok || status == Forbidden || status == BadRequest
    ensures id.Some? <==> IsLeadOrSuperuser(me) && ProjectBodyOk(body)
    ensures id.None? ==> db.projects == old(db.projects)
    ensures id.Some? ==>
              && id.value !in old(db.projects)
              && db.projects == old(db.projects)[id.value := Project(
                   body.value.name.value,
                   body.value.description.GetOr(""),
                   body.value.created.value,
                   None,
                   ExistingUsers(RequestedStaff(body.value), old(db.users).Keys),
                   Some(me.id))]
  {
    if me.role != TeamLead && !me.isSuperuser {
      return Forbidden, None;
    }
    if !ProjectBodyOk(body) {
      return BadRequest, None;
    }
    var data := body.value;
    var members: set<UserId> := {};
    if data.staff.Some? && data.staff.value.Ids? && |data.staff.value.ids| > 0 {
      members := ExistingUsers(data.staff.value.ids, db.users.Keys);
    }
    assert members == ExistingUsers(RequestedStaff(data), db.users.Keys);
    var p := Project(data.name.value, data.description.GetOr(""), data.created.value, None, members, Some(me.id));
    var newId := db.InsertProject(p);
    if data.staff == Some(Malformed) {
      return BadRequest, Some(newId);
    }
    return Ok, Some(newId);
  }

  /**
   * `update_project`: a missing project is a 400 (the 404 is raised inside
   * the catch-all handler); only `CanEdit` passes the two 403 checks. Then
   * name, description and start date are saved; the members are replaced
   * when the `staff` key holds a list, and a `staff` of null or a malformed
   * value answers 400 after that save.
   */
  method UpdateProject(db: Db, me: User, pid: ProjectId, body: Option<ProjectPayload>) returns (status: HttpStatus)
    requires db.Valid() && db.IsUser(me)
    modifies db
    ensures db.Valid()
    ensures db.users == old(db.users) && db.profiles == old(db.profiles) && db.tasks == old(db.tasks)
    ensures pid !in old(db.projects) ==> status == BadRequest
    ensures pid in old(db.projects) && !CanEdit(me, old(db.projects)[pid]) ==> status == Forbidden
    ensures pid in old(db.projects) && CanEdit(me, old(db.projects)[pid]) ==>
              (status == Ok <==> ProjectBodyOk(body) && body.value.staff != Some(Null) && body.value.staff != Some(Malformed))
    ensures pid in old(db.projects) && CanEdit(me, old(db.projects)[pid]) && status != Ok ==> status == BadRequest
    ensures status == Ok || status == Forbidden || status == BadRequest
    ensures pid in old(db.projects) && CanEdit(me, old(db.projects)[pid]) && ProjectBodyOk(body) ==>
              var p := old(db.projects)[pid];
              db.projects == old(db.projects)[pid := p.(
                name := body.value.name.value,
                description := body.value.description.GetOr(""),
                startDate := body.value.created.value,
                members := if body.value.staff.Some? && body.value.staff.value.Ids?
                           then ExistingUsers(body.value.staff.value.ids, old(db.users).Keys)
                           else p.members)]
    ensures !(pid in old(db.projects) && CanEdit(me, old(db.projects)[pid]) && ProjectBodyOk(body)) ==>
              db.projects == old(db.projects)
  {
    if pid !in db.projects {
      return BadRequest;
    }
    var project := db.projects[pid];
    if !me.isSuperuser && project.createdBy != Some(me.id) {
      return Forbidden;
    }
    if me.role != TeamLead && !me.isSuperuser {
      return Forbidden;
    }
    if !ProjectBodyOk(body) {
      return BadRequest;
    }
    var data := body.value;
    project := project.(name := data.name.value, description := data.description.GetOr(""), startDate := data.created.value);
    db.SaveProject(pid, project);
    if data.staff.Some? {
      if !data.staff.value.Ids? {
        return BadRequest;
      }
      project := project.(members := ExistingUsers(data.staff.value.ids, db.users.Keys));
      db.SaveProject(pid, project);
    }
    return Ok;
  }

  /**
   * `delete_project`: the same permission rule as `update_project`; on
   * success the project and all its tasks are gone.
   */
  method DeleteProject(db: Db, me: User, pid: ProjectId) returns (status: HttpStatus)
    requires db.Valid() && db.IsUser(me)
    modifies db
    ensures db.Valid()
    ensures db.users == old(db.users) && db.profiles == old(db.profiles)
    ensures pid !in old(db.projects) ==> status == BadRequest
    ensures pid in old(db.projects) ==> (status == Ok <==> CanEdit(me, old(db.projects)[pid]))
    ensures pid in old(db.projects) && !CanEdit(me, old(db.projects)[pid]) ==> status == Forbidden
    ensures status != Ok ==> db.projects == old(db.projects) && db.tasks == old(db.tasks)
    ensures status == Ok ==>
              && db.projects == old(db.projects) - {pid}
              && db.tasks == (map t | t in old(db.tasks) && old(db.tasks)[t].project != pid :: old(db.tasks)[t])
              && TotalCost(db.tasks, pid) == 0
    ensures status == Ok || status == Forbidden || status == BadRequest
  {
    if pid !in db.projects {
      return BadRequest;
    }
    var project := db.projects[pid];
    if !me.isSuperuser && project.createdBy != Some(me.id) {
      return Forbidden;
    }
    if me.role != TeamLead && !me.isSuperuser {
      return Forbidden;
    }
    db.DeleteProject(pid);
    CascadeLeavesNoOrphans(old(db.tasks), pid);
    return Ok;
  }

  /**
   * One key of a task body: left out, a value its column converts, or a
   * value the conversion refuses (text that is no number for a decimal
   * column or for `assigned_to`, anything but true/false, 1/0 or their
   * spellings for `completed`).
   */
  datatype Entry<T> = Absent | Given(value: T) | Refused
  {
    function GetOr(default: T): T {
      if Given? then value else default
    }
  }

  /**
   * A task request body. `assignedTo` is `Given(0)` for every falsy value
   * (null, 0, empty string): user ids start at 1.
   */
  datatype TaskPayload = TaskPayload(
    title: Option<string>,
    description: Option<string>,
    timeTaken: Entry<int>,
    cost: Entry<int>,
    assignedTo: Entry<UserId>,
    completed: Entry<bool>)

  /** Every key present converts to its column's type. */
  predicate Converts(e: TaskPayload) {
    !e.timeTaken.Refused? && !e.cost.Refused? && !e.assignedTo.Refused? && !e.completed.Refused?
  }

  /** The keys `me`'s edit reads all convert: every key for a lead, `completed` alone otherwise. */
  predicate ConvertsFor(me: User, e: TaskPayload) {
    if IsLeadOrSuperuser(me) then Converts(e) else !e.completed.Refused?
  }

  /** `User.objects.filter(id=v).first() if v else None`. */
  function AssigneeOf(v: UserId, users: set<UserId>): (r: Option<UserId>)
    ensures r.Some? <==> v != 0 && v in users
    ensures r.Some? ==> r.value == v
  {
    if v != 0 && v in users then Some(v) else None
  }

  /** The task `create_task` builds: defaults for every key the body leaves out. */
  function NewTask(pid: ProjectId, e: TaskPayload, users: set<UserId>, now: int): (t: Task)
    requires e.title.Some?
    ensures t.project == pid && t.title == e.title.value && t.createdAt == now
    ensures t.assignedTo.Some? ==> t.assignedTo.value in users && e.assignedTo == Given(t.assignedTo.value)
  {
    Task(
      pid,
      if e.assignedTo.Given? then AssigneeOf(e.assignedTo.value, users) else None,
      e.title.value,
      e.description.GetOr(""),
      e.timeTaken.GetOr(0),
      e.cost.GetOr(0),
      now,
      e.completed.GetOr(false))
  }

  /** A task created from a title alone is unassigned, empty, free, and not completed. */
  lemma NewTaskDefaults(pid: ProjectId, title: string, users: set<UserId>, now: int)
    ensures var t := NewTask(pid, TaskPayload(Some(title), None, Absent, Absent, Absent, Absent), users, now);
            t == Task(pid, None, title, "", 0, 0, now, false) && Storable(t)
  {
  }

  /** A team lead's or superuser's edit: every key present in the body is written, no other. */
  function FullEdit(t: Task, e: TaskPayload, users: set<UserId>): (r: Task)
    ensures r.project == t.project && r.createdAt == t.createdAt
  {
    t.(title := e.title.GetOr(t.title),
       description := e.description.GetOr(t.description),
       timeTaken := e.timeTaken.GetOr(t.timeTaken),
       cost := e.cost.GetOr(t.cost),
       assignedTo := if e.assignedTo.Given? then AssigneeOf(e.assignedTo.value, users) else t.assignedTo,
       completed := e.completed.GetOr(t.completed))
  }

  /** A staff assignee's edit: only `completed` can change. */
  function StaffEdit(t: Task, e: TaskPayload): (r: Task)
    ensures r.project == t.project && r.createdAt == t.createdAt
  {
    t.(completed := e.completed.GetOr(t.completed))
  }

  /** The edit `update_task` applies for `me`. */
  function EditFor(me: User, t: Task, e: TaskPayload, users: set<UserId>): (r: Task)
    ensures r.project == t.project && r.createdAt == t.createdAt
    ensures !IsLeadOrSuperuser(me) ==> r == t.(completed := r.completed)
    ensures r.assignedTo.Some? ==> r.assignedTo == t.assignedTo || r.assignedTo.value in users
  {
    if IsLeadOrSuperuser(me) then FullEdit(t, e, users) else StaffEdit(t, e)
  }

  /** The body with every key but `completed` removed. */
  function OnlyCompleted(e: TaskPayload): TaskPayload {
    TaskPayload(None, None, Absent, Absent, Absent, e.completed)
  }

  /**
   * A staff assignee's other keys are ignored, not refused: their edit is the
   * full edit of the body reduced to `completed`, and leaves every other field.
   */
  lemma StaffEditIgnoresOtherKeys(t: Task, e: TaskPayload, users: set<UserId>)
    ensures StaffEdit(t, e) == FullEdit(t, OnlyCompleted(e), users)
    ensures StaffEdit(t, e) == t.(completed := StaffEdit(t, e).completed)
  {
  }

  /** Applying the same body twice writes nothing new. */
  lemma FullEditIdempotent(t: Task, e: TaskPayload, users: set<UserId>)
    ensures FullEdit(FullEdit(t, e, users), e, users) == FullEdit(t, e, users)
  {
  }

  /** A task that exists under the URL's project. */
  predicate TaskFound(tasks: map<TaskId, Task>, pid: ProjectId, tid: TaskId) {
    tid in tasks && tasks[tid].project == pid
  }

  /**
   * `create_task`: 404 for a missing project, 403 for anyone but a team lead
   * (of any project) or a superuser, 400 for a body without a title, with a
   * value its column does not convert, or with values the decimal columns
   * cannot hold; nothing is written then.
   */
  method CreateTask(db: Db, me: User, pid: ProjectId, body: Option<TaskPayload>, now: int)
    returns (status: HttpStatus, id: Option<TaskId>)
    requires db.Valid() && db.IsUser(me)
    modifies db
    ensures db.Valid()
    ensures db.users == old(db.users) && db.profiles == old(db.profiles) && db.projects == old(db.projects)
    ensures pid !in old(db.projects) ==> status == NotFound
    ensures pid in old(db.projects) && !IsLeadOrSuperuser(me) ==> status == Forbidden
    ensures status == Ok <==>
              && pid in old(db.projects) && IsLeadOrSuperuser(me)
              && body.Some? && body.value.title.Some? && Converts(body.value)
              && Storable(NewTask(pid, body.value, old(db.users).Keys, now))
    ensures pid in old(db.projects) && IsLeadOrSuperuser(me) && status != Ok ==> status == BadRequest
    ensures status != Ok ==> id == None && db.tasks == old(db.tasks)
    ensures status == Ok ==>
              var t := NewTask(pid, body.value, old(db.users).Keys, now);
              && id.Some? && id.value !in old(db.tasks)
              && db.tasks == old(db.tasks)[id.value := t]
              && TotalCost(db.tasks, pid) == TotalCost(old(db.tasks), pid) + t.cost
  {
    if pid !in db.projects {
      return NotFound, None;
    }
    if me.role != TeamLead && !me.isSuperuser {
      return Forbidden, None;
    }
    if body.None? || body.value.title.None? {
      return BadRequest, None;
    }
    if !Converts(body.value) {
      return BadRequest, None;
    }
    var t := NewTask(pid, body.value, db.users.Keys, now);
    if !Storable(t) {
      return BadRequest, None;
    }
    var newId := db.InsertTask(t);
    TotalCostAdd(old(db.tasks), newId, t, pid);
    return Ok, Some(newId);
  }

  /**
   * `update_task`: any team lead or superuser edits every key present;
   * anyone else must be the assignee and can only change `completed`, and
   * is refused with 403 otherwise (after the body was parsed). Invalid JSON,
   * a key the edit reads that does not convert, or an edit the columns
   * cannot hold is a 400 with nothing saved.
   */
  method UpdateTask(db: Db, me: User, pid: ProjectId, tid: TaskId, body: Option<TaskPayload>) returns (status: HttpStatus)
    requires db.Valid() && db.IsUser(me)
    modifies db
    ensures db.Valid()
    ensures db.users == old(db.users) && db.profiles == old(db.profiles) && db.projects == old(db.projects)
    ensures !TaskFound(old(db.tasks), pid, tid) ==> status == NotFound
    ensures status == Forbidden <==>
              && TaskFound(old(db.tasks), pid, tid) && body.Some?
              && !IsLeadOrSuperuser(me) && old(db.tasks)[tid].assignedTo != Some(me.id)
    ensures status == Ok <==>
              && TaskFound(old(db.tasks), pid, tid) && body.Some?
              && (IsLeadOrSuperuser(me) || old(db.tasks)[tid].assignedTo == Some(me.id))
              && ConvertsFor(me, body.value)
              && Storable(EditFor(me, old(db.tasks)[tid], body.value, old(db.users).Keys))
    ensures TaskFound(old(db.tasks), pid, tid) && status != Ok && status != Forbidden ==> status == BadRequest
    ensures status != Ok ==> db.tasks == old(db.tasks)
    ensures status == Ok ==>
              var t := EditFor(me, old(db.tasks)[tid], body.value, old(db.users).Keys);
              && db.tasks == old(db.tasks)[tid := t]
              && TotalCost(db.tasks, pid) == TotalCost(old(db.tasks), pid) - old(db.tasks)[tid].cost + t.cost
  {
    if tid !in db.tasks || db.tasks[tid].project != pid {
      return NotFound;
    }
    if body.None? {
      return BadRequest;
    }
    var task := db.tasks[tid];
    var data := body.value;
    if me.role == TeamLead || me.isSuperuser {
      task := FullEdit(task, data, db.users.Keys);
    } else {
      if task.assignedTo != Some(me.id) {
        return Forbidden;
      }
      task := StaffEdit(task, data);
    }
    if !ConvertsFor(me, data) || !Storable(task) {
      return BadRequest;
    }
    db.SaveTask(tid, task);
    TotalCostReplace(old(db.tasks), tid, task, pid);
    return Ok;
  }

  /** `delete_task`: 404 unless the task is under the project, then 403 for anyone but a team lead or superuser. */
  method DeleteTask(db: Db, me: User, pid: ProjectId, tid: TaskId) returns (status: HttpStatus)
    requires db.Valid() && db.IsUser(me)
    modifies db
    ensures db.Valid()
    ensures db.users == old(db.users) && db.profiles == old(db.profiles) && db.projects == old(db.projects)
    ensures !TaskFound(old(db.tasks), pid, tid) ==> status == NotFound
    ensures TaskFound(old(db.tasks), pid, tid) ==> (status == Ok <==> IsLeadOrSuperuser(me))
    ensures TaskFound(old(db.tasks), pid, tid) && !IsLeadOrSuperuser(me) ==> status == Forbidden
    ensures status != Ok ==> db.tasks == old(db.tasks)
    ensures status == Ok ==>
              && db.tasks == old(db.tasks) - {tid}
              && TotalCost(db.tasks, pid) == TotalCost(old(db.tasks), pid) - old(db.tasks)[tid].cost
    ensures status == Ok || status == Forbidden || status == NotFound
  {
    if tid !in db.tasks || db.tasks[tid].project != pid {
      return NotFound;
    }
    if me.role != TeamLead && !me.isSuperuser {
      return Forbidden;
    }
    TotalCostRemove(db.tasks, tid, pid);
    db.DeleteTask(tid);
    return Ok;
  }
}
