/**
 * The admin site's rules for projects and tasks (projects/admin.py): the
 * row filters behind each change list, the creator stamp on save, and the
 * "Total Cost" column.
 */
module ProjectAdmin {
  import opened Wrappers
  import opened Text
  import opened ProjectModels
  import ProjectViews

  /** The admin's requester; unlike the views, the admin tolerates a user without a profile. */
  datatype AdminUser = AdminUser(id: UserId, isSuperuser: bool, profile: Option<Role>)

  /** `ProjectAdmin.get_queryset`. */
  function ProjectQueryset(projects: map<ProjectId, Project>, u: AdminUser): (r: set<ProjectId>)
    ensures r <= projects.Keys
    ensures u.isSuperuser ==> r == projects.Keys
    ensures !u.isSuperuser && u.profile == Some(TeamLead) ==>
              forall p :: p in r <==> p in projects && projects[p].createdBy == Some(u.id)
    ensures !u.isSuperuser && u.profile != Some(TeamLead) ==> r == {}
  {
    if u.isSuperuser then projects.Keys
    else if u.profile == Some(TeamLead) then set p | p in projects && projects[p].createdBy == Some(u.id)
    else {}
  }

  /** `TaskAdmin.get_queryset`: a team lead gets the tasks of the projects they created. */
  function TaskQueryset(projects: map<ProjectId, Project>, tasks: map<TaskId, Task>, u: AdminUser): (r: set<TaskId>)
    ensures r <= tasks.Keys
    ensures u.isSuperuser ==> r == tasks.Keys
    ensures !u.isSuperuser && u.profile == Some(TeamLead) ==>
              forall t :: t in r <==>
                t in tasks && tasks[t].project in projects && projects[tasks[t].project].createdBy == Some(u.id)
    ensures !u.isSuperuser && u.profile == Some(Staff) ==>
              forall t :: t in r <==> t in tasks && tasks[t].assignedTo == Some(u.id)
    ensures !u.isSuperuser && u.profile.None? ==> r == {}
  {
    if u.isSuperuser then tasks.Keys
    else if u.profile == Some(TeamLead) then
      set t | t in tasks && tasks[t].project in projects && projects[tasks[t].project].createdBy == Some(u.id)
    else if u.profile == Some(Staff) then
      set t | t in tasks && tasks[t].assignedTo == Some(u.id)
    else {}
  }

  /**
   * The admin never lists a project the user-facing listing hides: for a
   * superuser or a team lead the two agree, staff get none in the admin.
   */
  lemma AdminProjectsWithinListing(projects: map<ProjectId, Project>, id: UserId, su: bool, role: Role)
    ensures ProjectQueryset(projects, AdminUser(id, su, Some(role)))
         <= ProjectViews.VisibleProjects(projects, ProjectModels.User(id, su, role))
    ensures ProjectViews.IsLeadOrSuperuser(ProjectModels.User(id, su, role)) ==>
              (ProjectQueryset(projects, AdminUser(id, su, Some(role)))
               == ProjectViews.VisibleProjects(projects, ProjectModels.User(id, su, role)))
  {
  }

  /**
   * A team lead's admin task list is the union, over the projects the lead
   * sees, of the tasks of that project: so it is narrower than the API,
   * which shows a team lead the tasks of any project.
   */
  lemma LeadAdminTasksAreOwnProjects(projects: map<ProjectId, Project>, tasks: map<TaskId, Task>, id: UserId)
    ensures var lead := ProjectModels.User(id, false, TeamLead);
            forall t :: t in TaskQueryset(projects, tasks, AdminUser(id, false, Some(TeamLead))) <==>
              t in tasks && tasks[t].project in ProjectViews.VisibleProjects(projects, lead)
  {
  }

  /** The project `save_model` writes: the requester is stamped only on a new project without creator. */
  function Stamped(obj: Project, me: UserId, change: bool): (r: Project)
    ensures r.createdBy.Some?
            || (r.createdBy.None? && change && obj.createdBy.None?)
    ensures !change && obj.createdBy.None? ==> r.createdBy == Some(me)
    ensures obj.createdBy.Some? || change ==> r == obj
    ensures r == obj.(createdBy := r.createdBy)
  {
    if !change && obj.createdBy.None? then obj.(createdBy := Some(me)) else obj
  }

  /**
   * `ProjectAdmin.save_model`: `existing` names the row being changed, or is
   * `None` for the add form; the stamped object is then saved.
   */
  method SaveModel(db: Db, me: AdminUser, obj: Project, existing: Option<ProjectId>) returns (id: ProjectId)
    requires db.Valid() && me.id in db.users && ProjectRefsOk(obj, db.users.Keys)
    requires existing.Some? ==> existing.value in db.projects
    modifies db
    ensures db.Valid()
    ensures db.users == old(db.users) && db.profiles == old(db.profiles) && db.tasks == old(db.tasks)
    ensures existing.Some? ==> id == existing.value
    ensures existing.None? ==> id !in old(db.projects)
    ensures db.projects == old(db.projects)[id := Stamped(obj, me.id, existing.Some?)]
  {
    var stored := Stamped(obj, me.id, existing.Some?);
    if existing.Some? {
      id := existing.value;
      db.SaveProject(id, stored);
    } else {
      id := db.InsertProject(stored);
    }
  }

  function Abs(x: int): nat {
    if x < 0 then -x else x
  }

  /** `f"{d:.2f}"` for a decimal `d` held as whole hundredths. */
  function Fixed2(hundredths: int): (s: string)
    ensures 4 <= |s| && s[|s| - 3] == '.'
  {
    (if hundredths < 0 then "-" else "") + NatText(Abs(hundredths) / 100) + "." + Pad2(Abs(hundredths) % 100)
  }

  /** The amount `units.cc` in hundredths, negated after a minus sign. */
  function SignedHundredths(negative: bool, units: nat, cents: nat): int {
    if negative then -(units * 100 + cents) else units * 100 + cents
  }

  /** Reads an optional minus, digits, a point and two digits back into hundredths. */
  function ParseFixed2(s: string): Option<int> {
    if |s| < 4 || s[|s| - 3] != '.' then None
    else ParseAmount(s[..|s| - 3], s[|s| - 2..])
  }

  function ParseAmount(whole: string, frac: string): Option<int>
    requires |whole| >= 1
  {
    var negative := whole[0] == '-';
    var digits := if negative then whole[1..] else whole;
    if |digits| == 0 || !AllDigits(digits) || !AllDigits(frac) then None
    else Some(SignedHundredths(negative, DigitsValue(digits), DigitsValue(frac)))
  }

  lemma SplitAtPoint(w: string, frac: string)
    requires |w| >= 1 && |frac| == 2
    ensures ParseFixed2(w + "." + frac) == ParseAmount(w, frac)
  {
    var s := w + "." + frac;
    assert s[..|s| - 3] == w && s[|s| - 3] == '.' && s[|s| - 2..] == frac;
  }

  lemma ParseAmountNegative(whole: string, frac: string)
    requires 1 <= |whole| && AllDigits(whole) && AllDigits(frac)
    ensures ParseAmount("-" + whole, frac) == Some(SignedHundredths(true, DigitsValue(whole), DigitsValue(frac)))
  {
    assert ("-" + whole)[1..] == whole;
  }

  lemma ParseAmountPlain(whole: string, frac: string)
    requires 1 <= |whole| && AllDigits(whole) && AllDigits(frac)
    ensures ParseAmount(whole, frac) == Some(SignedHundredths(false, DigitsValue(whole), DigitsValue(frac)))
  {
    assert IsDigit(whole[0]);
  }

  lemma Fixed2Parses(hundredths: int)
    ensures ParseFixed2(Fixed2(hundredths)) == Some(hundredths)
  {
    var a := Abs(hundredths);
    var whole, frac := NatText(a / 100), Pad2(a % 100);
    NatTextValue(a / 100);
    if hundredths < 0 {
      assert Fixed2(hundredths) == ("-" + whole) + "." + frac;
      SplitAtPoint("-" + whole, frac);
      ParseAmountNegative(whole, frac);
    } else {
      assert Fixed2(hundredths) == whole + "." + frac;
      SplitAtPoint(whole, frac);
      ParseAmountPlain(whole, frac);
    }
    assert SignedHundredths(hundredths < 0, a / 100, a % 100) == hundredths;
  }

  /** `total_cost_display`: a dollar sign and the project's total cost to two decimals. */
  ghost function TotalCostDisplay(tasks: map<TaskId, Task>, p: ProjectId): (s: string)
    ensures |s| >= 5 && s[0] == '$'
  {
    "$" + Fixed2(TotalCost(tasks, p))
  }

  /** The displayed amount reads back as exactly the project's total cost. */
  lemma TotalCostDisplayShowsTotal(tasks: map<TaskId, Task>, p: ProjectId)
    ensures ParseFixed2(TotalCostDisplay(tasks, p)[1..]) == Some(TotalCost(tasks, p))
  {
    var s := TotalCostDisplay(tasks, p);
    assert s[1..] == Fixed2(TotalCost(tasks, p));
    Fixed2Parses(TotalCost(tasks, p));
  }
}
