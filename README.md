# DNC Dashboard core, modelled in Dafny

This project models the core logic of the DNC Dashboard. The dashboard is a Django site with three parts:

- **Project tracker** (`projects/`). Users have a profile role: team lead or staff. A separate flag marks superusers. Projects are created by a team lead and have staff members. Tasks belong to a project and carry a cost. The JSON endpoints decide who sees, creates, changes and deletes what. The admin site filters rows by the same roles and shows each project's total cost.
- **Kanban board** (`apps/pages/models.py`, `apps/pages/viewsets.py`). All users share one board. Its cards sit in four status columns. A new card goes to the bottom of its column. `move` puts a card at a position and shifts the cards below it down.
- **Analytics** (`apps/pages/ga.py`, `apps/analytics/`). These read Google Analytics 4 reports and reshape them into:
  - metric cards;
  - chart series;
  - tables;
  - a one-page traffic view.

  There is also a stub JSON endpoint with fixed numbers.

Layout, one module per source component:

- `wrappers.dfy`: Option and Result.
- `http.dfy`: the status codes the endpoints answer with.
- `text.dfy`: decimal text, `int()` parsing, two-digit padding, Python slicing and string order.
- `project_models.dfy`: the records and the relational store `Db`. `Db` is a class whose maps the endpoints update. It has the CASCADE and SET_NULL rules and the derived total cost.
- `project_views.dfy`: the project and task endpoints, as methods on a `Db`.
- `project_admin.dfy`: the admin row filters, the creator stamp and the cost column.
- `board_models.dfy`: the card record, its statuses and the listing order.
- `board_viewset.dfy`: the board as a class, with `perform_create` and `move`.
- `reporting.dfy`: report requests and rows. It also defines the report call as a function parameter (an oracle).
- `pages_ga.dfy`: the GA helpers, with the cached client as a class.
- `onepage.dfy`: the one-page analytics view.
- `analytics_stub.dfy`: the stub backend.
- `analytics_views.dfy`: the traffic JSON endpoint.

How the model represents the source's values:

- Decimal columns are whole hundredths.
- Dates are day numbers; 0001-01-01 is day 1.
- Timestamps are integers.
- A request body that is not valid JSON is `None`.
- An exception caught by a view's `except` becomes the status code that handler returns.

In these places the code behaves differently from what its names or docstrings suggest; the model follows the code:

- A staff assignee's other keys in a task update are ignored, not refused.
- Any team lead, not only the project's creator, may list, create, edit and delete the tasks of any project.
- `update_project` and `delete_project` answer 400 for a missing project. The 404 is raised inside their catch-all `except Exception`.
- The device breakdown asks for 28 days although its name says 7.

## Model

| member | source | states |
|---|---|---|
| Text.NatText | apps/pages/ga.py:55 | Decimal text of a natural: non-empty, digits only |
| Text.NatTextValue | apps/pages/ga.py:55 | The digits of `str(n)` denote `n` again |
| Text.IntText | apps/pages/ga.py:55 | `f"{i:d}"` is never empty |
| Text.ParseInt | apps/analytics/views.py:8-11 | `int(s)` succeeds only on a non-empty string |
| Text.IntTextParses | apps/analytics/onepage.py:56 | `int(str(i)) == i` for every integer, negative ones included |
| Text.Pad2 | apps/pages/ga.py:55 | `f"{n:02d}"` for n < 100: exactly two digits that denote n |
| Text.PySlice | apps/pages/ga.py:237 | Python slicing: the ordinary slice when the bounds are in range, never longer than the string |
| Text.LexLess | apps/pages/models.py:25 | Python's string `<`: never between equal strings, and a proper prefix sorts first |
| Text.LexLessIrreflexive | apps/pages/models.py:25 | No string sorts before itself |
| Text.LexLessTransitive | apps/pages/models.py:25 | String order is transitive |
| ProjectModels.TasksOf | projects/models.py:43 | A project's tasks are exactly the stored tasks whose project is it |
| ProjectModels.SumCosts | projects/models.py:36 | The sum of no costs is 0; non-negative costs sum to a non-negative total |
| ProjectModels.TotalCost | projects/models.py:34-36 | `total_cost` is never negative when the project's task costs are not |
| ProjectModels.SumCostsPick | projects/models.py:34-36 | The cost sum does not depend on which task is taken first |
| ProjectModels.SumCostsFrame | projects/models.py:34-36 | The cost sum reads only the costs of the tasks summed |
| ProjectModels.TotalCostRemove | projects/models.py:34-36 | Removing a task lowers its own project's `total_cost` by its cost; other projects are unaffected |
| ProjectModels.TotalCostAdd | projects/models.py:34-36 | Adding a task raises its project's total by its cost |
| ProjectModels.TotalCostReplace | projects/models.py:34-36 | Replacing a task moves each total by the difference its project sees |
| ProjectModels.TotalCostNoTasks | projects/models.py:34-36 | A project without tasks costs 0 |
| ProjectModels.Db.constructor | projects/models.py:6-50 | An empty store is consistent |
| ProjectModels.Db.CreateUser | projects/models.py:19-23 | A new user gets exactly one profile, with the default STAFF role |
| ProjectModels.ForgetUserInProject | projects/models.py:30-31 | Deleting a user drops their membership and nulls the project's creator when it was them (SET_NULL); nothing else changes |
| ProjectModels.ForgetUserInTask | projects/models.py:44 | Deleting a user unassigns the tasks assigned to them (SET_NULL); other tasks are unchanged |
| ProjectModels.Db.DeleteUser | projects/models.py:12 | Profile deleted with the user (CASCADE); creators and assignees set to null; membership dropped; store stays consistent |
| ProjectModels.Db.InsertProject | projects/models.py:25-31 | A new project row under a fresh id; nothing else changes |
| ProjectModels.Db.SaveProject | projects/models.py:25-31 | Overwrites one project row; nothing else changes |
| ProjectModels.Db.DeleteProject | projects/models.py:43 | Deleting a project deletes exactly its tasks (CASCADE) |
| ProjectModels.Db.InsertTask | projects/models.py:42-50 | A new task row under a fresh id, only when its references resolve and its decimals fit |
| ProjectModels.Db.SaveTask | projects/models.py:42-50 | Overwrites one task row; nothing else changes |
| ProjectModels.Db.DeleteTask | projects/models.py:42-50 | Removes exactly one task row |
| ProjectModels.CascadeLeavesNoOrphans | projects/models.py:43 | After the cascade, the deleted project's total is 0 |
| ProjectViews.IsLeadOrSuperuser | projects/views.py:96 | The role test of project and task creation, task deletion and full edits fails only for a plain staff user |
| ProjectViews.CanEdit | projects/views.py:34 | `can_edit` equals the creator-or-superuser check and the lead-or-superuser check of update and delete together |
| ProjectViews.VisibleProjects | projects/views.py:21-29 | Superuser: all projects; team lead: those they created; staff: those they are a member of |
| ProjectViews.ListingMatchesEditRights | projects/views.py:21-34 | Every editable project is listed; a listed project is editable exactly for team leads and superusers |
| ProjectViews.GetProjects | projects/views.py:17-51 | Lists exactly the visible projects, each with its `can_edit`, its total cost and its members |
| ProjectViews.TasksView | projects/views.py:199-207 | As written: 404 for a missing project; 403 exactly for a staff-role non-member, whatever the superuser flag |
| ProjectViews.StaffTaskPagesAreListedProjects | projects/views.py:204-205 | A plain staff user may open exactly the task pages of the projects listed for them |
| ProjectViews.SuperuserRefusedTaskPage | projects/views.py:204 | A superuser with the default STAFF profile is refused a project they may edit |
| ProjectViews.TasksViewCorrected | projects/views.py:199-207 | Corrected: 403 only for a non-superuser staff non-member |
| ProjectViews.ListedProjectsOpenCorrected | projects/views.py:204 | Corrected: whoever may edit or sees a project listed may open its task page |
| ProjectViews.StaffMembers | projects/views.py:70-89 | Lists exactly the users whose profile is STAFF; `can_assign` only for team leads and superusers |
| ProjectViews.GetProjectTasks | projects/views.py:212-238 | 404 for a missing project; team leads and superusers get all its tasks; others only those assigned to them; the role label |
| ProjectViews.ExistingUsers | projects/views.py:111-113 | The member ids kept are exactly the requested ids that name users |
| ProjectViews.CreateProject | projects/views.py:94-130 | 403 unless team lead or superuser; 400 with nothing written for a bad body; otherwise a new project with the requester as creator and the existing requested members, answered 400, never another code, with the row already written when `staff` is malformed |
| ProjectViews.UpdateProject | projects/views.py:134-175 | 400 for a missing project or a bad body; 403 unless `can_edit`; fields saved, members replaced only by a `staff` list; for an editor every refusal is a 400, including a null or malformed `staff` after the save |
| ProjectViews.DeleteProject | projects/views.py:179-196 | 400 for a missing project; 200 exactly when `can_edit`, 403 otherwise; the project and all its tasks go |
| ProjectViews.AssigneeOf | projects/views.py:254-265 | An assignee is kept only when the id is non-zero and names a user |
| ProjectViews.NewTask | projects/views.py:253-265 | The new task belongs to the URL's project, carries the title and creation time, and is assigned only to an existing user |
| ProjectViews.NewTaskDefaults | projects/views.py:254-265 | A task from a title alone is unassigned, blank, free and not completed |
| ProjectViews.FullEdit | projects/views.py:295-306 | A full edit never moves a task to another project or changes its creation time |
| ProjectViews.StaffEdit | projects/views.py:307-314 | A staff edit never moves a task or changes its creation time |
| ProjectViews.EditFor | projects/views.py:295-314 | Neither edit moves the task or changes its creation time; a non-lead changes only `completed`; an assignee is the old one or an existing user |
| ProjectViews.StaffEditIgnoresOtherKeys | projects/views.py:307-314 | A staff edit equals the full edit of the body reduced to `completed`, and touches no other field |
| ProjectViews.FullEditIdempotent | projects/views.py:295-306 | Sending the same body twice changes nothing more |
| ProjectViews.CreateTask | projects/views.py:243-282 | 404 for a missing project; 403 unless team lead or superuser; 200 exactly for a titled body whose values convert and whose decimals fit, 400 otherwise with nothing written; the project's total grows by the new cost |
| ProjectViews.UpdateTask | projects/views.py:287-333 | 404 unless the task is under the project; 403 exactly for a non-assignee without rights; 400 with nothing saved for invalid JSON, a key the role's edit reads that does not convert, or an edit the columns cannot hold; otherwise the edit matching the role, total adjusted |
| ProjectViews.DeleteTask | projects/views.py:338-350 | 404 unless the task is under the project; 200 exactly for team leads and superusers, 403 otherwise; total drops by its cost |
| ProjectAdmin.ProjectQueryset | projects/admin.py:23-29 | Superuser: all; team lead: the projects they created; anyone else: none |
| ProjectAdmin.TaskQueryset | projects/admin.py:49-57 | Superuser: all; team lead: tasks of projects they created; staff: tasks assigned to them; no profile: none |
| ProjectAdmin.AdminProjectsWithinListing | projects/admin.py:23-29 | The admin never lists a project the API hides; for leads and superusers both lists agree |
| ProjectAdmin.LeadAdminTasksAreOwnProjects | projects/admin.py:53-54 | A team lead's admin tasks are exactly the tasks of the projects listed for them |
| ProjectAdmin.Stamped | projects/admin.py:32-35 | On an add without a creator, the creator becomes the requester; otherwise the object is saved as given; no other field changes |
| ProjectAdmin.SaveModel | projects/admin.py:32-35 | The stamped object is saved under its id, or under a fresh id when added |
| ProjectAdmin.Fixed2 | projects/admin.py:38 | `:.2f` text ends in a point and two digits |
| ProjectAdmin.SplitAtPoint | projects/admin.py:38 | Parsing a two-decimal text splits it at its point |
| ProjectAdmin.ParseAmountNegative | projects/admin.py:38 | A minus sign negates the amount read |
| ProjectAdmin.ParseAmountPlain | projects/admin.py:38 | Without a sign, the digits are read as they stand |
| ProjectAdmin.Fixed2Parses | projects/admin.py:38 | The two-decimal text of any amount reads back as that amount |
| ProjectAdmin.TotalCostDisplay | projects/admin.py:37-38 | The cost column starts with `$` |
| ProjectAdmin.TotalCostDisplayShowsTotal | projects/admin.py:37-38 | The cost column shows exactly the project's `total_cost` |
| BoardModels.StatusValue | apps/pages/models.py:9-13 | Every status is stored as a short string |
| BoardModels.StatusFromValue | apps/pages/models.py:9-13 | A recognised string names the status that is stored as it |
| BoardModels.StatusValueRoundTrip | apps/pages/models.py:9-13 | Every status is read back from its stored string |
| BoardModels.StatusRank | apps/pages/models.py:25 | Four column positions |
| BoardModels.StatusStringsOrder | apps/pages/models.py:25 | Ordering by the stored strings lists backlog, done, inprogress, todo |
| BoardModels.ListedBefore | apps/pages/models.py:25 | Never lists a later column first; within a column, by order then creation time |
| BoardModels.ListedBeforeByRank | apps/pages/models.py:25 | The default ordering is by column position, then order, then creation time |
| BoardModels.ListedBeforeStrict | apps/pages/models.py:25 | The listing order is irreflexive and transitive |
| BoardModels.ListedBeforeTotal | apps/pages/models.py:25 | Cards that differ in status, order or creation time are always ordered one way round |
| BoardViewSet.Shifted | apps/pages/viewsets.py:31 | The bulk shift keeps every card |
| BoardViewSet.Placed | apps/pages/viewsets.py:31-35 | A successful move keeps every card |
| BoardViewSet.ShiftedKeepsDistinct | apps/pages/viewsets.py:31 | The shift keeps each column's orders distinct |
| BoardViewSet.PlacedKeepsOrdersDistinct | apps/pages/viewsets.py:30-35 | After a move, orders stay distinct in each column and the moved card alone holds its position |
| BoardViewSet.PlacedKeepsRelativeOrder | apps/pages/viewsets.py:30-35 | Cards sharing a column keep their relative order through a move |
| BoardViewSet.Board.constructor | apps/pages/viewsets.py:10 | The board starts empty |
| BoardViewSet.Board.ColumnMaxOrder | apps/pages/viewsets.py:17 | `Max("order") or 0`: an upper bound on the column's orders, attained unless 0 |
| BoardViewSet.Board.PerformCreate | apps/pages/viewsets.py:14-18 | The new card goes in the requested column (backlog by default), below every card there, one past the largest order; no other card changes |
| BoardViewSet.Board.Move | apps/pages/viewsets.py:20-36 | Corrected: 404 for a missing card; 500 for an `order` that `int()` refuses (null, a list, non-numeric text); a negative order keeps the shift and fails; otherwise the shift and the placed card |
| BoardViewSet.Board.MoveAsWritten | apps/pages/viewsets.py:26-31 | As written: every move of an existing card is a 500 and the board is unchanged |
| PagesGa.MetricValue | apps/pages/ga.py:188-205 | Rates are scaled to percent; the shown value is positive exactly when the raw value is |
| Reporting.RowsOf | apps/pages/ga.py:229-231 | Rows come only from a call that succeeded with a non-empty response |
| PagesGa.FmtSecsToHms | apps/pages/ga.py:49-57 | `H:MM:SS` shape; the fallback text for an unreadable value |
| PagesGa.HmsRoundTrip | apps/pages/ga.py:53-55 | The formatted duration reads back as the same number of seconds |
| PagesGa.IsoDate | apps/pages/ga.py:237 | For an 8-character date: dashes at 4 and 7; removing them gives the date back |
| PagesGa.CachedAfter | apps/pages/ga.py:99-107 | A cached client is kept; otherwise one exists exactly when credentials do |
| PagesGa.CachedAfterIdempotent | apps/pages/ga.py:103-107 | The client is built at most once |
| PagesGa.SafeRun | apps/pages/ga.py:110-122 | Any failure yields the fallback; success yields the value |
| PagesGa.GaClientCache.constructor | apps/pages/ga.py:46 | No client is cached at first |
| PagesGa.GaClientCache.GetClient | apps/pages/ga.py:99-107 | Returns the cached or newly built client; fails only without both |
| PagesGa.GaClientCache.RunSafely | apps/pages/ga.py:110-122 | The report's rows, or none when the client or the call fails |
| PagesGa.FetchRows | apps/pages/ga.py:229-231 | No property: no rows and no call; otherwise the rows of one defensive call |
| PagesGa.FallbacksDistinct | apps/pages/ga.py:152-163 | No metric set names a metric twice |
| PagesGa.Cards | apps/pages/ga.py:185-205 | Every card is the card of a requested metric whose value is positive, carrying that metric's shown value |
| PagesGa.NonPositiveMetricDropped | apps/pages/ga.py:204-205 | A metric that is zero or negative yields no card |
| PagesGa.CardsComplete | apps/pages/ga.py:204-205 | No positive metric is dropped |
| PagesGa.CardsKeysDistinct | apps/pages/ga.py:185-205 | One card per metric at most |
| PagesGa.Insert | apps/pages/ga.py:207 | Insertion adds exactly one card |
| PagesGa.InsertSorted | apps/pages/ga.py:207 | Insertion keeps a list sorted by value, largest first |
| PagesGa.SortDesc | apps/pages/ga.py:207 | `sort(reverse=True)`: a permutation sorted largest first |
| PagesGa.InsertElements | apps/pages/ga.py:207 | Insertion neither loses nor invents cards |
| PagesGa.HeadKeyUnique | apps/pages/ga.py:207 | In a list of distinct keys, the head's key is not repeated later |
| PagesGa.InsertKeysDistinct | apps/pages/ga.py:207 | Insertion of a new key keeps keys distinct |
| PagesGa.SortDescKeysDistinct | apps/pages/ga.py:207 | Sorting keeps keys distinct |
| PagesGa.FirstWithRows | apps/pages/ga.py:165-183 | The first metric set whose call returns rows, all earlier ones having returned none |
| PagesGa.Overview | apps/pages/ga.py:144-210 | No property: empty; otherwise positive, sorted, distinct cards from the first set that answers |
| PagesGa.OverviewFromFirstAnswer | apps/pages/ga.py:165-208 | The overview is the sorted cards of the first row of the first set that answers |
| PagesGa.OverviewWithoutAnswer | apps/pages/ga.py:210 | With no set answering, the overview is empty |
| PagesGa.CardsOfRow | apps/pages/ga.py:185-205 | The loop builds exactly the positive cards in metric order |
| PagesGa.NonzeroOverview7d | apps/pages/ga.py:144-210 | The loop over metric sets computes the overview; the client is built at most once |
| PagesGa.TimeseriesPoints | apps/pages/ga.py:233-241 | One point per row in row order, with an ISO date and both counts |
| PagesGa.Slices | apps/pages/ga.py:264-265 | One labelled value per row, in row order |
| PagesGa.TopPages | apps/pages/ga.py:319-326 | One entry per row; empty titles become `(untitled)`, empty paths `/` |
| PagesGa.Sources | apps/pages/ga.py:352-360 | One entry per row with source, medium, sessions and conversions |
| PagesGa.Timeseries30d | apps/pages/ga.py:213-241 | No property: nothing; otherwise one ISO-dated point per row of the 30-day report |
| PagesGa.Devices7d | apps/pages/ga.py:244-265 | The device slices of the 28-day report |
| PagesGa.Countries7d | apps/pages/ga.py:268-291 | The country bars of the limited, sorted 7-day report |
| PagesGa.TopPages7d | apps/pages/ga.py:294-326 | The top-pages table, with the fallbacks for empty titles and paths |
| PagesGa.Sources7d | apps/pages/ga.py:329-360 | The sources table of the 7-day report |
| OnePage.Column | apps/analytics/onepage.py:39-43 | One count per row, in row order |
| OnePage.Dates | apps/analytics/onepage.py:38-42 | One date label per row, in row order |
| OnePage.TrafficOf | apps/analytics/onepage.py:35-51 | One label and one session count per row, in row order; the sessions total is the sum of the series |
| OnePage.NormalizeDays | apps/analytics/onepage.py:55-60 | Missing: 7; not an integer: bad request; any other integer than 7, 14 or 30: 7 |
| OnePage.SumAppend | apps/analytics/onepage.py:44-46 | A running total grows by each row's value |
| OnePage.NextRow | apps/analytics/onepage.py:37-46 | One more row extends the labels, the columns and the totals by that row |
| OnePage.NextTraffic | apps/analytics/onepage.py:37-46 | One more row appends its date and sessions to the series and adds its three counts to the totals |
| OnePage.Tally | apps/analytics/onepage.py:35-46 | The loop over the rows builds exactly the labels, series and totals of all rows |
| OnePage.FetchTimeseries | apps/analytics/onepage.py:23-51 | Fails without a property or when the call fails; otherwise labels, daily sessions and the three totals of the rows |
| OnePage.SummaryMatchesChart | apps/analytics/onepage.py:48-51 | The sessions total is the sum of the chart's points; all zero without rows |
| OnePage.SumBoundsEach | apps/analytics/onepage.py:44 | Each non-negative count is at most the sum |
| OnePage.SumNonNegative | apps/analytics/onepage.py:44-46 | Non-negative counts sum to a non-negative total |
| OnePage.DailySessionsWithinTotal | apps/analytics/onepage.py:43-49 | No day's sessions exceed the total shown |
| OnePage.AnalyticsPage | apps/analytics/onepage.py:53-66 | Bad request exactly for a non-integer `days`; the error card when the fetch fails; otherwise the chart |
| AnalyticsStub.GetSummary | apps/analytics/ga.py:5-7 | Fixed counts 123, 45, 678, and the requested days echoed |
| AnalyticsStub.GetTimeseries | apps/analytics/ga.py:9-17 | `days` consecutive dates ending today with values `10 + i`; fails exactly when the first date is before the first representable date |
| AnalyticsViews.SelectDays | apps/analytics/views.py:7-11 | A non-empty query value wins (7 if not an integer), then a non-zero path value, then 7 |
| AnalyticsViews.TrafficApi | apps/analytics/views.py:5-19 | 500 exactly when the series fails; otherwise the summary and, for the same days, the consecutive dates ending today with the values `10 + i` |

## Left out

- `get_realtime_active` (apps/pages/ga.py:129-141) is not modelled. It is a single oracle call mapped through `_to_int` and adds nothing beyond `FetchRows`.
- `get_staff_by_id`, `projects_view`, and the HTML rendering of `tasks_view` and `analytics_page` are not modelled. The embedded page, its escaping and its JavaScript are left out; only the status or page kind is kept.
- `ProfileAdmin` and the admin's `list_display`, filters, search fields and inline are not modelled. They are display configuration.
- Floating-point values are not modelled. GA metric values are integers here, `_to_int` and `_to_float` are identities, and a rate is multiplied by 100 exactly.
- The `pretty` strings of overview cards are not modelled, except the duration text, which `FmtSecsToHms` covers.
- PagesGa.FmtSecsToHms: takes whole seconds, so the rounding of a fractional value (`round`) is not modelled.
- PagesGa.SortDesc: proves a descending permutation but does not pin down the relative order of equal values that Python's stable sort keeps.
- Text.ParseInt: accepts an optional sign and ASCII decimal digits only. Python's `int()` also accepts surrounding whitespace, digit-group underscores and any Unicode decimal digit (category Nd, such as `٧`). For those inputs the `days` parameter of the traffic endpoint and of the one-page view falls back to 7 in the model, and the one-page view answers a bad request, where the source reads the number.
- BoardViewSet.Board.Move: a text `order` is read by `Text.ParseInt`, so `" 5"` or `"1_0"` is a 500 in the model where the source places the card at 5 or 10. A JSON float or boolean `order` is taken as the integer `int()` makes of it (2.5 as 2, true as 1) before the model sees it.
- ProjectViews.CreateTask: a JSON null for `time_taken`, `cost` or `completed` is read as a missing key. The model stores the default and answers 200 where the source's NOT NULL column makes the insert fail with 400. A null `description` is stored as an empty text, not as null. A null `assigned_to` is modelled exactly: the task is unassigned.
- ProjectViews.UpdateTask: a JSON null for `title`, `time_taken`, `cost` or `completed` is read as a missing key. The model keeps the old value and answers 200 where the source writes null and its save fails with 400. A null `description` keeps the old text where the source stores null.
- ProjectViews.CreateProject: a null `description` is stored as an empty text, not as null. A null `name` or `created` is a 400 with nothing written, as is a missing one.
- ProjectViews.UpdateProject: a null `description` is stored as an empty text, not as null.
- The column `max_length` limits are not enforced in the project views. A longer value would be refused by the database on some back ends, not by the view.
- Transactions and concurrency are not modelled. The shift and the save in `move` are not atomic in the source either; the model keeps the shift when the save fails.
- BoardViewSet.Board.Move: takes a status already decoded. A `status` string outside the four choices, which the source would store unchecked, is not represented.
- BoardViewSet.Board.Move: does not re-check the 120-character title limit, which `move` never touches.
- The board's `created_by` SET_NULL on user deletion, and the `IsAuthenticated` permission, are not modelled. Every modelled request is an authenticated one.
- The environment, the clock and the network become parameters:
  - `PROPERTY_ID` is a string;
  - credentials are an optional value;
  - today is a day number;
  - the report call is the `Runner` oracle, where `None` stands for any exception.
- The one-page view's client, built with default credentials, is folded into the oracle.
- Reporting.WellShaped: the oracle is assumed to answer with rows holding exactly one value per requested dimension and metric. A shorter row would raise IndexError in the source: the overview's row handling outside `_safe_run` would fail the page, and the one-page view would show its error card. Such rows are not represented.
- Series labels are day numbers, not ISO text.
- Error message texts are not modelled beyond the error cases themselves.

## Findings

| source | as written | input that shows it | evidently intended | confidence | as-written member | corrected member |
|---|---|---|---|---|---|---|
| apps/pages/viewsets.py:31 | `models.F("order")` names a module that is never imported. Every `move` of an existing card raises NameError, which becomes a 500 with nothing written | any POST to `move` for an existing card | shift the column down by one from the target position, then place the card there | high, not executed | BoardViewSet.Board.MoveAsWritten | BoardViewSet.Board.Move |
| projects/views.py:204 | `tasks_view` checks only the profile role. A superuser whose profile keeps the default STAFF role is refused the task page of a project that is not theirs | superuser with a STAFF profile, project without them as member | superusers pass, as in every other view | medium, not executed | ProjectViews.SuperuserRefusedTaskPage | ProjectViews.ListedProjectsOpenCorrected |
