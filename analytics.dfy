/**
 * The Real-Time Analytics section: three panels, each drawn from a query
 * result that may be missing, followed by one audit action.
 */
module Analytics {

  import opened Wrappers

  /** A query result as a data frame: column names and rows of cells. */
  datatype Table = Table(columns: seq<string>, rows: seq<seq<string>>)

  /** A data frame is empty when either of its axes has length zero. */
  predicate IsEmpty(t: Table)
  {
    |t.columns| == 0 || |t.rows| == 0
  }

  /** The three panels of the dashboard, in display order. */
  datatype Panel = AttendanceTrend | TaskCompletion | DepartmentDistribution

  /** The text a panel shows when it has nothing to chart. */
  function Placeholder(p: Panel): string
  {
    match p
    case AttendanceTrend => "No attendance data available."
    case TaskCompletion => "No task data available."
    case DepartmentDistribution => "No department data available."
  }

  /** What a panel shows: a chart of the query result, or its placeholder text. */
  datatype View = Chart(data: Table) | Text(message: string)

  /** The panel decision: a chart only for a result that is present and not empty. */
  function ShowPanel(p: Panel, result: Option<Table>): (v: View)
    ensures v.Chart? <==> result.Some? && !IsEmpty(result.value)
    ensures v.Chart? ==> v.data == result.value
    ensures v.Text? ==> v.message == Placeholder(p)
  {
    if result.Some? && !IsEmpty(result.value) then Chart(result.value) else Text(Placeholder(p))
  }

  /** One row of the audit log, as the audit insert would write it. */
  datatype AuditEntry = AuditEntry(username: string, role: string, actionType: string,
                                   description: string, details: string)

  /** The audit action of viewing the dashboard. */
  function ViewAnalyticsEntry(username: string, role: string): (e: AuditEntry)
    ensures e.actionType == "View Analytics" && e.username == username && e.role == role
  {
    AuditEntry(username, role, "View Analytics", "Viewed Real-Time Analytics Dashboard", "N/A")
  }

  /** The rendered dashboard and the audit actions it issued. */
  datatype Dashboard = Dashboard(attendance: View, tasks: View, departments: View, audit: seq<AuditEntry>)

  /** The whole section: each panel decided from its own result, then exactly one audit action. */
  function ShowDashboard(username: string, role: string, attendance: Option<Table>,
                         tasks: Option<Table>, departments: Option<Table>): (d: Dashboard)
    ensures d.attendance.Chart? <==> attendance.Some? && !IsEmpty(attendance.value)
    ensures d.tasks.Chart? <==> tasks.Some? && !IsEmpty(tasks.value)
    ensures d.departments.Chart? <==> departments.Some? && !IsEmpty(departments.value)
    ensures d.attendance.Chart? ==> d.attendance.data == attendance.value
    ensures d.tasks.Chart? ==> d.tasks.data == tasks.value
    ensures d.departments.Chart? ==> d.departments.data == departments.value
    ensures d.attendance.Text? ==> d.attendance.message == "No attendance data available."
    ensures d.tasks.Text? ==> d.tasks.message == "No task data available."
    ensures d.departments.Text? ==> d.departments.message == "No department data available."
    ensures |d.audit| == 1 && d.audit[0].actionType == "View Analytics"
    ensures d.audit[0] == ViewAnalyticsEntry(username, role)
  {
    var a := ShowPanel(AttendanceTrend, attendance);
    var t := ShowPanel(TaskCompletion, tasks);
    var dept := ShowPanel(DepartmentDistribution, departments);
    Dashboard(a, t, dept, [ViewAnalyticsEntry(username, role)])
  }

  /** Each panel has its own placeholder text. */
  lemma PlaceholdersDistinct(p: Panel, q: Panel)
    requires p != q
    ensures Placeholder(p) != Placeholder(q)
  {
  }

  /** The audit action does not depend on what the panels showed. */
  lemma AuditIndependentOfPanels(username: string, role: string,
                                 a1: Option<Table>, t1: Option<Table>, d1: Option<Table>,
                                 a2: Option<Table>, t2: Option<Table>, d2: Option<Table>)
    ensures ShowDashboard(username, role, a1, t1, d1).audit == ShowDashboard(username, role, a2, t2, d2).audit
  {
  }
}
