/**
 * The sidebar menu: eight view sections for every role, followed by the seven
 * data-entry sections when the role's permissions contain `add`.
 */
module Navigation {

  import opened Credentials

  /** The view sections, in menu order. */
  const BaseSections: seq<string> := [
    "Employee Overview", "Education Records", "Family Details",
    "Task Management", "Attendance", "Recognition", "Training",
    "Real-Time Analytics"
  ]

  /** The data-entry sections, in menu order. */
  const AddSections: seq<string> := [
    "Add Employee", "Add Education", "Add Family Details",
    "Add Task", "Add Attendance", "Add Recognition", "Add Training"
  ]

  /** The one section whose code is part of this model. */
  const AnalyticsSection := "Real-Time Analytics"

  /** No data-entry section is also a view section. */
  lemma SectionListsDisjoint()
    ensures forall i, j :: 0 <= i < |BaseSections| && 0 <= j < |AddSections| ==> BaseSections[i] != AddSections[j]
  {
  }

  /**
   * The menu offered to a logged-in role: the view sections in order, then the
   * data-entry sections in order exactly when the role may add.
   */
  function Sections(role: string): (r: seq<string>)
    requires role in UserRoles
    ensures |r| == |BaseSections| + (if AddPermission in UserRoles[role] then |AddSections| else 0)
    ensures r[..|BaseSections|] == BaseSections
    ensures forall i :: |BaseSections| <= i < |r| ==> r[i] == AddSections[i - |BaseSections|]
  {
    var sections := BaseSections;
    if AddPermission in UserRoles[role] then sections + AddSections else sections
  }

  /** A data-entry section is on a role's menu exactly when the role has the `add` permission. */
  lemma AddSectionsIffPermission(role: string, section: string)
    requires role in UserRoles
    requires section in AddSections
    ensures section in Sections(role) <==> AddPermission in UserRoles[role]
  {
  }

  /** Every logged-in role sees the view sections first, in order (and `user` sees nothing else). */
  lemma MenuPrefix(role: string)
    requires role in UserRoles
    ensures BaseSections <= Sections(role)
    ensures Sections("user") == BaseSections
  {
  }

  /** The admin menu has all fifteen sections, the user menu eight, and the latter is a prefix of the former. */
  lemma AdminAndUserMenus()
    ensures |Sections("admin")| == 15 && |Sections("user")| == 8
    ensures Sections("admin") == BaseSections + AddSections
    ensures Sections("user") <= Sections("admin")
    ensures forall s :: s in AddSections ==> s in Sections("admin") && s !in Sections("user")
  {
  }

  /**
   * The radio widget returns one of its options: the one picked, or the first
   * option when the pick is not among them (its default index is 0).
   */
  function RadioChoice(options: seq<string>, picked: string): (r: string)
    requires |options| > 0
    ensures r in options
    ensures picked in options ==> r == picked
    ensures picked !in options ==> r == options[0]
  {
    if picked in options then picked else options[0]
  }
}
