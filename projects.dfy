/**
 * The project tree of components/sections/ProjectsSection.tsx: a fixed table of
 * projects, at most one of which is expanded, toggled by clicking its row.
 */
module Projects {
  import opened Wrappers

  datatype Status = Stable | Alpha | Development

  datatype Project = Project(name: string, tech: seq<string>, status: Status)

  /** `projects` (descriptions are display text and left out). */
  const Table: seq<Project> := [
    Project("hog", ["TypeScript", "Node.js", "React", "PostgreSQL"], Development),
    Project("sec-automation", ["Python", "Bash", "API Integration"], Stable),
    Project("lab-infra", ["Virtualization", "Active Directory", "Networking"], Stable)
  ]

  /** The badge text of `statusConfig`. */
  function StatusLabel(s: Status): string {
    match s
    case Stable => "STABLE"
    case Alpha => "ALPHA"
    case Development => "DEV"
  }

  /** Different statuses have different badges. */
  lemma StatusLabelInjective(a: Status, b: Status)
    requires StatusLabel(a) == StatusLabel(b)
    ensures a == b
  {
    assert StatusLabel(a)[0] == StatusLabel(b)[0];
  }

  /** No two projects in the table share a name. */
  lemma NamesDistinct()
    ensures forall i, j :: 0 <= i < j < |Table| ==> Table[i].name != Table[j].name
  {
  }

  /** `expandedProject === project.name`. */
  predicate IsExpanded(expanded: Option<string>, p: Project) {
    expanded == Some(p.name)
  }

  /** A row's `onClick`: close the expanded project, or expand this one instead. */
  function Toggle(expanded: Option<string>, p: Project): (r: Option<string>)
    ensures IsExpanded(expanded, p) ==> r == None
    ensures !IsExpanded(expanded, p) ==> r == Some(p.name) && IsExpanded(r, p)
  {
    if expanded == Some(p.name) then None else Some(p.name)
  }

  /** Clicking a collapsed row twice leaves no row expanded. */
  lemma ToggleTwice(expanded: Option<string>, p: Project)
    requires !IsExpanded(expanded, p)
    ensures Toggle(Toggle(expanded, p), p) == None
  {
  }

  /** Whatever the state, at most one row of the table is shown expanded. */
  lemma {:induction false} AtMostOneExpanded(expanded: Option<string>, i: nat, j: nat)
    requires i < |Table| && j < |Table|
    requires IsExpanded(expanded, Table[i]) && IsExpanded(expanded, Table[j])
    ensures i == j
  {
    NamesDistinct();
  }

  /** The tree glyph of row `index`: the corner for the last row, a tee for the others. */
  function Branch(index: nat, count: nat): (glyph: string)
    ensures glyph == "\U{2514}\U{2500}\U{2500}" <==> index == count - 1
    ensures glyph == "\U{251C}\U{2500}\U{2500}" <==> index != count - 1
  {
    if index == count - 1 then "\U{2514}\U{2500}\U{2500}" else "\U{251C}\U{2500}\U{2500}"
  }

  /** The expand marker: `[-]` on the expanded row, `[+]` elsewhere. */
  function Marker(expanded: Option<string>, p: Project): (m: string)
    ensures m == "[-]" <==> IsExpanded(expanded, p)
    ensures m == "[+]" <==> !IsExpanded(expanded, p)
  {
    if expanded == Some(p.name) then "[-]" else "[+]"
  }

  /**
   * One rendered row of the tree: its branch glyph, the `name/` folder label, the
   * status badge, the expand marker, and the technology tags of the details
   * panel, which is rendered only when the row is expanded.
   */
  datatype Row = Row(branch: string, folder: string, badge: string, marker: string, details: Option<seq<string>>)

  /**
   * `projects.map(...)`: one row per project, in table order. The footer prints
   * `projects.length`, which is therefore the number of rows shown.
   */
  function Rows(expanded: Option<string>): (rows: seq<Row>)
    ensures |rows| == |Table|
    ensures forall i :: 0 <= i < |rows| ==>
      rows[i].folder == Table[i].name + "/" && rows[i].badge == StatusLabel(Table[i].status)
    ensures forall i :: 0 <= i < |rows| ==>
      (rows[i].branch == "\U{2514}\U{2500}\U{2500}" <==> i == |rows| - 1)
    ensures forall i :: 0 <= i < |rows| ==>
      (rows[i].details.Some? <==> IsExpanded(expanded, Table[i])) &&
      (rows[i].marker == "[-]" <==> rows[i].details.Some?)
    ensures forall i :: 0 <= i < |rows| && rows[i].details.Some? ==> rows[i].details.value == Table[i].tech
  {
    seq(|Table|, i requires 0 <= i < |Table| =>
      var p := Table[i];
      Row(Branch(i, |Table|), p.name + "/", StatusLabel(p.status), Marker(expanded, p),
          if IsExpanded(expanded, p) then Some(p.tech) else None))
  }

  /** Whatever the state, the details panel is open on at most one row. */
  lemma {:induction false} OneDetailsPanel(expanded: Option<string>, i: nat, j: nat)
    requires i < |Rows(expanded)| && j < |Rows(expanded)|
    requires Rows(expanded)[i].details.Some? && Rows(expanded)[j].details.Some?
    ensures i == j
  {
    AtMostOneExpanded(expanded, i, j);
  }

  /** The section's state. */
  class ProjectTree {
    var expanded: Option<string>

    /** Nothing or one of the table's projects is expanded. */
    predicate Valid()
      reads this
    {
      expanded.Some? ==> exists i :: 0 <= i < |Table| && Table[i].name == expanded.value
    }

    constructor ()
      ensures Valid() && expanded == None
    {
      expanded := None;
    }

    /** Clicking row `index`. */
    method Click(index: nat)
      requires Valid() && index < |Table|
      modifies this
      ensures Valid()
      ensures expanded == Toggle(old(expanded), Table[index])
    {
      var p := Table[index];
      expanded := if expanded == Some(p.name) then None else Some(p.name);
    }
  }
}
