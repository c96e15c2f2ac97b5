/**
 * The skill bars of components/sections/SkillsSection.tsx: a fixed table of
 * ratings, each drawn as `level` full blocks followed by `max - level` light blocks.
 */
module Skills {
  import opened Wrappers
  import JsString

  datatype Skill = Skill(name: string, level: int, max: int)

  datatype Category = Category(name: string, colorClass: string, skills: seq<Skill>)

  /** `skillCategories`. */
  const Categories: seq<Category> := [
    Category("OFFENSIVE SECURITY", "text-terminal-red", [
      Skill("Network Penetration", 7, 10),
      Skill("Web App Security", 6, 10),
      Skill("Active Directory", 7, 10),
      Skill("OSINT / Recon", 7, 10),
      Skill("Privilege Escalation", 6, 10)]),
    Category("INFRASTRUCTURE", "text-terminal-blue", [
      Skill("Linux/Unix", 7, 10),
      Skill("Windows", 6, 10),
      Skill("Networking", 7, 10),
      Skill("Cloud (Azure)", 5, 10)]),
    Category("DEVELOPMENT", "text-terminal-green", [
      Skill("Python", 6, 10),
      Skill("JavaScript/TypeScript", 6, 10),
      Skill("Bash/Scripting", 7, 10),
      Skill("SQL", 5, 10)])
  ]

  const Full: char := '\U{2588}'
  const Light: char := '\U{2591}'

  /** `repeat` throws a RangeError for a negative count. */
  datatype RangeError = RangeError

  /** `c.repeat(count)`. */
  function Repeat(c: char, count: int): (r: Result<string, RangeError>)
    ensures r.Err? <==> count < 0
    ensures r.Ok? ==> r.value == JsString.Repeat(c, count)
  {
    if count < 0 then Err(RangeError) else Ok(JsString.Repeat(c, count))
  }

  /** The two halves of a bar. */
  datatype Bar = Bar(filled: string, empty: string)

  /**
   * `renderProgressBar`: `level` full blocks, then `max - level` light blocks, so the
   * bar is `max` wide; a negative level or a level above `max` makes `repeat` throw.
   */
  function ProgressBar(level: int, max: int): (r: Result<Bar, RangeError>)
    ensures r.Ok? <==> 0 <= level <= max
    ensures r.Ok? ==> |r.value.filled| == level && |r.value.empty| == max - level
    ensures r.Ok? ==> |r.value.filled + r.value.empty| == max
    ensures r.Ok? ==> forall i :: 0 <= i < |r.value.filled| ==> r.value.filled[i] == Full
    ensures r.Ok? ==> forall i :: 0 <= i < |r.value.empty| ==> r.value.empty[i] == Light
  {
    match Repeat(Full, level)
    case Err(e) => Err(e)
    case Ok(filled) =>
      match Repeat(Light, max - level)
      case Err(e) => Err(e)
      case Ok(empty) => Ok(Bar(filled, empty))
  }

  /** Every rating in the table lies between 0 and its maximum of 10. */
  predicate WellFormed(s: Skill) {
    s.max == 10 && 0 <= s.level <= s.max
  }

  lemma TableWellFormed()
    ensures forall c, s :: c in Categories && s in c.skills ==> WellFormed(s)
  {
  }

  /** So every bar of the section renders, ten blocks wide. */
  lemma {:induction false} TableBarsRender(c: Category, s: Skill)
    requires c in Categories && s in c.skills
    ensures ProgressBar(s.level, s.max).Ok?
    ensures |ProgressBar(s.level, s.max).value.filled + ProgressBar(s.level, s.max).value.empty| == 10
  {
    TableWellFormed();
  }
}
