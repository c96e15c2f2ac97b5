/**
 * The terminal session of pages/Index.tsx: an append-only scrollback of entries,
 * the command dispatcher over a fixed alias table, section navigation, clearing,
 * the keyboard-shortcut wiring and the one-shot auto-demo.
 *
 * Rendered React content is abstracted to a tagged `Content` value; the entry
 * ids built from `Date.now()` and `Math.random()` are replaced by a counter.
 */
module Terminal {
  import JsString
  import Shortcuts

  /** The page's `Section`: the boot view plus the five content sections. */
  datatype Section = Init | About | Services | Projects | Skills | Contact

  function SectionName(s: Section): string {
    match s
    case Init => "init"
    case About => "about"
    case Services => "services"
    case Projects => "projects"
    case Skills => "skills"
    case Contact => "contact"
  }

  /** `OutputItem['type']`. */
  datatype Kind = CommandItem | OutputItem | SectionItem

  /** The components an entry can render; their markup is not modelled. */
  datatype Component =
    | HelpTable
    | WhoamiCard
    | NeofetchCard
    | DateLine      // `new Date().toString()`
    | UptimeLine    // the local time followed by a fixed uptime text
    | Panel(section: Section)

  /** `OutputItem['content']`: plain text or a component. */
  datatype Content = Text(text: string) | View(component: Component)

  /** An entry without its id. */
  datatype Line = Line(kind: Kind, content: Content)

  /** `OutputItem`. */
  datatype Entry = Entry(id: nat, kind: Kind, content: Content)

  /** Entries for `lines`, numbered from `from` on. */
  function Stamp(lines: seq<Line>, from: nat): (es: seq<Entry>)
    ensures |es| == |lines|
  {
    if lines == [] then []
    else [Entry(from, lines[0].kind, lines[0].content)] + Stamp(lines[1..], from + 1)
  }

  /** What a normalised command does. */
  datatype Action =
    | ShowHelp
    | Navigate(to: Section)
    | ClearScreen
    | Whoami
    | Neofetch
    | ListFiles
    | PrintDir
    | ShowDate
    | ShowUptime
    | Logout
    | Unknown

  /** The `switch` of `handleCommand`: every alias and the action it selects. */
  function Lookup(cmd: string): (a: Action)
    ensures a.Navigate? ==> a.to != Init
  {
    match cmd
    case "help" | "h" | "?" => ShowHelp
    case "about" | "cat about" | "cat about.txt" => Navigate(About)
    case "services" | "ls services" => Navigate(Services)
    case "projects" | "ls projects" | "tree projects" => Navigate(Projects)
    case "contact" | "cat contact" | "cat contact.txt" => Navigate(Contact)
    case "clear" | "cls" => ClearScreen
    case "whoami" => Whoami
    case "neofetch" => Neofetch
    case "ls" => ListFiles
    case "pwd" => PrintDir
    case "date" => ShowDate
    case "uptime" => ShowUptime
    case "skills" | "ls skills" => Navigate(Skills)
    case "exit" | "logout" => Logout
    case _ => Unknown
  }

  /** `command.toLowerCase().trim()`. */
  function Normalize(command: string): (cmd: string)
    ensures JsString.Trimmed(cmd)
    ensures |cmd| <= |command|
  {
    JsString.Trim(JsString.Lower(command))
  }

  /** The echo `handleCommand` appends first: `$ ` and the command as passed. */
  function Echo(command: string): (e: Line)
    ensures e.kind == CommandItem && e.content.Text?
    ensures JsString.StartsWith(e.content.text, "$ ") && e.content.text[2..] == command
  {
    Line(CommandItem, Text("$ " + command))
  }

  /** The fallback message: the command quoted between `bash: ` and the not-found notice. */
  function NotFoundText(command: string): (t: string)
    ensures JsString.StartsWith(t, "bash: ") && 26 + |command| <= |t|
    ensures t[6 + |command|..6 + |command| + 20] == ": command not found."
    ensures t[6..6 + |command|] == command
  {
    var notice := ": command not found.";
    var hint := " Type 'help' for available commands.";
    var t := "bash: " + command + notice + hint;
    assert t[6 + |command|..6 + |command| + 20] == notice;
    t
  }

  /** The pair `navigateToSection` appends; nothing for `init`, which has no component. */
  function NavLines(s: Section): (lines: seq<Line>)
    ensures s == Init <==> lines == []
    ensures s != Init ==> |lines| == 2
  {
    if s == Init then []
    else [Line(CommandItem, Text("cd ~/" + SectionName(s))), Line(SectionItem, View(Panel(s)))]
  }

  /** What an action other than clearing appends after the echo. */
  function Respond(a: Action, command: string): (lines: seq<Line>)
    requires a != ClearScreen
    ensures a.Navigate? ==> lines == NavLines(a.to)
    ensures !a.Navigate? ==> |lines| == 1 && lines[0].kind == OutputItem
    ensures a == Unknown ==> lines == [Line(OutputItem, Text(NotFoundText(command)))]
  {
    match a
    case ShowHelp => [Line(OutputItem, View(HelpTable))]
    case Navigate(s) => NavLines(s)
    case Whoami => [Line(OutputItem, View(WhoamiCard))]
    case Neofetch => [Line(OutputItem, View(NeofetchCard))]
    case ListFiles => [Line(OutputItem, Text("about.txt  contact.txt  projects/  services/  .config/  .ssh/"))]
    case PrintDir => [Line(OutputItem, Text("/home/loud"))]
    case ShowDate => [Line(OutputItem, View(DateLine))]
    case ShowUptime => [Line(OutputItem, View(UptimeLine))]
    case Logout => [Line(OutputItem, Text("Connection terminated. Refresh to reconnect."))]
    case Unknown => [Line(OutputItem, Text(NotFoundText(command)))]
  }

  /** The lines a command other than clear appends to the scrollback, echo included. */
  function Reply(command: string): (r: seq<Line>)
    requires Lookup(Normalize(command)) != ClearScreen
    ensures |r| >= 2 && r[0] == Echo(command)
    ensures Lookup(Normalize(command)).Navigate? <==> |r| == 3
    ensures Lookup(Normalize(command)) == Unknown ==> r[1] == Line(OutputItem, Text(NotFoundText(command)))
  {
    var a := Lookup(Normalize(command));
    [Echo(command)] + Respond(a, command)
  }

  /**
   * Each navigation alias appends, after the echo, `cd ~/<section>` and then the
   * section itself, and no alias leads to the boot view.
   */
  lemma {:induction false} NavigationReply(command: string)
    requires Lookup(Normalize(command)).Navigate?
    ensures var s := Lookup(Normalize(command)).to;
      s != Init &&
      Reply(command) == [Echo(command), Line(CommandItem, Text("cd ~/" + SectionName(s))), Line(SectionItem, View(Panel(s)))]
  {
  }

  /** The printing commands append exactly one `output` entry after the echo. */
  lemma {:induction false} PrintReply(command: string)
    requires Lookup(Normalize(command)) !in {ClearScreen, Unknown} && !Lookup(Normalize(command)).Navigate?
    ensures |Reply(command)| == 2 && Reply(command)[1].kind == OutputItem
  {
    assert Reply(command) == [Echo(command)] + Respond(Lookup(Normalize(command)), command);
  }

  /** The aliases of each section, as the dispatcher's table lists them. */
  function Aliases(s: Section): set<string> {
    match s
    case Init => {}
    case About => {"about", "cat about", "cat about.txt"}
    case Services => {"services", "ls services"}
    case Projects => {"projects", "ls projects", "tree projects"}
    case Skills => {"skills", "ls skills"}
    case Contact => {"contact", "cat contact", "cat contact.txt"}
  }

  /** A normalised command navigates to `s` exactly when it is one of the aliases of `s`. */
  lemma {:induction false} NavigationAliases(cmd: string, s: Section)
    ensures Lookup(cmd) == Navigate(s) <==> cmd in Aliases(s)
  {
  }

  /** The aliases of clearing. */
  const ClearAliases: set<string> := {"clear", "cls"}

  /** The aliases of each action that prints one line, as the dispatcher's table lists them. */
  function PrintAliases(a: Action): set<string> {
    match a
    case ShowHelp => {"help", "h", "?"}
    case Whoami => {"whoami"}
    case Neofetch => {"neofetch"}
    case ListFiles => {"ls"}
    case PrintDir => {"pwd"}
    case ShowDate => {"date"}
    case ShowUptime => {"uptime"}
    case Logout => {"exit", "logout"}
    case _ => {}
  }

  /** Every command the dispatcher's table names. */
  const KnownCommands: set<string> :=
    Aliases(About) + Aliases(Services) + Aliases(Projects) + Aliases(Skills) + Aliases(Contact)
    + ClearAliases
    + PrintAliases(ShowHelp) + PrintAliases(Whoami) + PrintAliases(Neofetch) + PrintAliases(ListFiles)
    + PrintAliases(PrintDir) + PrintAliases(ShowDate) + PrintAliases(ShowUptime) + PrintAliases(Logout)

  /** A normalised command clears exactly when it is `clear` or `cls`. */
  lemma {:induction false} ClearAliasesExact(cmd: string)
    ensures Lookup(cmd) == ClearScreen <==> cmd in ClearAliases
  {
  }

  /** A normalised command selects a printing action exactly when it is one of that action's aliases. */
  lemma {:induction false} PrintAliasesExact(cmd: string, a: Action)
    requires !a.Navigate? && a !in {ClearScreen, Unknown}
    ensures Lookup(cmd) == a <==> cmd in PrintAliases(a)
  {
  }

  /** Every normalised command outside the table, and only those, falls through to "not found". */
  lemma {:induction false} UnknownExact(cmd: string)
    ensures Lookup(cmd) == Unknown <==> cmd !in KnownCommands
  {
    NavigationAliases(cmd, About);
    NavigationAliases(cmd, Services);
    NavigationAliases(cmd, Projects);
    NavigationAliases(cmd, Skills);
    NavigationAliases(cmd, Contact);
    NavigationAliases(cmd, Init);
    ClearAliasesExact(cmd);
    PrintAliasesExact(cmd, ShowHelp);
    PrintAliasesExact(cmd, Whoami);
    PrintAliasesExact(cmd, Neofetch);
    PrintAliasesExact(cmd, ListFiles);
    PrintAliasesExact(cmd, PrintDir);
    PrintAliasesExact(cmd, ShowDate);
    PrintAliasesExact(cmd, ShowUptime);
    PrintAliasesExact(cmd, Logout);
  }

  /** `w` occurs in `t` starting at index `k`. */
  predicate OccursAt(t: string, w: string, k: int) {
    0 <= k <= |t| - |w| && t[k..k + |w|] == w
  }

  /** The "command not found" message quotes the command text as it was passed. */
  lemma {:induction false} NotFoundQuotesCommand(command: string)
    ensures exists k :: OccursAt(NotFoundText(command), command, k)
  {
    var t := NotFoundText(command);
    assert t[6..6 + |command|] == command;
    assert OccursAt(t, command, 6);
  }

  /** The command names the help table lists (components/terminal/HelpOutput.tsx). */
  const HelpNames: seq<string> :=
    ["help", "about", "services", "skills", "projects", "blog", "contact",
     "enterprise", "github", "clear", "whoami", "neofetch"]

  /**
   * Of the commands the help table lists, `blog`, `enterprise` and `github` are not
   * dispatched, and the F5 key it gives for `blog` is not bound.
   */
  lemma {:induction false} HelpListsUnknownCommands(name: string)
    requires name in HelpNames
    ensures Lookup(name) == Unknown <==> name in {"blog", "enterprise", "github"}
    ensures Shortcuts.SectionKey("F5").None?
  {
  }

  /**
   * Input submitted by the command line, `raw.trim().toLowerCase()`, is already in
   * normal form, so the dispatcher looks it up exactly as submitted.
   */
  lemma {:induction false} SubmittedIsNormal(raw: string)
    ensures Normalize(JsString.Lower(JsString.Trim(raw))) == JsString.Lower(JsString.Trim(raw))
  {
    JsString.NormalizeSubmitted(raw);
  }

  /** A section reached by a function key: never the boot view, never skills. */
  function ShortcutSection(t: Shortcuts.Target): (s: Section)
    ensures s !in {Init, Skills}
    ensures SectionName(s) in Aliases(s)
  {
    match t
    case About => About
    case Services => Services
    case Projects => Projects
    case Contact => Contact
  }

  /** `about` is typed in normal form. */
  lemma AboutIsNormal()
    ensures Normalize("about") == "about"
  {
    var w := "about";
    assert JsString.Trimmed(w);
    JsString.LowerFixed(w);
  }

  /** `about` is an alias of the about section. */
  lemma AboutNavigates()
    ensures Lookup("about") == Navigate(About)
  {
  }

  /** `about` as typed: the echo, `cd ~/about`, then the about section. */
  lemma ScenarioAbout(typed: string)
    requires typed == "about"
    ensures Normalize(typed) == typed && Lookup(typed) == Navigate(About)
    ensures Reply(typed) ==
      [Echo(typed), Line(CommandItem, Text("cd ~/about")), Line(SectionItem, View(Panel(About)))]
  {
    AboutIsNormal();
    AboutNavigates();
    NavigationReply(typed);
    AboutPath();
  }

  lemma AboutPath()
    ensures "cd ~/" + SectionName(About) == "cd ~/about"
  {
  }

  /** `xyz123` is typed in normal form. */
  lemma UnknownWordIsNormal()
    ensures Normalize("xyz123") == "xyz123"
  {
    var w := "xyz123";
    assert JsString.Trimmed(w);
    JsString.LowerFixed(w);
  }

  /** `xyz123` is not in the table. */
  lemma UnknownWordFallsThrough()
    ensures Lookup("xyz123") == Unknown
  {
  }

  /** An unknown command as typed: the echo, then the not-found message quoting it. */
  lemma ScenarioUnknown(typed: string)
    requires typed == "xyz123"
    ensures Normalize(typed) == typed && Lookup(typed) == Unknown
    ensures Reply(typed) == [Echo(typed), Line(OutputItem, Text(NotFoundText(typed)))]
  {
    UnknownWordIsNormal();
    UnknownWordFallsThrough();
    UnknownReply(typed);
  }

  /** A command that is not in the table gets the echo and the not-found message, nothing else. */
  lemma UnknownReply(command: string)
    requires Lookup(Normalize(command)) == Unknown
    ensures Reply(command) == [Echo(command), Line(OutputItem, Text(NotFoundText(command)))]
  {
  }


  /** `cat` on its own is not an alias: only `cat about`, `cat contact` and their `.txt` forms are. */
  lemma CatFallsThrough()
    ensures Lookup("cat") == Unknown
    ensures Lookup("cat about") == Navigate(About) && Lookup("cat contact.txt") == Navigate(Contact)
  {
  }

  /** The sections the auto-demo opens, in order. */
  const DemoSections: seq<Section> := [About, Services, Projects]

  /** The lines the first `n` steps of the auto-demo append. */
  function DemoLines(n: nat): seq<Line>
    requires n <= |DemoSections|
  {
    if n == 0 then [] else DemoLines(n - 1) + NavLines(DemoSections[n - 1])
  }

  /** A completed auto-demo appends `cd ~/about`, about, `cd ~/services`, services, `cd ~/projects`, projects. */
  lemma {:induction false} DemoTranscript()
    ensures DemoLines(3) == [
      Line(CommandItem, Text("cd ~/about")), Line(SectionItem, View(Panel(About))),
      Line(CommandItem, Text("cd ~/services")), Line(SectionItem, View(Panel(Services))),
      Line(CommandItem, Text("cd ~/projects")), Line(SectionItem, View(Panel(Projects)))]
  {
    assert DemoLines(1) == NavLines(About);
    assert DemoLines(2) == NavLines(About) + NavLines(Services);
    assert "cd ~/" + SectionName(About) == "cd ~/about";
    assert "cd ~/" + SectionName(Services) == "cd ~/services";
    assert "cd ~/" + SectionName(Projects) == "cd ~/projects";
  }

  /** The state of the `Index` page. */
  class Session {
    var outputs: seq<Entry>
    var activeSection: Section
    var showInit: bool
    var autoDisplayDone: bool
    /** Next entry id; stands for the ids built from the clock and a random number. */
    var nextId: nat

    constructor ()
      ensures outputs == [] && activeSection == Init && showInit && !autoDisplayDone && nextId == 0
    {
      outputs := [];
      activeSection := Init;
      showInit := true;
      autoDisplayDone := false;
      nextId := 0;
    }

    /** `addOutput`: appends one entry at the end; every earlier entry stays as it was. */
    method AddOutput(kind: Kind, content: Content)
      modifies this`outputs, this`nextId
      ensures outputs == old(outputs) + [Entry(old(nextId), kind, content)]
      ensures nextId == old(nextId) + 1
    {
      outputs := outputs + [Entry(nextId, kind, content)];
      nextId := nextId + 1;
    }

    /** `clearOutputs`: empties the scrollback and hides the boot view. */
    method ClearOutputs()
      modifies this`outputs, this`showInit
      ensures outputs == [] && !showInit
    {
      outputs := [];
      showInit := false;
    }

    /** `navigateToSection`. */
    method NavigateToSection(s: Section)
      modifies this`outputs, this`nextId, this`activeSection, this`showInit
      ensures activeSection == s && !showInit
      ensures outputs == old(outputs) + Stamp(NavLines(s), old(nextId))
      ensures nextId == old(nextId) + |NavLines(s)|
    {
      activeSection := s;
      showInit := false;
      if s != Init {
        AddOutput(CommandItem, Text("cd ~/" + SectionName(s)));
        AddOutput(SectionItem, View(Panel(s)));
      }
    }

    /**
     * `handleCommand`: echo the command, then act on its normal form. Clearing also
     * removes the echo just appended; every other command only appends.
     */
    method HandleCommand(command: string)
      modifies this`outputs, this`nextId, this`activeSection, this`showInit
      ensures Lookup(Normalize(command)) == ClearScreen ==>
        outputs == [] && !showInit && activeSection == old(activeSection)
      ensures Lookup(Normalize(command)) != ClearScreen ==>
        && outputs == old(outputs) + [Entry(old(nextId), CommandItem, Text("$ " + command))]
                      + Stamp(Respond(Lookup(Normalize(command)), command), old(nextId) + 1)
        && nextId == old(nextId) + 1 + |Respond(Lookup(Normalize(command)), command)|
      ensures Lookup(Normalize(command)).Navigate? ==>
        activeSection == Lookup(Normalize(command)).to && !showInit
      ensures !Lookup(Normalize(command)).Navigate? && Lookup(Normalize(command)) != ClearScreen ==>
        activeSection == old(activeSection) && showInit == old(showInit)
    {
      var a := Lookup(Normalize(command));
      AddOutput(CommandItem, Text("$ " + command));
      Perform(a, command);
    }

    /** The `switch` of `handleCommand`, after the echo: what each action does. */
    method Perform(a: Action, command: string)
      modifies this`outputs, this`nextId, this`activeSection, this`showInit
      ensures a == ClearScreen ==>
        outputs == [] && !showInit && activeSection == old(activeSection)
      ensures a != ClearScreen ==>
        && outputs == old(outputs) + Stamp(Respond(a, command), old(nextId))
        && nextId == old(nextId) + |Respond(a, command)|
      ensures a.Navigate? ==> activeSection == a.to && !showInit
      ensures !a.Navigate? && a != ClearScreen ==>
        activeSection == old(activeSection) && showInit == old(showInit)
    {
      if a != ClearScreen && !a.Navigate? {
        StampSingle(Respond(a, command), nextId);
      }
      match a
      case ShowHelp => AddOutput(OutputItem, View(HelpTable));
      case Navigate(s) => NavigateToSection(s);
      case ClearScreen => ClearOutputs();
      case Whoami => AddOutput(OutputItem, View(WhoamiCard));
      case Neofetch => AddOutput(OutputItem, View(NeofetchCard));
      case ListFiles =>
        AddOutput(OutputItem, Text("about.txt  contact.txt  projects/  services/  .config/  .ssh/"));
      case PrintDir => AddOutput(OutputItem, Text("/home/loud"));
      case ShowDate => AddOutput(OutputItem, View(DateLine));
      case ShowUptime => AddOutput(OutputItem, View(UptimeLine));
      case Logout => AddOutput(OutputItem, Text("Connection terminated. Refresh to reconnect."));
      case Unknown => AddOutput(OutputItem, Text(NotFoundText(command)));
    }

    /**
     * The page's keyboard shortcuts: a function key navigates directly, with no
     * `$` echo; Ctrl+L clears. Returns whether the browser default was prevented.
     */
    method OnKeyDown(key: string, ctrlKey: bool) returns (prevented: bool)
      modifies this`outputs, this`nextId, this`activeSection, this`showInit
      ensures prevented == Shortcuts.HandleKeyDown(key, ctrlKey, true).preventDefault
      ensures Shortcuts.SectionKey(key).Some? ==>
        var s := ShortcutSection(Shortcuts.SectionKey(key).value);
        activeSection == s && !showInit &&
        outputs == old(outputs) + Stamp(NavLines(s), old(nextId))
      ensures key == "l" && ctrlKey ==> outputs == [] && !showInit && activeSection == old(activeSection)
      ensures !prevented ==> unchanged(this)
    {
      var d := Shortcuts.HandleKeyDown(key, ctrlKey, true);
      if d.navigate.Some? {
        NavigateToSection(ShortcutSection(d.navigate.value));
      } else if d.clear {
        ClearOutputs();
      }
      prevented := d.preventDefault;
    }

    /** One scheduled step of the auto-demo: both entries of a section in one update. */
    method DemoStep(i: nat)
      requires i < |DemoSections|
      modifies this`outputs, this`nextId, this`activeSection, this`autoDisplayDone
      ensures outputs == old(outputs) + Stamp(NavLines(DemoSections[i]), old(nextId))
      ensures nextId == old(nextId) + 2
      ensures activeSection == DemoSections[i]
      ensures autoDisplayDone == (old(autoDisplayDone) || i == |DemoSections| - 1)
    {
      var s := DemoSections[i];
      outputs := outputs + Stamp(NavLines(s), nextId);
      nextId := nextId + 2;
      activeSection := s;
      if i == |DemoSections| - 1 {
        autoDisplayDone := true;
      }
    }

    /**
     * The auto-demo effect run to completion: unless it already ran, it hides the
     * boot view and performs its three steps in order.
     */
    method AutoDemo()
      modifies this`outputs, this`nextId, this`activeSection, this`showInit, this`autoDisplayDone
      ensures old(autoDisplayDone) ==> unchanged(this)
      ensures !old(autoDisplayDone) ==>
        && outputs == old(outputs) + Stamp(DemoLines(3), old(nextId))
        && nextId == old(nextId) + 6
        && activeSection == Projects && autoDisplayDone && !showInit
    {
      if autoDisplayDone {
        return;
      }
      showInit := false;
      for i := 0 to |DemoSections|
        invariant outputs == old(outputs) + Stamp(DemoLines(i), old(nextId))
        invariant nextId == old(nextId) + 2 * i
        invariant autoDisplayDone == (i == |DemoSections|)
        invariant i > 0 ==> activeSection == DemoSections[i - 1]
        invariant !showInit
      {
        StampAppend(DemoLines(i), NavLines(DemoSections[i]), old(nextId));
        assert |DemoLines(i)| == 2 * i by { DemoLinesLength(i); }
        DemoStep(i);
      }
    }
  }

  lemma {:induction false} DemoLinesLength(n: nat)
    requires n <= |DemoSections|
    ensures |DemoLines(n)| == 2 * n
  {
    if n > 0 {
      DemoLinesLength(n - 1);
    }
  }

  /** The echo entry followed by the numbered response is the numbered reply. */
  lemma {:induction false} EchoThenRespond(command: string, n: nat)
    requires Lookup(Normalize(command)) != ClearScreen
    ensures [Entry(n, CommandItem, Text("$ " + command))] + Stamp(Respond(Lookup(Normalize(command)), command), n + 1)
      == Stamp(Reply(command), n)
    ensures |Reply(command)| == 1 + |Respond(Lookup(Normalize(command)), command)|
  {
    var a := Lookup(Normalize(command));
    assert Stamp([Echo(command)], n) == [Entry(n, CommandItem, Text("$ " + command))];
    StampAppend([Echo(command)], Respond(a, command), n);
  }

  /** A single line is numbered with the first number. */
  lemma StampSingle(lines: seq<Line>, from: nat)
    requires |lines| == 1
    ensures Stamp(lines, from) == [Entry(from, lines[0].kind, lines[0].content)]
  {
    assert lines[1..] == [];
  }

  /** Numbering two runs of lines one after the other numbers their concatenation. */
  lemma {:induction false} StampAppend(a: seq<Line>, b: seq<Line>, from: nat)
    ensures Stamp(a, from) + Stamp(b, from + |a|) == Stamp(a + b, from)
    decreases |a|
  {
    if a == [] {
      assert a + b == b;
    } else {
      var e := Entry(from, a[0].kind, a[0].content);
      assert (a + b)[0] == a[0] && (a + b)[1..] == a[1..] + b;
      StampAppend(a[1..], b, from + 1);
      calc {
        Stamp(a, from) + Stamp(b, from + |a|);
        ([e] + Stamp(a[1..], from + 1)) + Stamp(b, from + 1 + |a[1..]|);
        [e] + (Stamp(a[1..], from + 1) + Stamp(b, from + 1 + |a[1..]|));
        [e] + Stamp(a[1..] + b, from + 1);
        Stamp(a + b, from);
      }
    }
  }

  /** Ctrl+L after five entries empties the scrollback and keeps the section; clearing again changes nothing. */
  method ScenarioCtrlL() returns (t: Session)
    ensures t.outputs == [] && !t.showInit && t.activeSection == Services
  {
    t := new Session();
    t.NavigateToSection(About);
    t.NavigateToSection(Services);
    t.AddOutput(OutputItem, View(HelpTable));
    assert |t.outputs| == 5;
    var prevented := t.OnKeyDown("l", true);
    assert prevented && t.outputs == [];
    t.ClearOutputs();
  }

  /** The auto-demo runs once: a second run appends nothing more. */
  method ScenarioDemoOnce() returns (t: Session)
    ensures |t.outputs| == 6 && t.activeSection == Projects && t.autoDisplayDone && !t.showInit
  {
    t := new Session();
    t.AutoDemo();
    t.AutoDemo();
  }
}
