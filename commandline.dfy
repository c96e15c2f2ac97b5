/**
 * The command-line editor of components/terminal/CommandInput.tsx: the text being
 * typed, the history of submitted commands with a cursor moved by ArrowUp and
 * ArrowDown, Tab completion over a fixed command table, and the suggestion list.
 *
 * The handlers are pure transitions over `Editor`; the class `CommandInput` holds
 * the component's state and applies them in place.
 */
module CommandLine {
  import opened Wrappers
  import JsString
  import opened Subsequence

  /** `availableCommands`: the names offered for completion. */
  const AvailableCommands: seq<string> :=
    ["help", "about", "services", "projects", "skills", "contact",
     "clear", "whoami", "ls", "cat", "neofetch"]

  /** No element occurs twice. */
  predicate Distinct(s: seq<string>) {
    forall i, j :: 0 <= i < j < |s| ==> s[i] != s[j]
  }

  /** `cs.filter(cmd => cmd.startsWith(p))`. */
  function FilterPrefix(p: string, cs: seq<string>): (r: seq<string>)
    ensures forall c :: c in r <==> c in cs && JsString.StartsWith(c, p)
    ensures IsSubsequence(r, cs)
    ensures Distinct(cs) ==> Distinct(r)
  {
    if cs == [] then []
    else if JsString.StartsWith(cs[0], p) then [cs[0]] + FilterPrefix(p, cs[1..])
    else FilterPrefix(p, cs[1..])
  }

  /** The commands Tab considers: those starting with the lower-cased input. */
  function Matches(input: string): (r: seq<string>)
    ensures forall c :: c in r <==> c in AvailableCommands && JsString.StartsWith(c, JsString.Lower(input))
    ensures IsSubsequence(r, AvailableCommands)
  {
    FilterPrefix(JsString.Lower(input), AvailableCommands)
  }

  /** `filteredSuggestions`: nothing for empty input, otherwise the matching commands in table order. */
  function Suggestions(input: string): (r: seq<string>)
    ensures forall c :: c in r <==> input != [] && c in AvailableCommands && JsString.StartsWith(c, JsString.Lower(input))
    ensures IsSubsequence(r, AvailableCommands)
  {
    if input == [] then [] else Matches(input)
  }

  lemma CommandsDistinct()
    ensures Distinct(AvailableCommands)
  {
  }

  /** No command in the table is a prefix of another one. */
  lemma {:induction false} CommandsPrefixFree(c: string, d: string)
    requires c in AvailableCommands && d in AvailableCommands
    ensures JsString.StartsWith(d, c) <==> c == d
  {
    if JsString.StartsWith(d, c) {
      assert |c| >= 2;
      assert d[0] == d[..|c|][0] && d[1] == d[..|c|][1];
    }
  }

  /** Filtering a duplicate-free list by a prefix only one of its elements has leaves that element alone. */
  lemma {:induction false} FilterSingle(p: string, cs: seq<string>, c: string)
    requires Distinct(cs) && c in cs
    requires forall d :: d in cs && JsString.StartsWith(d, p) <==> d == c
    ensures FilterPrefix(p, cs) == [c]
  {
    if cs[0] == c {
      var rest := FilterPrefix(p, cs[1..]);
      if rest != [] {
        assert rest[0] in cs[1..];
      }
    } else {
      FilterSingle(p, cs[1..], c);
    }
  }

  /** The table is written in lower case. */
  lemma CommandsLowerCase(c: string)
    requires c in AvailableCommands
    ensures forall i :: 0 <= i < |c| ==> !('A' <= c[i] <= 'Z')
  {
  }

  /** A complete command name has itself as its only match. */
  lemma {:induction false} CompletedCommandMatchesItself(c: string)
    requires c in AvailableCommands
    ensures Matches(c) == [c]
  {
    CommandsLowerCase(c);
    JsString.LowerFixed(c);
    CommandsDistinct();
    forall d | d in AvailableCommands
      ensures JsString.StartsWith(d, c) <==> d == c
    {
      CommandsPrefixFree(c, d);
    }
    FilterSingle(c, AvailableCommands, c);
  }

  /** The component's state. */
  datatype Editor = Editor(input: string, history: seq<string>, index: int, showSuggestions: bool)

  /** The history cursor is -1 (not browsing) or an index counted from the newest entry. */
  predicate Valid(e: Editor) {
    -1 <= e.index <= |e.history| - 1
  }

  const Initial: Editor := Editor("", [], -1, false)

  /** `history[k] || ''`. */
  function At(history: seq<string>, k: int): string {
    if 0 <= k < |history| then history[k] else ""
  }

  /**
   * `handleSubmit`: blank input changes nothing; otherwise the trimmed, lower-cased
   * text goes to `onCommand`, the trimmed text joins the history, the cursor resets
   * and the input is emptied.
   */
  function Submit(e: Editor): (r: (Editor, Option<string>))
    ensures JsString.Trim(e.input) == [] ==> r == (e, None)
    ensures JsString.Trim(e.input) != [] ==>
      && r.1 == Some(JsString.Lower(JsString.Trim(e.input)))
      && r.0.history == e.history + [JsString.Trim(e.input)]
      && r.0.index == -1 && r.0.input == [] && r.0.showSuggestions == e.showSuggestions
    ensures Valid(e) ==> Valid(r.0)
  {
    var t := JsString.Trim(e.input);
    if t == [] then (e, None)
    else (Editor("", e.history + [t], -1, e.showSuggestions), Some(JsString.Lower(t)))
  }

  /** ArrowUp: one step toward older entries, stopping at the oldest. */
  function Up(e: Editor): (r: Editor)
    requires Valid(e)
    ensures Valid(r) && r.history == e.history && r.showSuggestions == e.showSuggestions
    ensures e.history == [] ==> r == e
    ensures e.history != [] ==>
      && r.index == (if e.index < |e.history| - 1 then e.index + 1 else |e.history| - 1)
      && r.input == e.history[|e.history| - 1 - r.index]
  {
    if |e.history| > 0 then
      var i := if e.index < |e.history| - 1 then e.index + 1 else e.index;
      e.(index := i, input := At(e.history, |e.history| - 1 - i))
    else e
  }

  /** ArrowDown: one step toward newer entries; past the newest, back to an empty line. */
  function Down(e: Editor): (r: Editor)
    requires Valid(e)
    ensures Valid(r) && r.history == e.history && r.showSuggestions == e.showSuggestions
    ensures e.index > 0 ==> r.index == e.index - 1 && r.input == e.history[|e.history| - 1 - r.index]
    ensures e.index == 0 ==> r.index == -1 && r.input == []
    ensures e.index == -1 ==> r == e
  {
    if e.index > 0 then
      var i := e.index - 1;
      e.(index := i, input := At(e.history, |e.history| - 1 - i))
    else if e.index == 0 then e.(index := -1, input := "")
    else e
  }

  /** Tab: one match completes the input, several open the suggestion list, none does nothing. */
  function Tab(e: Editor): (r: Editor)
    ensures r.history == e.history && r.index == e.index
    ensures |Matches(e.input)| == 1 ==> r.input == Matches(e.input)[0] && r.input in AvailableCommands
    ensures |Matches(e.input)| != 1 ==> r.input == e.input
    ensures |Matches(e.input)| > 1 ==> r.showSuggestions
    ensures |Matches(e.input)| <= 1 ==> r.showSuggestions == e.showSuggestions
  {
    var m := Matches(e.input);
    if |m| == 1 then e.(input := m[0])
    else if |m| > 1 then e.(showSuggestions := true)
    else e
  }

  /** Tab on a command that is already complete changes nothing. */
  lemma {:induction false} TabIdempotent(e: Editor)
    ensures Tab(Tab(e)) == Tab(e)
  {
    var m := Matches(e.input);
    if |m| == 1 {
      assert m[0] in m;
      CompletedCommandMatchesItself(m[0]);
    }
  }

  /** The suggestion list on screen: shown only when the flag is set and something matches. */
  function Dropdown(e: Editor): (items: seq<string>)
    ensures items != [] <==> e.showSuggestions && Suggestions(e.input) != []
    ensures items != [] ==> items == Suggestions(e.input)
  {
    if e.showSuggestions then Suggestions(e.input) else []
  }

  /**
   * Tab on an empty line: every command matches the empty prefix, so the flag is
   * raised, yet nothing is listed, since the list is empty for empty input.
   */
  lemma {:induction false} TabOnEmptyLine(e: Editor)
    requires e.input == []
    ensures Tab(e).showSuggestions && Tab(e).input == []
    ensures Dropdown(Tab(e)) == []
  {
    var m := Matches(e.input);
    assert JsString.Lower(e.input) == [];
    assert JsString.StartsWith("help", []) && JsString.StartsWith("about", []);
    assert "help" in m && "about" in m;
  }

  /** Escape hides the suggestions. */
  function Escape(e: Editor): (r: Editor)
    ensures !r.showSuggestions
    ensures r.(showSuggestions := e.showSuggestions) == e
  {
    e.(showSuggestions := false)
  }

  /** Typing: the input becomes the new value and suggestions show exactly when it is non-empty. */
  function Change(e: Editor, value: string): (r: Editor)
    ensures r.input == value && (r.showSuggestions <==> value != [])
    ensures r.history == e.history && r.index == e.index
  {
    e.(input := value, showSuggestions := |value| > 0)
  }

  /** Clicking a suggestion: it becomes the input and the list closes. */
  function Pick(e: Editor, suggestion: string): (r: Editor)
    ensures r.input == suggestion && !r.showSuggestions
    ensures r.history == e.history && r.index == e.index
  {
    e.(input := suggestion, showSuggestions := false)
  }

  /** `k` presses of ArrowUp. */
  function Ups(e: Editor, k: nat): (r: Editor)
    requires Valid(e)
    ensures Valid(r) && r.history == e.history
  {
    if k == 0 then e else Up(Ups(e, k - 1))
  }

  /** `k` presses of ArrowDown. */
  function Downs(e: Editor, k: nat): (r: Editor)
    requires Valid(e)
    ensures Valid(r) && r.history == e.history
  {
    if k == 0 then e else Down(Downs(e, k - 1))
  }

  lemma {:induction false} UpsFromStart(e: Editor, k: nat)
    requires Valid(e) && e.index == -1 && k <= |e.history|
    ensures Ups(e, k).index == k - 1
  {
    if k > 0 {
      UpsFromStart(e, k - 1);
    }
  }

  lemma {:induction false} DownsToStart(e: Editor, k: nat)
    requires Valid(e) && e.index == k - 1
    ensures Downs(e, k).index == -1
    ensures k > 0 ==> Downs(e, k).input == []
  {
    if k > 0 {
      DownsFrom(e, k - 1);
    }
  }

  lemma {:induction false} DownsFrom(e: Editor, j: nat)
    requires Valid(e) && e.index >= j
    ensures Downs(e, j).index == e.index - j
  {
    if j > 0 {
      DownsFrom(e, j - 1);
    }
  }

  /**
   * From a fresh line, `k` presses of ArrowUp followed by `k` of ArrowDown (with `k`
   * at most the history length) return to a fresh, empty line.
   */
  lemma {:induction false} UpsThenDowns(e: Editor, k: nat)
    requires Valid(e) && e.index == -1 && 0 < k <= |e.history|
    ensures Downs(Ups(e, k), k).index == -1
    ensures Downs(Ups(e, k), k).input == []
    ensures Downs(Ups(e, k), k).history == e.history
  {
    UpsFromStart(e, k);
    DownsToStart(Ups(e, k), k);
  }

  /** The state of the `CommandInput` component. */
  class CommandInput {
    var input: string
    var history: seq<string>
    var historyIndex: int
    var showSuggestions: bool

    function State(): Editor
      reads this
    {
      Editor(input, history, historyIndex, showSuggestions)
    }

    constructor ()
      ensures State() == Initial
    {
      input := "";
      history := [];
      historyIndex := -1;
      showSuggestions := false;
    }

    /** `handleSubmit`; `command` is what is passed to `onCommand`, if anything. */
    method HandleSubmit() returns (command: Option<string>)
      modifies this
      ensures (State(), command) == Submit(old(State()))
    {
      var t := JsString.Trim(input);
      if t != [] {
        command := Some(JsString.Lower(t));
        history := history + [t];
        historyIndex := -1;
        input := "";
      } else {
        command := None;
      }
    }

    /** `handleKeyDown`, ArrowUp branch. */
    method ArrowUp()
      requires Valid(State())
      modifies this
      ensures State() == Up(old(State()))
    {
      if |history| > 0 {
        var newIndex := if historyIndex < |history| - 1 then historyIndex + 1 else historyIndex;
        historyIndex := newIndex;
        input := At(history, |history| - 1 - newIndex);
      }
    }

    /** `handleKeyDown`, ArrowDown branch. */
    method ArrowDown()
      requires Valid(State())
      modifies this
      ensures State() == Down(old(State()))
    {
      if historyIndex > 0 {
        var newIndex := historyIndex - 1;
        historyIndex := newIndex;
        input := At(history, |history| - 1 - newIndex);
      } else if historyIndex == 0 {
        historyIndex := -1;
        input := "";
      }
    }

    /** `handleKeyDown`, Tab branch. */
    method TabKey()
      modifies this
      ensures State() == Tab(old(State()))
    {
      var matches := FilterPrefix(JsString.Lower(input), AvailableCommands);
      if |matches| == 1 {
        input := matches[0];
      } else if |matches| > 1 {
        showSuggestions := true;
      }
    }

    /** `handleKeyDown`, Escape branch. */
    method EscapeKey()
      modifies this
      ensures State() == Escape(old(State()))
    {
      showSuggestions := false;
    }

    /** The input's `onChange`. */
    method OnChange(value: string)
      modifies this
      ensures State() == Change(old(State()), value)
    {
      input := value;
      showSuggestions := |value| > 0;
    }

    /** A suggestion's `onClick`. */
    method OnPick(suggestion: string)
      modifies this
      ensures State() == Pick(old(State()), suggestion)
    {
      input := suggestion;
      showSuggestions := false;
    }
  }
}
