# loudmumble terminal: a Dafny model

A model of the logic of the loudmumble portfolio site, which looks like a terminal.
All rendering is abstracted away; what is modelled is the state those pages and widgets keep and how they change it:

- **The terminal session** (`Terminal`, pages/Index.tsx):
  - an append-only scrollback of entries;
  - the command dispatcher over its alias table;
  - navigation to a section;
  - clearing the screen;
  - the F1–F4 / Ctrl+L shortcuts;
  - the one-shot auto-demo that opens about, services and projects.
- **The command line** (`CommandLine`, components/terminal/CommandInput.tsx):
  - submitting into the history;
  - the history cursor driven by ArrowUp and ArrowDown;
  - Tab completion over the eleven-command table;
  - the suggestion list.
- **The keyboard shortcut decision** (`Shortcuts`, hooks/useKeyboardNavigation.ts).
- **The blog page** (`Blog`, pages/BlogPost.tsx):
  - the `{{PLACEHOLDER_…}}` stripper and `trim`;
  - the `loading` / `fetchError` / `html` state of the loader, including cancelled runs;
  - the choice of view.
- **The boot screen** (`Boot`, components/terminal/SystemInit.tsx): the saturating `visibleLines` counter and what it reveals.
- **The widgets**:
  - the HUD readings, activity feed and theme (`Hud`, components/terminal/TerminalHUD.tsx);
  - the project tree (`Projects`, components/sections/ProjectsSection.tsx);
  - the skill bars (`Skills`, components/sections/SkillsSection.tsx);
  - the line prefix (`TerminalLine`, components/terminal/TerminalLine.tsx).

Three helper modules are shared:
- `JsString`: the ECMAScript string built-ins `trim`, `toLowerCase`, `repeat` and `padEnd`.
- `Subsequence`: order-preserving sub-sequences.
- `Wrappers`: `Option` and `Result`.

Where the code is imperative, the model is a class whose fields are the component's state. Each handler is a method whose postcondition gives the new state. The pure parts are functions, and the lemmas relate them.

What the model brings out:
- The dispatcher receives text that is already normal. The command line submits `input.trim().toLowerCase()`, and `Terminal.SubmittedIsNormal` proves the dispatcher's own `toLowerCase().trim()` leaves it unchanged.
- `cat` is offered by Tab completion but is "command not found" when run.
- `blog`, `enterprise` and `github` are listed by `help` but are not dispatched, and F5 is not bound.
- The boot screen's counter stops at 11, the number of log lines. The welcome line and the closing divider are written for 12 and 13, so they are never shown (`Boot.ScreenAfter`).
- Tab on an empty line raises the suggestion flag, yet the list shown is empty (`CommandLine.TabOnEmptyLine`).
- With no `onClear` callback, Ctrl+L calls no callback but still calls `preventDefault`, so the hook is not a complete no-op for that key. The model follows the code (`Shortcuts.HandleKeyDown`).

## Model

| member | source | states |
|---|---|---|
| JsString.Trim | pages/Index.tsx:70 | the result has no whitespace at either end and is never longer than the input; already trimmed text is unchanged |
| JsString.TrimOnlyEdges | pages/Index.tsx:70 | the result sits inside the input with nothing but ECMAScript whitespace before and after it |
| JsString.TrimUnique | pages/Index.tsx:70 | any trimmed text sitting in the input between whitespace edges is the result of `trim` |
| JsString.Lower | pages/Index.tsx:70 | lower-casing keeps the length |
| JsString.LowerAt | pages/Index.tsx:70 | each character of the result is the input's character with A–Z lowered |
| JsString.TrimLowerCommute | components/terminal/CommandInput.tsx:44 | trimming and lower-casing commute |
| JsString.LowerIdempotent | pages/Index.tsx:70 | lower-casing twice is lower-casing once |
| JsString.NormalizeSubmitted | components/terminal/CommandInput.tsx:44 | trimmed-then-lowered text is unchanged by lowering and trimming again |
| JsString.Repeat | components/sections/SkillsSection.tsx:45-46 | `n` copies of the character, nothing else |
| JsString.PadEnd | components/terminal/TerminalLine.tsx:32 | length is the larger of the target and the input; the input is a prefix; every added character is a space; long input is returned unchanged |
| JsString.PadEndIdempotent | components/terminal/TerminalLine.tsx:32 | padding twice is padding once |
| Shortcuts.SectionKeysInverse | hooks/useKeyboardNavigation.ts:5-10 | F1–F4 map one-to-one onto about, services, projects, contact; no other key is bound, so skills has no key |
| Shortcuts.HandleKeyDown | hooks/useKeyboardNavigation.ts:16-30 | navigates exactly on a bound key and then never clears; clears exactly on `l` with Ctrl when a callback exists; prevents the default exactly on a bound key or Ctrl+`l`; depends on nothing but the key and Ctrl |
| Terminal.Lookup | pages/Index.tsx:75-158 | no command navigates to the boot view |
| Terminal.ClearAliasesExact | pages/Index.tsx:105-108 | a command clears the screen exactly when it is `clear` or `cls` |
| Terminal.PrintAliasesExact | pages/Index.tsx:76-150 | a command selects a printing action exactly when it is one of that action's aliases |
| Terminal.UnknownExact | pages/Index.tsx:152-157 | a command falls through to the default case exactly when it is in none of the alias tables |
| Terminal.CatFallsThrough | pages/Index.tsx:82-103 | bare `cat` falls through to the default case, while `cat about` and `cat contact.txt` navigate |
| Terminal.Echo | pages/Index.tsx:73 | the echo is a `command` entry reading `$ ` followed by the command exactly as passed |
| Terminal.NotFoundText | pages/Index.tsx:155 | the message starts with `bash: `, then the command as passed, then `: command not found.` |
| Terminal.UnknownReply | pages/Index.tsx:152-157 | an unknown command appends exactly the echo and the not-found message |
| Terminal.AboutIsNormal | pages/Index.tsx:70 | `about` is unchanged by lower-casing and trimming |
| Terminal.AboutNavigates | pages/Index.tsx:82-86 | `about` is an alias of the about section |
| Terminal.ScenarioAbout | pages/Index.tsx:69-103 | typing `about` appends the echo, `cd ~/about` and the about section |
| Terminal.UnknownWordIsNormal | pages/Index.tsx:70 | `xyz123` is unchanged by lower-casing and trimming |
| Terminal.UnknownWordFallsThrough | pages/Index.tsx:152-157 | `xyz123` is in no alias table |
| Terminal.ScenarioUnknown | pages/Index.tsx:69-157 | typing `xyz123` appends the echo and `bash: xyz123: command not found. …` |
| Terminal.Normalize | pages/Index.tsx:70 | the dispatched command is trimmed and no longer than the input |
| Terminal.NavLines | pages/Index.tsx:51-67 | a section appends two lines; the boot view, which has no component, appends none |
| Terminal.Respond | pages/Index.tsx:76-157 | a navigation action answers with its section's two lines; every other action except clear adds exactly one `output` line; the default case adds the not-found message for the command as typed |
| Terminal.Reply | pages/Index.tsx:69-159 | every command other than clear appends the `$ ` echo first and at least one line after it; three lines in total exactly for navigation; an unknown command's second line is the not-found message |
| Terminal.EchoThenRespond | pages/Index.tsx:69-75 | the entries `HandleCommand` appends are the numbered `Reply` |
| Terminal.NavigationReply | pages/Index.tsx:82-103 | a navigation alias appends the echo, `cd ~/<section>`, then the section, and never targets the boot view |
| Terminal.PrintReply | pages/Index.tsx:110-150 | help, whoami, neofetch, ls, pwd, date, uptime and exit/logout append exactly one `output` line after the echo |
| Terminal.NavigationAliases | pages/Index.tsx:82-145 | a command navigates to a section exactly when it is one of that section's aliases |
| Terminal.NotFoundQuotesCommand | pages/Index.tsx:152-157 | the not-found message contains the command as it was typed |
| Terminal.HelpListsUnknownCommands | components/terminal/HelpOutput.tsx:9-22 | of the names the help table lists, exactly blog, enterprise and github are unknown to the dispatcher; F5 is not bound |
| Terminal.SubmittedIsNormal | components/terminal/CommandInput.tsx:44 | what the command line submits is its own normal form |
| Terminal.ShortcutSection | pages/Index.tsx:161-164 | a function key never leads to the boot view or to skills, and lands on a section whose name is one of its aliases |
| Terminal.DemoTranscript | pages/Index.tsx:171-190 | the demo's lines are `cd ~/about`, about, `cd ~/services`, services, `cd ~/projects`, projects |
| Terminal.Session.constructor | pages/Index.tsx:24-27 | empty scrollback, boot view shown, demo not yet run |
| Terminal.Session.AddOutput | pages/Index.tsx:40-44 | one entry appended at the end, earlier entries untouched |
| Terminal.Session.ClearOutputs | pages/Index.tsx:46-49 | scrollback empty, boot view hidden |
| Terminal.Session.NavigateToSection | pages/Index.tsx:51-67 | section selected, boot view hidden, the section's lines appended |
| Terminal.Session.HandleCommand | pages/Index.tsx:69-159 | clear leaves an empty scrollback, echo included, and keeps the section; every other command appends the echo and then its response; navigation selects the section and hides the boot view; other commands keep both |
| Terminal.Session.Perform | pages/Index.tsx:75-158 | the effect of each action on the state |
| Terminal.Session.OnKeyDown | pages/Index.tsx:161-164 | a function key navigates with no `$` echo; Ctrl+L clears; a key whose default is not prevented changes nothing |
| Terminal.Session.DemoStep | pages/Index.tsx:179-190 | one demo step appends its pair and selects its section; the last step marks the demo done |
| Terminal.Session.AutoDemo | pages/Index.tsx:167-196 | an unfinished demo hides the boot view and appends the six demo lines, ending on projects and done; a finished demo changes nothing |
| Terminal.ScenarioCtrlL | pages/Index.tsx:46-49 | Ctrl+L empties a scrollback of five entries and keeps the section; clearing again keeps it empty |
| Terminal.ScenarioDemoOnce | pages/Index.tsx:167-168 | running the demo twice still leaves six entries |
| CommandLine.FilterPrefix | components/terminal/CommandInput.tsx:71 | keeps exactly the commands starting with the prefix, in table order, without duplicates |
| CommandLine.Matches | components/terminal/CommandInput.tsx:71 | exactly the table commands starting with the lower-cased input, in table order |
| CommandLine.Suggestions | components/terminal/CommandInput.tsx:82-84 | empty for empty input; otherwise exactly the table commands starting with the lower-cased input, in table order |
| CommandLine.CommandsPrefixFree | components/terminal/CommandInput.tsx:8-20 | no command of the table is a prefix of another |
| CommandLine.CompletedCommandMatchesItself | components/terminal/CommandInput.tsx:71 | a complete command's only match is itself |
| CommandLine.Submit | components/terminal/CommandInput.tsx:41-49 | blank input changes nothing and submits nothing; otherwise submits the trimmed lower-cased text, appends the trimmed text to the history, resets the cursor and empties the line; keeps the cursor in range |
| CommandLine.Up | components/terminal/CommandInput.tsx:52-58 | with history, one step older, stopping at the oldest, and the line shows that entry; without history, nothing; the cursor stays in range |
| CommandLine.Down | components/terminal/CommandInput.tsx:59-68 | one step newer showing that entry, from the newest to an empty fresh line, and nothing from a fresh line; the cursor stays in range |
| CommandLine.UpsThenDowns | components/terminal/CommandInput.tsx:52-68 | from a fresh line, k ArrowUps then k ArrowDowns (0 < k ≤ history length) return to a fresh, empty line |
| CommandLine.Tab | components/terminal/CommandInput.tsx:69-76 | one match completes the line to that command; several raise the suggestion flag; none changes nothing |
| CommandLine.TabIdempotent | components/terminal/CommandInput.tsx:69-76 | a second Tab changes nothing |
| CommandLine.Dropdown | components/terminal/CommandInput.tsx:114-116 | the list is shown exactly when the flag is set and something matches, and lists the suggestions |
| CommandLine.TabOnEmptyLine | components/terminal/CommandInput.tsx:69-84 | Tab on an empty line raises the flag but lists nothing |
| CommandLine.Escape | components/terminal/CommandInput.tsx:77-78 | hides the suggestions and changes nothing else |
| CommandLine.Change | components/terminal/CommandInput.tsx:99-102 | the line becomes the value; suggestions show exactly when it is non-empty |
| CommandLine.Pick | components/terminal/CommandInput.tsx:119-123 | the line becomes the suggestion and the list closes |
| CommandLine.CommandInput.constructor | components/terminal/CommandInput.tsx:23-26 | empty line, empty history, cursor at -1, no suggestions |
| CommandLine.CommandInput.HandleSubmit | components/terminal/CommandInput.tsx:41-49 | state and submitted command are those of `Submit` |
| CommandLine.CommandInput.ArrowUp | components/terminal/CommandInput.tsx:52-58 | new state is `Up` of the old |
| CommandLine.CommandInput.ArrowDown | components/terminal/CommandInput.tsx:59-68 | new state is `Down` of the old |
| CommandLine.CommandInput.TabKey | components/terminal/CommandInput.tsx:69-76 | new state is `Tab` of the old |
| CommandLine.CommandInput.EscapeKey | components/terminal/CommandInput.tsx:77-78 | new state is `Escape` of the old |
| CommandLine.CommandInput.OnChange | components/terminal/CommandInput.tsx:99-102 | new state is `Change` of the old |
| CommandLine.CommandInput.OnPick | components/terminal/CommandInput.tsx:119-123 | new state is `Pick` of the old |
| Blog.MatchAt | pages/BlogPost.tsx:55 | a match at the front is a placeholder (opener, one or more non-`}`, `}}`) and the only placeholder prefix; no match means no prefix is a placeholder |
| Blog.Scan | pages/BlogPost.tsx:81 | the pieces rejoin to the text, every removed piece is a placeholder, and the first piece is kept only where no match starts |
| Blog.ScanSuffixes | pages/BlogPost.tsx:81 | the pieces before and after any split point rejoin to the text |
| Blog.ScanEveryPiece | pages/BlogPost.tsx:81 | every piece agrees with the text from its offset on: a kept character exactly where no match starts, a removed piece exactly as long as the match there |
| Blog.ScanUnique | pages/BlogPost.tsx:81 | any split of the text into pieces that all agree with the text after them is the scan |
| Blog.Strip | pages/BlogPost.tsx:81 | the stripped text keeps characters of the raw text in order and is never longer |
| Blog.StripWithoutOpener | pages/BlogPost.tsx:81 | text without `{{PLACEHOLDER_` is unchanged |
| Blog.StripPlaceholder | pages/BlogPost.tsx:81 | a placeholder on its own is removed entirely |
| Blog.StripSplice | pages/BlogPost.tsx:81 | after text without the opener, a placeholder is removed and the text before it kept: `Strip(a + p + b) == a + Strip(b)` |
| Blog.Clean | pages/BlogPost.tsx:81 | the cleaned text has no edge whitespace and is never longer than the raw text; it is the raw text trimmed when it holds no placeholder opener, and empty when it is one placeholder |
| Blog.CleanRemovesPlaceholder | pages/BlogPost.tsx:81 | a placeholder between two runs of opener-free text disappears and the two runs are joined, then trimmed |
| Blog.Complete | pages/BlogPost.tsx:76-95 | a load succeeds exactly when the response is ok, its text resolves, and parsing the cleaned text succeeds, with the parsed HTML |
| Blog.Shown | pages/BlogPost.tsx:125-165 | exactly one of the loading view, the error view and the article is rendered |
| Blog.BlogPage.constructor | pages/BlogPost.tsx:59-61 | empty HTML, loading, no error |
| Blog.BlogPage.Start | pages/BlogPost.tsx:63-74 | a missing slug shows the error view and starts nothing; otherwise a fresh uncancelled run starts in the loading view |
| Blog.BlogPage.Cleanup | pages/BlogPost.tsx:100-102 | the run is marked cancelled |
| Blog.BlogPage.Finish | pages/BlogPost.tsx:86-95 | a cancelled run changes nothing; otherwise loading ends, with the HTML on success or the error flag on failure |
| Blog.BlogPage.Visit | pages/BlogPost.tsx:63-98 | an uncancelled visit shows the article with the parsed HTML on success and the error view otherwise |
| Boot.AuthLines | components/terminal/SystemInit.tsx:41-46 | four magenta AUTH lines |
| Boot.AllLines | components/terminal/SystemInit.tsx:48 | eleven lines, the boot sequence first |
| Boot.Tick | components/terminal/SystemInit.tsx:29-35 | one more line per tick below the limit, none from it on, never past it |
| Boot.After | components/terminal/SystemInit.tsx:23-35 | after k ticks the counter is at most k and at most 11 |
| Boot.AfterIsMin | components/terminal/SystemInit.tsx:23-35 | after k ticks the counter is min(k, 11) |
| Boot.AfterMonotone | components/terminal/SystemInit.tsx:29-35 | the counter never decreases |
| Boot.Visible | components/terminal/SystemInit.tsx:52 | the shown lines are the first min(counter, line count) lines, in order |
| Boot.TrailerOf | components/terminal/SystemInit.tsx:61-69 | divider, welcome and closing divider appear from 11, 12 and 13 lines on |
| Boot.ScreenAfter | components/terminal/SystemInit.tsx:52-69 | after k ticks the first min(k, 11) lines show, the divider exactly from tick 11 on, the welcome line and closing divider never |
| Boot.BootScreen.constructor | components/terminal/SystemInit.tsx:23 | nothing visible, interval running |
| Boot.BootScreen.OnInterval | components/terminal/SystemInit.tsx:28-36 | the counter takes one tick; the interval is cleared exactly when the limit was already reached |
| Hud.Clamp | components/terminal/TerminalHUD.tsx:27 | result within bounds; values already within bounds are unchanged; others go to the nearer bound |
| Hud.FloorScaled | components/terminal/TerminalHUD.tsx:25-27 | a scaled random draw floors to an integer in its half-open range |
| Hud.Step | components/terminal/TerminalHUD.tsx:23-28 | from any readings the next are in range (loads 0–100, temperature 45–47, upload 100–599); a load in range moves by at most 2 (GPU) or 3 (CPU) |
| Hud.InitialInRange | components/terminal/TerminalHUD.tsx:14-19 | the initial readings are in range |
| Hud.PickLabel | components/terminal/TerminalHUD.tsx:184-186 | the chosen label is one of the seven |
| Hud.PushLog | components/terminal/TerminalHUD.tsx:186 | at most four lines; the new label first; then the first min(3, n) old lines |
| Hud.ActivityFeed.constructor | components/terminal/TerminalHUD.tsx:182 | empty feed |
| Hud.ActivityFeed.OnInterval | components/terminal/TerminalHUD.tsx:185-187 | the feed takes the pushed label and stays at most four known labels |
| Hud.Telemetry.constructor | components/terminal/TerminalHUD.tsx:14-19 | initial readings, in range |
| Hud.Telemetry.OnInterval | components/terminal/TerminalHUD.tsx:22-29 | readings take one step and stay in range |
| Hud.ThemesComplete | components/terminal/TerminalHUD.tsx:127-130 | every theme has a button and button names are distinct |
| Hud.ThemeSwitch.constructor | components/terminal/TerminalHUD.tsx:104 | starts on the command-centre theme |
| Hud.ThemeSwitch.Select | components/terminal/TerminalHUD.tsx:130 | the clicked theme becomes current |
| Projects.StatusLabelInjective | components/sections/ProjectsSection.tsx:33-37 | different statuses have different badges |
| Projects.NamesDistinct | components/sections/ProjectsSection.tsx:12-31 | project names are distinct |
| Projects.Toggle | components/sections/ProjectsSection.tsx:65 | clicking the expanded project collapses it; clicking another expands that one |
| Projects.ToggleTwice | components/sections/ProjectsSection.tsx:65 | two clicks on a collapsed project leave nothing expanded |
| Projects.AtMostOneExpanded | components/sections/ProjectsSection.tsx:58 | at most one row is shown expanded |
| Projects.Branch | components/sections/ProjectsSection.tsx:57-70 | the corner glyph exactly on the last row, the tee elsewhere |
| Projects.Marker | components/sections/ProjectsSection.tsx:80 | `[-]` exactly on the expanded row, `[+]` elsewhere |
| Projects.Rows | components/sections/ProjectsSection.tsx:56-126 | one row per project in table order, so the footer's count is the number of rows; each row shows `name/` and its badge; the corner glyph exactly on the last row; `[-]` and the project's tech tags exactly on the expanded row |
| Projects.OneDetailsPanel | components/sections/ProjectsSection.tsx:58-86 | the details panel is open on at most one row |
| Projects.ProjectTree.constructor | components/sections/ProjectsSection.tsx:40 | nothing expanded |
| Projects.ProjectTree.Click | components/sections/ProjectsSection.tsx:65 | the expansion toggles, and only table projects are ever expanded |
| Skills.Repeat | components/sections/SkillsSection.tsx:45-46 | a negative count raises a RangeError; otherwise that many copies |
| Skills.ProgressBar | components/sections/SkillsSection.tsx:44-53 | renders exactly when 0 ≤ level ≤ max: `level` full blocks and `max - level` light blocks, `max` in all |
| Skills.TableWellFormed | components/sections/SkillsSection.tsx:9-41 | every rating is between 0 and its maximum of 10 |
| Skills.TableBarsRender | components/sections/SkillsSection.tsx:9-46 | every bar of the table renders, ten blocks wide |
| TerminalLine.ColorClass | components/terminal/TerminalLine.tsx:11-19 | each colour maps to `text-terminal-` followed by its name |
| TerminalLine.ColorClassInjective | components/terminal/TerminalLine.tsx:11-19 | different colours get different classes |
| TerminalLine.Render | components/terminal/TerminalLine.tsx:21-34 | a prefix is drawn exactly when given and non-empty, green by default, as `[`, the label, spaces up to six columns, `]`, never truncated |
| TerminalLine.HasSpacer | components/terminal/TerminalLine.tsx:35 | the spacer appears exactly when the prefix does |

## Left out

- Rendering, CSS classes, animations, scrolling and focus handling are not modelled. This includes `scrollToBottom`, the `/` focus shortcut, the mobile layouts, and the three HUD designs' markup.
- Timers and listener plumbing are not modelled: `setTimeout`, `setInterval` and their delays, and adding or removing listeners. Each callback is a method applying its state step. The delayed `onBlur` hiding of suggestions has the same effect as `Escape` and is not a separate member.
- The auto-demo's steps can interleave with user commands on the event loop; the model runs them as sequential steps.
- Entry ids built from `Date.now()` and `Math.random()` are replaced by a counter. No uniqueness is claimed, and the source does not promise it.
- The `fetch` response and `marked.parse` are parameters. A thrown `fetch` is `None`, a rejected `res.text()` is a `None` body, and a thrown parse is `None` from the parse function. Only the state a run leaves is modelled, not when its awaits resume.
- The HUD's memory use and download rate are fractional and not modelled. The integer readings are computed from `Math.random()` draws taken as reals in [0, 1), not as IEEE doubles.
- Skill percentages (`Math.round(level / max * 100)`) are fractional arithmetic and not modelled.
- Time-dependent text (date, uptime, login time) and the random session id are abstract components or parameters.
- The content of the about, services, contact, help, whoami and neofetch components is not modelled, nor are HelpOutput's descriptions or the project descriptions.
- A lookup in `sectionKeys` of a key named like an `Object.prototype` member (such as `constructor`) would be truthy in JavaScript. The model treats only F1–F4 as bound.
- JsString.Lower: lower-cases only A–Z; `toLowerCase` also maps non-ASCII capitals, which the model leaves unchanged.
- JsString.Trim: works on Unicode code points, while JavaScript strings are UTF-16. The whitespace set is the same; lone surrogates are not modelled.
- Blog.Clean: no claim that the cleaned text is free of placeholders, because one pass of the global replace can splice a new match together out of the surrounding text (`{{PLACEHOLDER` + `{{PLACEHOLDER_x}}` + `_y}}` leaves `{{PLACEHOLDER_y}}`). What one pass does is stated exactly by `Blog.ScanEveryPiece` and `Blog.ScanUnique`, and `Blog.StripSplice` and `Blog.CleanRemovesPlaceholder` give its effect around a placeholder.
- Terminal.Lookup: its contract states only that no alias leads to the boot view. The alias table itself is stated, in both directions, by `Terminal.NavigationAliases`, `Terminal.ClearAliasesExact`, `Terminal.PrintAliasesExact` and `Terminal.UnknownExact`.
- JsString.PadEnd: counts code points, while `padEnd` counts UTF-16 code units. The two agree for the ASCII prefixes the page pads.
