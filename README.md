# top-helper, modelled in Dafny

top-helper is a small Linux command-line tool with three jobs:

- `list` lists processes, with filters, sorting and "top N" selection.
- `info` prints the details of one process.
- `switch` finds the window that belongs to a process, picks a program name for it, and asks an external switcher
  (`tool-goto-window`) to focus it.

This project models the decision logic of `src/window.rs` and `src/process.rs` and proves properties of it. The
outside world comes in as plain values: the process snapshot, what each external tool printed, the `/proc` links
and environments, and the terminal width.

Modules:

- `Wrappers`: `Option` and `Result`.
- `Text`: the Rust string operations the source relies on, on ASCII text. These are `trim`, `split_whitespace`,
  `join`, `to_lowercase`, `contains`, `find` and `parse::<u32>`. The module also proves the round trips the rest of
  the model uses: splitting words laid out with whitespace runs, and parsing a printed number.
- `Snapshot`: the process table, how a user's identifier resolves to a process (a u32 is looked up as a pid,
  anything else as a case-insensitive name substring), and `get_process_children`.
- `Window`: these parts of `src/window.rs`:
  - the X11 window search of `find_x11_window_by_pid`;
  - the wmctrl fallback;
  - the two listings;
  - WM_CLASS parsing;
  - `extract_program_name`;
  - `switch_to_process_window`.
- `Process`: these parts of `src/process.rs`:
  - the `list_processes` pipeline (filter, stable descending sort, truncate);
  - its column-width rule;
  - the truncation rules of `show_process_info`;
  - environment collection;
  - the environment-variable whitelist;
  - the display check.

Each loop of the core source is a `method` with a `while` loop. This includes the pushing loops of the listings,
the early-return X11 search, the environment insertion and the environment printing loop of `show_process_info`.
Its `ensures` ties the result to a recursive specification function, or states the result outright, and lemmas
about that function state what the source promises.

The code behaves as follows where a reader might expect otherwise:

- The X11 search makes one interleaved pass over the windows. For each window it checks the exact pid and then the
  direct children, and the first window with either kind of hit wins. There is no "exact first, then children"
  pass (`Window.ChildWindowListedFirstWins`).
- Only direct children count, not deeper descendants (`Snapshot.ChildrenAreDirectOnly`).
- The class read from `WM_CLASS` is the first quoted field, the instance, not the class (`Window.WmClassTakesInstance`).
- The wmctrl fallback matches the exact pid only, and records the process name as the window's class.

## Model

| member | source | states |
|---|---|---|
| Snapshot.FindByPid | src/window.rs:19 | None exactly when no record has the pid; otherwise the first record with that pid |
| Snapshot.FindByName | src/window.rs:20-25 | None exactly when no lowercased name contains the lowercased identifier; otherwise the first such record in table order |
| Snapshot.ResolveProcess | src/window.rs:18-25 | a u32 identifier is looked up as a pid only: None iff no record has it, else a record with it; any other identifier gives None iff no lowercased name contains it, else a record whose name does; the result is always a record of the table |
| Snapshot.NumericIdentifierIsPidOnly | src/window.rs:18-25 | an identifier that parses as a u32 never falls back to name matching: with no such pid the result is "not found" even if a name matches |
| Snapshot.ResolvePidString | src/process.rs:147-148 | with distinct pids, the decimal text of a process's pid resolves to that process |
| Snapshot.NameIdentifierPicksFirstMatch | src/process.rs:149-154 | a non-numeric identifier resolves to the first record in table order whose lowercased name contains it |
| Snapshot.Children | src/window.rs:217-229 | a pid is in the result iff some record has it with that parent; the list is no longer than the table |
| Snapshot.ChildrenAreDirectOnly | src/window.rs:224 | a grandchild is not a child: for the chain 1 <- 2 <- 3 the children of 1 are [2] |
| Text.TrimIsInfix | src/window.rs:81 | the trimmed id is the part of the line between a whitespace prefix and a whitespace suffix |
| Text.ParseU32OfNatToString | src/window.rs:176-180 | a number below 2^32 written in decimal parses back to itself |
| Text.TrimEmptyIffBlank | src/window.rs:81-84 | a line trims to the empty id exactly when it is whitespace only, so exactly those lines are skipped |
| Text.ParseU32 | src/window.rs:176-180 | a digit string parses to its decimal value when below 2^32 (leading zeros allowed) and fails otherwise; one leading `+` before a digit is skipped; any result is below 2^32 and comes from a digit string or a `+` followed by a non-empty digit string, so a lone `+` fails |
| Text.ParseU32Examples | src/window.rs:18 | "+5" gives 5 and "007" gives 7; "+", "++5", "-5" and " 5" fail |
| Text.FieldsOfLayout | src/window.rs:327 | `split_whitespace` gives back the words of any layout: leading whitespace, an unevenly long non-empty whitespace run between words, whitespace or nothing at the end |
| Window.WindowPid | src/window.rs:166-181 | None when the query fails; otherwise the query output, trimmed, parsed as a u32 (so below 2^32) |
| Window.WindowTitle | src/window.rs:183-194 | "Unknown" when the query fails; otherwise the query output trimmed |
| Window.WmClass | src/window.rs:206-214 | the first quoted field when there is one; "Unknown" when the output has fewer than two double quotes; never a double quote in the result |
| Window.WindowClass | src/window.rs:196-215 | "Unknown" when the query fails; otherwise the WM_CLASS parse of the output; never a double quote in the result |
| Window.FirstQuotedNoneIff | src/window.rs:206-212 | no field is found exactly when the text has fewer than two double quotes |
| Window.FirstQuotedField | src/window.rs:208-211 | whatever precedes the first quote, the text up to the next quote is extracted |
| Window.WmClassTakesInstance | src/window.rs:207-214 | on `WM_CLASS(STRING) = "instance", "class"` the instance is returned |
| Window.X11HitMeaning | src/window.rs:80-116 | a line yields a window iff its trimmed id is non-empty (not whitespace only, Text.TrimEmptyIffBlank), its pid query succeeds and the pid is the target or a direct child; the window carries that pid, the id, and the title and class (or "Unknown") |
| Window.MatchLinesFirstHit | src/window.rs:80-117 | the pass returns the window of the first line with a hit, exact or through a child |
| Window.MatchLinesNoHit | src/window.rs:119 | with no hit on any line the result is "No window found for PID" |
| Window.FindX11WindowByPid | src/window.rs:67-120 | equals the single-pass search; a failed `xdotool search` is an error |
| Window.X11EntryMeaning | src/window.rs:291-307 | a search line is listed iff its trimmed id is non-empty (not whitespace only) and its pid query succeeds; the entry carries the id, that pid, and the title and class (or "Unknown") |
| Window.QueryWindow | src/window.rs:292-306 | the loop body for one line yields exactly that line's listing entry |
| Window.ListX11Windows | src/window.rs:278-311 | one window per non-blank search line whose pid query succeeds, in order; a failed search is an error |
| Window.FindX11IsFirstOwnedListed | src/window.rs:67-120 | the search returns exactly the first window of the X11 listing owned by the target or one of its direct children, and fails exactly when there is none |
| Window.ChildWindowListedFirstWins | src/window.rs:80-116 | a child's window listed before the target's own window is the one returned, recorded with the child's pid |
| Window.ParseWmctrlLine | src/window.rs:326-339 | a line is accepted iff it has at least four fields and the third parses as a u32; the id is the first field, the pid is the third field parsed, the title is the fields from the fifth on joined by single spaces, and the class is "Unknown" |
| Window.ParseWmctrlLineOfLayout | src/window.rs:326-331 | a line laid out as `id desktop pid host title...`, with leading whitespace and padding that differs from column to column, gives back the id, the pid and the title words joined by single spaces |
| Window.ListWmctrlWindows | src/window.rs:313-344 | one window per accepted line, in order; a failed wmctrl is an error |
| Window.FindWindowByProcessName | src/window.rs:122-164 | the process must exist, then wmctrl must succeed; the first line with exactly the target pid is returned |
| Window.WmctrlMatchIsFirstListed | src/window.rs:122-164 | the fallback returns the first listed wmctrl window whose pid is exactly the target, with the process name as its class, and fails with ProcessNotFound, WmctrlFailed or NoWindowForProcess otherwise |
| Window.FindWindowByPid | src/window.rs:57-65 | the X11 result when it succeeds, otherwise the wmctrl fallback |
| Window.FoundWindowIsOwned | src/window.rs:57-65 | a found window belongs to the target or to one of its direct children; one found through wmctrl belongs to the target and carries its process name |
| Window.FallbackFindsWmctrlWindow | src/window.rs:59-64 | when the X11 search fails and wmctrl lists a window of an existing target, a window is found |
| Window.ListAllWindows | src/window.rs:260-276 | the X11 listing when it succeeds and is non-empty; otherwise the wmctrl listing, or nothing if that fails too |
| Window.ProgramName | src/window.rs:231-258 | always lower case, and either one of the five known program names or the lowercased class |
| Window.ClassTableWins | src/window.rs:233-238 | a class-table hit decides whatever the title says |
| Window.TitleKeywordsInOrder | src/window.rs:239-249 | for every window whose class is off the table: a Visual Studio Code keyword in the lowercased title gives "code", else "chrome" gives "chrome", else "firefox" gives "firefox", else "terminal" gives "terminal" |
| Window.TitleKeywordOrder | src/window.rs:242-246 | the title keywords are tried in order: a title naming Chrome and Firefox gives "chrome" |
| Window.ProgramNameOfCode | src/window.rs:234 | class "code" gives "code" from the class table |
| Window.ProgramNameOfFirefoxTitle | src/window.rs:239-247 | an unknown class with a Firefox title gives "firefox" |
| Window.ProgramNameFallsBackToClass | src/window.rs:231-258 | for every window whose lowercased class is not in the class table and whose lowercased title contains none of the five keywords, the name is the lowercased class |
| Window.ProgramNameOfUnknownClass | src/window.rs:250-253 | class "xyz" with title "random" gives "xyz" |
| Window.SwitchToProcessWindow | src/window.rs:13-55 | "Process not found" when the identifier resolves to nothing; the window search's error when it fails; an error when the switcher cannot be started; otherwise a report with the program name, and no failure when the switcher succeeds or its stderr when it fails |
| Process.TruncateCommand | src/process.rs:77-81 | never longer than 50; unchanged when at most 50; otherwise the first 47 characters and "..." |
| Process.TruncateCommandIdempotent | src/process.rs:77-81 | truncating an already truncated command changes nothing |
| Process.CommandColumn | src/process.rs:73-83 | "N/A" without arguments, else the truncated first argument; at most 50 characters |
| Process.MemoryCentisRounds | src/process.rs:58-88 | the shown memory is the byte count in MiB rounded to the nearest hundredth, halves up |
| Process.PassesFilters | src/process.rs:60-69 | a process is kept iff its lowercased name contains the lowercased filter (when given) and, with high_memory, it uses at least 100 MiB (Process.CollectIsFiltered) |
| Process.RowFor | src/process.rs:57-93 | the loop body yields no row for a process failing either filter and otherwise exactly its row |
| Process.CollectRows | src/process.rs:57-93 | the loop collects exactly the rows of the processes that pass the filters, in table order |
| Process.CollectIsFiltered | src/process.rs:57-93 | a row is collected iff some process passing the name and high-memory filters produces it |
| Process.SortDesc | src/process.rs:97 | the descending stable sort; its properties are Process.SortDescIsSortedPermutation and Process.SortDescIsStable |
| Process.SortDescIsSortedPermutation | src/process.rs:97 | the sort orders rows by the key, largest first, and keeps exactly the same rows |
| Process.SortDescIsStable | src/process.rs:97 | rows with equal keys keep their collected order |
| Process.Arrange | src/process.rs:95-106 | the option precedence, sort and cut; its properties are Process.ArrangeOrders and Process.TopKeepsLargest |
| Process.ArrangeOrders | src/process.rs:95-106 | top_memory wins over top_cpu, which wins over sort_memory; the result is sorted by the chosen key; with top N there are min(N, count) rows drawn from the collected ones, otherwise all of them; with no option the order is unchanged |
| Process.TopKeepsLargest | src/process.rs:96-103 | top N keeps the largest: every kept row's key is at least every dropped row's key, and kept plus dropped rows are the collected rows |
| Process.ListedRowsPassFilters | src/process.rs:60-69 | every listed row comes from a process whose lowercased name contains the lowercased filter (if given) and that uses at least 100 MiB (with high_memory) |
| Process.ListProcesses | src/process.rs:45-136 | the rows are the filtered rows arranged by the options, and the widths are the terminal rule's |
| Process.ColumnWidthsFor | src/process.rs:111-135 | no constraint without a terminal; the flexible split iff the terminal is wider than 63 columns, where the remainder past 63 columns is split: the working directory gets half of it rounded down, at most 40, and the command the rest, never less than the working directory; otherwise 10/15/20 |
| Process.DetailValue | src/process.rs:170-215 | unchanged when it fits; otherwise a prefix of the value followed by "...", never longer than max(width, 3) |
| Process.MaxValueWidth | src/process.rs:161-162 | the terminal width minus 25, or 0 below 25 columns; 55 when the size is unknown |
| Process.IsRelevantEnvVar | src/process.rs:285-297 | membership in the nine-key whitelist; Process.RelevantEnvVarsAreCaseSensitive and Process.RelevantEnv state what follows from it |
| Process.RelevantEnvVarsAreCaseSensitive | src/process.rs:285-297 | the whitelist matches exactly: a lowercased spelling of a listed key is not relevant |
| Process.WindowInfoForProcess | src/process.rs:267-283 | it never succeeds; DISPLAY is checked before WAYLAND_DISPLAY, and with neither there is no display |
| Process.EnvOfLookup | src/process.rs:244-246 | a key is in the environment iff some pair names it, and its value is that of the last such pair |
| Process.CollectEnv | src/process.rs:243-247 | the inserting loop builds exactly that environment |
| Process.GetDetailedProcessInfo | src/process.rs:229-265 | the record's fields, the working directory when readable, the environment (empty when `/proc` fails), and never a window |
| Process.RelevantEnv | src/process.rs:206-217 | the printing loop shows exactly the whitelisted keys of the environment, each value truncated to the width its key leaves |
| Process.ShowProcessInfo | src/process.rs:143-219 | "Process not found" exactly when resolution fails; otherwise every value truncated to the width after its label, and only whitelisted environment variables, each truncated to the width its key leaves |

## Left out

- External programs are inputs, not calls. `xdotool`, `xprop`, `wmctrl` and `tool-goto-window` appear as the text
  they printed, with None for a failed run. `sysinfo` appears as the process table, and `/proc` as maps from pid to
  working directory and environment.
- Printing is left out. The `println!` output and the `tabled` rendering are not modelled. The model keeps the
  values that would be printed, after truncation, including the switcher's stderr when it fails.
- Floating point is replaced by integers:
  - memory is bytes, and the shown value is hundredths of a MiB, rounded half up;
  - CPU usage is an integer;
  - the panic of `partial_cmp(..).unwrap()` on NaN is not modelled.
- HashMap order is a free choice. Iteration order over `sysinfo`'s processes and over the environment map is the
  order of the input sequences. Process.RelevantEnv visits the keys in an unspecified order, and the view
  holds the printed variables as a map, so the order in which `info` prints them is not modelled.
- Window.FindX11WindowByPid and Snapshot.Children use one snapshot. `get_process_children` in the source takes a new
  system snapshot on every window line, and `find_window_by_process_name` takes another one. The model reads the
  same table each time. In the same way every tool query is assumed to print the same output each time it is asked:
  `find_x11_window_by_pid` runs `xdotool getwindowpid` twice for a line, and the model reads one answer per id.
- Strings are ASCII `seq<char>`. Unicode whitespace, Unicode lowercasing and byte-versus-char lengths are not
  modelled. Neither is the panic when a byte slice cuts a multi-byte character.
- Pids are natural numbers. Identifiers parse as u32, as the source does, but pids stored in the table are not
  bounded.
- `src/main.rs` is not part of this model. It only parses arguments and dispatches to the functions above.
- Process.DetailValue: the bound is max(width, 3), not width. A value longer than a width below 3 is shown as "...",
  which is wider than the width. The source does the same.
- Process.ColumnWidthsFor: states the widths chosen, not how `tabled` truncates the cells to them.
