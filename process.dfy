/**
 * The process half of the tool: the `list` pipeline (filter, sort, top N),
 * the width rules of its table, and the `info` command's gathering and
 * truncation of one process's details. The process table, the working
 * directories and the environments read from `/proc` are passed in as values;
 * memory and CPU are integers standing in for the source's floating point.
 */
module Process {
  import opened Wrappers
  import opened Text
  import opened Snapshot

  const MIB: nat := 1024 * 1024
  /** `memory_mb < 100.0` on the unrounded value is `memory < 100 MiB` in bytes. */
  const HIGH_MEMORY_BYTES: nat := 100 * MIB
  const NOT_AVAILABLE: string := "N/A"
  const ELLIPSIS: string := "..."

  function Min(a: nat, b: nat): nat { if a <= b then a else b }
  function Max(a: nat, b: nat): nat { if a >= b then a else b }

  /** `usize::saturating_sub`. */
  function SaturatingSub(a: nat, b: nat): (r: nat)
    ensures a >= b ==> r + b == a
    ensures a < b ==> r == 0
  {
    if a >= b then a - b else 0
  }

  /** Memory in hundredths of a MiB, rounded half up: the integer stand-in for `(mb * 100.0).round() / 100.0`. */
  function MemoryCentis(bytes: nat): nat {
    (bytes * 100 + MIB / 2) / MIB
  }

  /**
   * The shown value is the nearest hundredth of a MiB: `bytes / MiB` lies within
   * half a hundredth of `MemoryCentis(bytes) / 100`, halves rounding up.
   */
  lemma MemoryCentisRounds(bytes: nat)
    ensures MemoryCentis(bytes) * 1048576 <= bytes * 100 + 524288 < (MemoryCentis(bytes) + 1) * 1048576
  {
  }

  // ---------------------------------------------------------------- one row of the list

  /** A row of the process table. `memory` is in hundredths of a MiB. */
  datatype ProcessRow = ProcessRow(pid: nat, name: string, memory: nat, cpu: int, workingDir: string, command: string)

  /** The options of `list`. */
  datatype ListOptions = ListOptions(
    nameFilter: Option<string>,
    highMemory: bool,
    sortMemory: bool,
    topMemory: Option<nat>,
    topCpu: Option<nat>)

  /**
   * The command column: longer than 50 characters becomes its first 47 and
   * "...", so it is never longer than 50; anything shorter is kept as it is.
   */
  function TruncateCommand(c: string): (r: string)
    ensures |r| <= 50
    ensures |c| <= 50 ==> r == c
    ensures |c| > 50 ==> |r| == 50 && r[..47] == c[..47] && r[47..] == ELLIPSIS
  {
    if |c| > 50 then c[..47] + ELLIPSIS else c
  }

  /** The command column shows the first argument, or "N/A" without one. */
  function CommandColumn(cmd: seq<string>): (r: string)
    ensures |r| <= 50
    ensures cmd == [] ==> r == NOT_AVAILABLE
    ensures cmd != [] ==> r == TruncateCommand(cmd[0])
  {
    if |cmd| == 0 then NOT_AVAILABLE else TruncateCommand(cmd[0])
  }

  /** Truncating twice is truncating once: a shown command is never shortened again. */
  lemma TruncateCommandIdempotent(c: string)
    ensures TruncateCommand(TruncateCommand(c)) == TruncateCommand(c)
  {
  }

  predicate PassesFilters(p: ProcessRecord, o: ListOptions) {
    && (o.nameFilter.Some? ==> Contains(Lower(p.name), Lower(o.nameFilter.value)))
    && (o.highMemory ==> p.memory >= HIGH_MEMORY_BYTES)
  }

  /** The row `list_processes` pushes for a process; `cwd` holds the `/proc/<pid>/cwd` links that could be read. */
  function Row(p: ProcessRecord, cwd: map<nat, string>): ProcessRow {
    ProcessRow(p.pid, p.name, MemoryCentis(p.memory), p.cpu,
               if p.pid in cwd then cwd[p.pid] else NOT_AVAILABLE,
               CommandColumn(p.cmd))
  }

  /**
   * What one process contributes to the first loop of `list_processes`: the
   * specification of the loop body, which the method RowFor executes step by step.
   */
  function EntryFor(p: ProcessRecord, cwd: map<nat, string>, o: ListOptions): seq<ProcessRow> {
    if PassesFilters(p, o) then [Row(p, cwd)] else []
  }

  /** The rows collected by the first loop of `list_processes`, in table order. */
  function Collect(t: ProcessTable, cwd: map<nat, string>, o: ListOptions): seq<ProcessRow>
    decreases |t|
  {
    if |t| == 0 then [] else EntryFor(t[0], cwd, o) + Collect(t[1..], cwd, o)
  }

  /**
   * Collecting keeps exactly the processes that pass the filters: a row is
   * collected iff some process passing them produces it.
   */
  lemma {:induction false} CollectIsFiltered(t: ProcessTable, cwd: map<nat, string>, o: ListOptions, r: ProcessRow)
    ensures r in Collect(t, cwd, o) <==> exists i :: 0 <= i < |t| && PassesFilters(t[i], o) && r == Row(t[i], cwd)
    decreases |t|
  {
    if |t| > 0 {
      CollectIsFiltered(t[1..], cwd, o, r);
      assert forall i :: 0 < i < |t| ==> t[i] == t[1..][i - 1];
      if exists i :: 0 <= i < |t| && PassesFilters(t[i], o) && r == Row(t[i], cwd) {
        var i :| 0 <= i < |t| && PassesFilters(t[i], o) && r == Row(t[i], cwd);
        if i > 0 {
          assert 0 <= i - 1 < |t[1..]| && PassesFilters(t[1..][i - 1], o) && r == Row(t[1..][i - 1], cwd);
        }
      }
    }
  }

  // ---------------------------------------------------------------- sorting

  datatype SortKey = ByMemory | ByCpu

  function KeyOf(r: ProcessRow, k: SortKey): int {
    match k
    case ByMemory => r.memory
    case ByCpu => r.cpu
  }

  predicate SortedDesc(s: seq<ProcessRow>, k: SortKey) {
    forall i, j :: 0 <= i < j < |s| ==> KeyOf(s[i], k) >= KeyOf(s[j], k)
  }

  /** The rows of `s` whose key is `v`, in their order in `s`. */
  function WithKey(s: seq<ProcessRow>, k: SortKey, v: int): seq<ProcessRow> {
    if |s| == 0 then [] else (if KeyOf(s[0], k) == v then [s[0]] else []) + WithKey(s[1..], k, v)
  }

  /** Puts `x` before the first row whose key is not larger than its own. */
  function Insert(x: ProcessRow, s: seq<ProcessRow>, k: SortKey): seq<ProcessRow> {
    if |s| == 0 then [x]
    else if KeyOf(s[0], k) <= KeyOf(x, k) then [x] + s
    else [s[0]] + Insert(x, s[1..], k)
  }

  /**
   * `sort_by` with a descending comparator: a stable sort, modelled as an
   * insertion sort so that its three properties below can be proved.
   */
  function SortDesc(s: seq<ProcessRow>, k: SortKey): seq<ProcessRow> {
    if |s| == 0 then [] else Insert(s[0], SortDesc(s[1..], k), k)
  }

  lemma {:induction false} InsertPermutes(x: ProcessRow, s: seq<ProcessRow>, k: SortKey)
    ensures multiset(Insert(x, s, k)) == multiset(s) + multiset{x}
    ensures |Insert(x, s, k)| == |s| + 1
    decreases |s|
  {
    if |s| > 0 && KeyOf(s[0], k) > KeyOf(x, k) {
      InsertPermutes(x, s[1..], k);
      assert s == [s[0]] + s[1..];
    }
  }

  /** A row whose key is at least every key of a sorted sequence can go in front of it. */
  lemma ConsKeepsSorted(h: ProcessRow, rest: seq<ProcessRow>, k: SortKey)
    requires SortedDesc(rest, k)
    requires forall y :: y in rest ==> KeyOf(y, k) <= KeyOf(h, k)
    ensures SortedDesc([h] + rest, k)
  {
    var r := [h] + rest;
    forall i, j | 0 <= i < j < |r| ensures KeyOf(r[i], k) >= KeyOf(r[j], k) {
      assert r[j] == rest[j - 1];
      if i > 0 {
        assert r[i] == rest[i - 1];
      } else {
        assert rest[j - 1] in rest;
      }
    }
  }

  lemma {:induction false} InsertKeepsSorted(x: ProcessRow, s: seq<ProcessRow>, k: SortKey)
    requires SortedDesc(s, k)
    ensures SortedDesc(Insert(x, s, k), k)
    decreases |s|
  {
    if |s| > 0 && KeyOf(s[0], k) > KeyOf(x, k) {
      var rest := Insert(x, s[1..], k);
      assert SortedDesc(s[1..], k) by {
        forall i, j | 0 <= i < j < |s[1..]| ensures KeyOf(s[1..][i], k) >= KeyOf(s[1..][j], k) {
          assert s[1..][i] == s[i + 1] && s[1..][j] == s[j + 1];
        }
      }
      InsertKeepsSorted(x, s[1..], k);
      InsertPermutes(x, s[1..], k);
      forall y | y in rest ensures KeyOf(y, k) <= KeyOf(s[0], k) {
        assert y in multiset(rest);
        if y != x {
          assert y in multiset(s[1..]);
          var j :| 0 <= j < |s[1..]| && s[1..][j] == y;
          assert s[j + 1] == y;
        }
      }
      ConsKeepsSorted(s[0], rest, k);
    } else if |s| > 0 {
      forall y | y in s ensures KeyOf(y, k) <= KeyOf(x, k) {
        var j :| 0 <= j < |s| && s[j] == y;
        if j > 0 {
          assert KeyOf(s[0], k) >= KeyOf(s[j], k);
        }
      }
      ConsKeepsSorted(x, s, k);
    }
  }

  lemma {:induction false} SortDescSorted(s: seq<ProcessRow>, k: SortKey)
    ensures SortedDesc(SortDesc(s, k), k)
    decreases |s|
  {
    if |s| > 0 {
      SortDescSorted(s[1..], k);
      InsertKeepsSorted(s[0], SortDesc(s[1..], k), k);
    }
  }

  lemma {:induction false} SortDescPermutes(s: seq<ProcessRow>, k: SortKey)
    ensures multiset(SortDesc(s, k)) == multiset(s)
    ensures |SortDesc(s, k)| == |s|
    decreases |s|
  {
    if |s| > 0 {
      SortDescPermutes(s[1..], k);
      InsertPermutes(s[0], SortDesc(s[1..], k), k);
      assert s == [s[0]] + s[1..];
    }
  }

  /** The result of SortDesc is ordered by the key, largest first, and has the same rows. */
  lemma SortDescIsSortedPermutation(s: seq<ProcessRow>, k: SortKey)
    ensures SortedDesc(SortDesc(s, k), k)
    ensures multiset(SortDesc(s, k)) == multiset(s)
    ensures |SortDesc(s, k)| == |s|
  {
    SortDescSorted(s, k);
    SortDescPermutes(s, k);
  }

  lemma {:induction false} InsertWithKey(x: ProcessRow, s: seq<ProcessRow>, k: SortKey, v: int)
    ensures WithKey(Insert(x, s, k), k, v) == (if KeyOf(x, k) == v then [x] else []) + WithKey(s, k, v)
    decreases |s|
  {
    if |s| > 0 && KeyOf(s[0], k) > KeyOf(x, k) {
      InsertWithKey(x, s[1..], k, v);
      var r := [s[0]] + Insert(x, s[1..], k);
      assert r[1..] == Insert(x, s[1..], k);
    } else if |s| > 0 {
      assert ([x] + s)[1..] == s;
    }
  }

  /**
   * The sort is stable: for every key value, the rows with that value keep
   * their relative order.
   */
  lemma {:induction false} SortDescIsStable(s: seq<ProcessRow>, k: SortKey, v: int)
    ensures WithKey(SortDesc(s, k), k, v) == WithKey(s, k, v)
    decreases |s|
  {
    if |s| > 0 {
      SortDescIsStable(s[1..], k, v);
      InsertWithKey(s[0], SortDesc(s[1..], k), k, v);
    }
  }

  /** `Vec::truncate`. */
  function Take(s: seq<ProcessRow>, n: nat): seq<ProcessRow> {
    s[..Min(n, |s|)]
  }

  /** What `Vec::truncate` removes. */
  function Drop(s: seq<ProcessRow>, n: nat): seq<ProcessRow> {
    s[Min(n, |s|)..]
  }

  /**
   * The ordering step of `list_processes`: `top_memory` first, else
   * `top_cpu`, else `sort_memory`, else the collected order.
   */
  function Arrange(rows: seq<ProcessRow>, o: ListOptions): seq<ProcessRow> {
    match o.topMemory
    case Some(n) => Take(SortDesc(rows, ByMemory), n)
    case None =>
      match o.topCpu
      case Some(n) => Take(SortDesc(rows, ByCpu), n)
      case None => if o.sortMemory then SortDesc(rows, ByMemory) else rows
  }

  /** The key that orders the result of Arrange, if any. */
  function OrderKey(o: ListOptions): Option<SortKey> {
    if o.topMemory.Some? then Some(ByMemory)
    else if o.topCpu.Some? then Some(ByCpu)
    else if o.sortMemory then Some(ByMemory)
    else None
  }

  function TopN(o: ListOptions): Option<nat> {
    if o.topMemory.Some? then o.topMemory else o.topCpu
  }

  /**
   * The arranged rows are sorted by the chosen key, largest first; with top N
   * there are min(N, count) of them, otherwise all of them; without any
   * ordering option they are the collected rows unchanged.
   */
  lemma ArrangeOrders(rows: seq<ProcessRow>, o: ListOptions)
    ensures OrderKey(o).Some? ==> SortedDesc(Arrange(rows, o), OrderKey(o).value)
    ensures OrderKey(o).None? ==> Arrange(rows, o) == rows
    ensures |Arrange(rows, o)| == if TopN(o).Some? then Min(TopN(o).value, |rows|) else |rows|
    ensures TopN(o).None? ==> multiset(Arrange(rows, o)) == multiset(rows)
    ensures multiset(Arrange(rows, o)) <= multiset(rows)
  {
    match o.topMemory
    case Some(n) => SortedTake(rows, ByMemory, n);
    case None =>
      match o.topCpu
      case Some(n) => SortedTake(rows, ByCpu, n);
      case None =>
        if o.sortMemory {
          SortDescIsSortedPermutation(rows, ByMemory);
        }
  }

  /** Cutting the sorted rows to N keeps them sorted and keeps min(N, count) of the rows. */
  lemma SortedTake(rows: seq<ProcessRow>, k: SortKey, n: nat)
    ensures SortedDesc(Take(SortDesc(rows, k), n), k)
    ensures |Take(SortDesc(rows, k), n)| == Min(n, |rows|)
    ensures multiset(Take(SortDesc(rows, k), n)) <= multiset(rows)
  {
    SortDescIsSortedPermutation(rows, k);
    TakePrefix(SortDesc(rows, k), k, n);
  }

  lemma TakePrefix(s: seq<ProcessRow>, k: SortKey, n: nat)
    requires SortedDesc(s, k)
    ensures SortedDesc(Take(s, n), k)
    ensures |Take(s, n)| == Min(n, |s|)
    ensures multiset(Take(s, n)) <= multiset(s)
  {
    assert s == Take(s, n) + Drop(s, n);
  }

  /**
   * Top N keeps the N largest: every kept row's key is at least every dropped
   * row's key, and kept and dropped rows together are the collected rows.
   */
  lemma TopKeepsLargest(rows: seq<ProcessRow>, k: SortKey, n: nat)
    ensures multiset(Take(SortDesc(rows, k), n)) + multiset(Drop(SortDesc(rows, k), n)) == multiset(rows)
    ensures forall a, d :: a in Take(SortDesc(rows, k), n) && d in Drop(SortDesc(rows, k), n) ==> KeyOf(a, k) >= KeyOf(d, k)
  {
    SortDescIsSortedPermutation(rows, k);
    SortedSplit(SortDesc(rows, k), k, n);
  }

  lemma SortedSplit(s: seq<ProcessRow>, k: SortKey, n: nat)
    requires SortedDesc(s, k)
    ensures multiset(Take(s, n)) + multiset(Drop(s, n)) == multiset(s)
    ensures forall a, d :: a in Take(s, n) && d in Drop(s, n) ==> KeyOf(a, k) >= KeyOf(d, k)
  {
    var m := Min(n, |s|);
    assert s == Take(s, n) + Drop(s, n);
    forall a, d | a in Take(s, n) && d in Drop(s, n) ensures KeyOf(a, k) >= KeyOf(d, k) {
      var i :| 0 <= i < m && Take(s, n)[i] == a;
      var j :| 0 <= j < |s| - m && Drop(s, n)[j] == d;
      assert s[i] == a && s[m + j] == d;
    }
  }

  /**
   * Every listed row comes from a process that passes the filters: with a name
   * filter its lowercased name contains the lowercased filter, and with
   * `high_memory` it uses at least 100 MiB.
   */
  lemma ListedRowsPassFilters(t: ProcessTable, cwd: map<nat, string>, o: ListOptions, r: ProcessRow)
    requires r in Arrange(Collect(t, cwd, o), o)
    ensures exists i :: 0 <= i < |t| && r == Row(t[i], cwd)
                        && (o.nameFilter.Some? ==> Contains(Lower(t[i].name), Lower(o.nameFilter.value)))
                        && (o.highMemory ==> t[i].memory >= HIGH_MEMORY_BYTES)
  {
    ArrangeOrders(Collect(t, cwd, o), o);
    assert r in multiset(Arrange(Collect(t, cwd, o), o));
    CollectIsFiltered(t, cwd, o, r);
  }

  // ---------------------------------------------------------------- column widths

  /** The width constraints applied to the table: none, the flexible split, or the narrow fallback. */
  datatype ColumnWidths =
    | Unconstrained
    | Flexible(workingDir: nat, command: nat)
    | Narrow(name: nat, workingDir: nat, command: nat)

  /** The table's borders and padding. */
  const TABLE_CHROME: nat := 20
  /** PID 8, Name 15, Memory 12, CPU 8. */
  const FIXED_COLUMNS: nat := 8 + 15 + 12 + 8

  /**
   * The width rule of `list_processes` for a terminal `terminal` columns wide
   * (None when the size is unknown). Past the 63 columns of chrome and fixed
   * columns, the remainder is split: the working directory gets half of it
   * rounded down, at most 40, and the command gets the rest, so never less.
   */
  function ColumnWidthsFor(terminal: Option<nat>): (r: ColumnWidths)
    ensures terminal.None? <==> r.Unconstrained?
    ensures r.Flexible? <==> terminal.Some? && terminal.value > TABLE_CHROME + FIXED_COLUMNS
    ensures r.Flexible? ==> && r.workingDir == Min((terminal.value - (TABLE_CHROME + FIXED_COLUMNS)) / 2, 40)
                            && r.workingDir <= 40
                            && r.workingDir <= r.command
                            && r.workingDir + r.command == terminal.value - (TABLE_CHROME + FIXED_COLUMNS)
    ensures r.Narrow? ==> r == Narrow(10, 15, 20)
  {
    match terminal
    case None => Unconstrained
    case Some(width) =>
      var content := SaturatingSub(width, TABLE_CHROME);
      var remaining := SaturatingSub(content, FIXED_COLUMNS);
      if remaining > 0 then
        var wd := Min(remaining / 2, 40);
        Flexible(wd, SaturatingSub(remaining, wd))
      else
        Narrow(10, 15, 20)
  }

  /** One step of the first loop of `list_processes`: appending the entry of process `i` keeps the suffix invariant. */
  lemma CollectStep(t: ProcessTable, cwd: map<nat, string>, o: ListOptions, i: nat, before: seq<ProcessRow>)
    requires i < |t| && before + Collect(t[i..], cwd, o) == Collect(t, cwd, o)
    ensures (before + EntryFor(t[i], cwd, o)) + Collect(t[i + 1..], cwd, o) == Collect(t, cwd, o)
  {
    assert t[i..][1..] == t[i + 1..];
    ConcatAssociative(before, EntryFor(t[i], cwd, o), Collect(t[i + 1..], cwd, o));
  }

  /**
   * The body of the first loop of `list_processes`: the two `continue`s (the
   * name filter, then the high-memory threshold), and otherwise the row pushed.
   */
  method RowFor(p: ProcessRecord, cwd: map<nat, string>, o: ListOptions) returns (entry: seq<ProcessRow>)
    ensures entry == EntryFor(p, cwd, o)
  {
    if o.nameFilter.Some? && !Contains(Lower(p.name), Lower(o.nameFilter.value)) {
      return [];
    }
    if o.highMemory && p.memory < HIGH_MEMORY_BYTES {
      return [];
    }
    var workingDir := if p.pid in cwd then cwd[p.pid] else NOT_AVAILABLE;
    var command := CommandColumn(p.cmd);
    entry := [ProcessRow(p.pid, p.name, MemoryCentis(p.memory), p.cpu, workingDir, command)];
  }

  /** The first loop of `list_processes`: one row per process that passes the filters, in table order. */
  method CollectRows(t: ProcessTable, cwd: map<nat, string>, o: ListOptions) returns (processes: seq<ProcessRow>)
    ensures processes == Collect(t, cwd, o)
  {
    processes := [];
    var i := 0;
    assert t[i..] == t;
    while i < |t|
      invariant i <= |t|
      invariant processes + Collect(t[i..], cwd, o) == Collect(t, cwd, o)
    {
      CollectStep(t, cwd, o, i, processes);
      var entry := RowFor(t[i], cwd, o);
      processes := processes + entry;
      i := i + 1;
    }
    assert t[i..] == [] && processes + [] == processes;
  }

  /**
   * `list_processes`: collect the rows that pass the filters, order and cut
   * them as the options say, and choose the column widths for the terminal.
   */
  method ListProcesses(t: ProcessTable, cwd: map<nat, string>, o: ListOptions, terminal: Option<nat>)
    returns (processes: seq<ProcessRow>, widths: ColumnWidths)
    ensures processes == Arrange(Collect(t, cwd, o), o)
    ensures widths == ColumnWidthsFor(terminal)
  {
    processes := CollectRows(t, cwd, o);
    ghost var collected := processes;
    if o.topMemory.Some? {
      processes := SortDesc(processes, ByMemory);
      if o.topMemory.value < |processes| {
        processes := processes[..o.topMemory.value];
      }
      assert processes == Take(SortDesc(collected, ByMemory), o.topMemory.value);
    } else if o.topCpu.Some? {
      processes := SortDesc(processes, ByCpu);
      if o.topCpu.value < |processes| {
        processes := processes[..o.topCpu.value];
      }
      assert processes == Take(SortDesc(collected, ByCpu), o.topCpu.value);
    } else if o.sortMemory {
      processes := SortDesc(processes, ByMemory);
    }
    widths := ColumnWidthsFor(terminal);
  }

  // ---------------------------------------------------------------- info: truncation rules

  /**
   * How `show_process_info` prints a value into `maxWidth` columns: a longer
   * value becomes its first `maxWidth - 3` characters (saturating) and "...".
   * The shown value is never longer than `max(maxWidth, 3)`.
   */
  function DetailValue(v: string, maxWidth: nat): (r: string)
    ensures |v| <= maxWidth ==> r == v
    ensures |v| > maxWidth ==> && |r| == Max(maxWidth, 3)
                               && r[..|r| - 3] == v[..|r| - 3]
                               && r[|r| - 3..] == ELLIPSIS
    ensures |r| <= Max(maxWidth, 3)
  {
    if |v| > maxWidth then v[..SaturatingSub(maxWidth, 3)] + ELLIPSIS else v
  }

  /** The terminal width, 80 when unknown. */
  function TerminalWidth(terminal: Option<nat>): nat {
    terminal.GetOr(80)
  }

  /** The width left for a detail value after its 25-column label. */
  function MaxValueWidth(terminal: Option<nat>): (r: nat)
    ensures terminal.None? ==> r == 55
    ensures r == if TerminalWidth(terminal) >= 25 then TerminalWidth(terminal) - 25 else 0
  {
    SaturatingSub(TerminalWidth(terminal), 25)
  }

  /** The width left for an environment value after "  KEY: ". */
  function EnvValueWidth(terminalWidth: nat, key: string): nat {
    SaturatingSub(terminalWidth, |key| + 5)
  }

  // ---------------------------------------------------------------- info: environment and display

  const RELEVANT_ENV_VARS: set<string> := {
    "DISPLAY", "WAYLAND_DISPLAY", "PWD", "TERM", "TERM_PROGRAM",
    "VSCODE_PID", "VSCODE_IPC_HOOK_CLI", "WINDOWID", "XTERM_VERSION"
  }

  /** `is_relevant_env_var`: membership in the nine-key whitelist. */
  predicate IsRelevantEnvVar(key: string) {
    key in RELEVANT_ENV_VARS
  }

  /** The whitelist is matched exactly: no lowercased spelling of a listed key is relevant. */
  lemma RelevantEnvVarsAreCaseSensitive(key: string)
    ensures IsRelevantEnvVar(key) ==> !IsRelevantEnvVar(Lower(key))
  {
    assert forall m :: m in RELEVANT_ENV_VARS ==> |m| > 0 && 'A' <= m[0] <= 'Z';
    assert IsLower(Lower(key));
  }

  datatype DisplayError =
    | WindowDetectionNotImplemented  // "Window detection not implemented yet"
    | WaylandDetectionNotImplemented // "Wayland window detection not implemented yet"
    | NoDisplayEnvironment           // "No display environment detected"

  /**
   * `get_window_info_for_process`: it never succeeds. DISPLAY is checked
   * first, then WAYLAND_DISPLAY; with neither there is no display.
   */
  function WindowInfoForProcess(pid: nat, env: map<string, string>): (r: Result<(string, string), DisplayError>)
    ensures r.Err?
    ensures "DISPLAY" in env ==> r.error == WindowDetectionNotImplemented
    ensures "DISPLAY" !in env && "WAYLAND_DISPLAY" in env ==> r.error == WaylandDetectionNotImplemented
    ensures "DISPLAY" !in env && "WAYLAND_DISPLAY" !in env ==> r.error == NoDisplayEnvironment
  {
    if "DISPLAY" in env then Err(WindowDetectionNotImplemented)
    else if "WAYLAND_DISPLAY" in env then Err(WaylandDetectionNotImplemented)
    else Err(NoDisplayEnvironment)
  }

  /** `Result::ok`. */
  function ResultToOption<T, E>(r: Result<T, E>): (o: Option<T>)
    ensures o.Some? <==> r.Ok?
  {
    match r
    case Ok(v) => Some(v)
    case Err(_) => None
  }

  /** `Option::map`. */
  function MapOption<T, U>(o: Option<T>, f: T -> U): (r: Option<U>)
    ensures r.Some? <==> o.Some?
  {
    match o
    case Some(v) => Some(f(v))
    case None => None
  }

  /** The environment map after inserting the pairs in order: a later pair for a key replaces an earlier one. */
  function EnvOf(pairs: seq<(string, string)>): map<string, string>
    decreases |pairs|
  {
    if |pairs| == 0 then map[]
    else EnvOf(pairs[..|pairs| - 1])[pairs[|pairs| - 1].0 := pairs[|pairs| - 1].1]
  }

  /** A key is in the environment iff some pair names it. */
  lemma {:induction false} EnvOfHas(pairs: seq<(string, string)>, key: string)
    ensures key in EnvOf(pairs) <==> exists i :: 0 <= i < |pairs| && pairs[i].0 == key
    decreases |pairs|
  {
    if |pairs| > 0 {
      var n := |pairs| - 1;
      var init := pairs[..n];
      EnvOfHas(init, key);
      if pairs[n].0 != key {
        if exists i :: 0 <= i < |pairs| && pairs[i].0 == key {
          var i :| 0 <= i < |pairs| && pairs[i].0 == key;
          assert i < n && init[i] == pairs[i];
        }
        if key in EnvOf(init) {
          var i :| 0 <= i < n && init[i].0 == key;
          assert pairs[i] == init[i];
        }
      }
    }
  }

  /** The value of a key is the value of the last pair that names it. */
  lemma {:induction false} EnvOfLast(pairs: seq<(string, string)>, key: string)
    requires key in EnvOf(pairs)
    ensures exists i :: && 0 <= i < |pairs| && pairs[i].0 == key && EnvOf(pairs)[key] == pairs[i].1
                        && forall j :: i < j < |pairs| ==> pairs[j].0 != key
    decreases |pairs|
  {
    assert |pairs| > 0;
    var n := |pairs| - 1;
    if pairs[n].0 == key {
      assert EnvOf(pairs)[key] == pairs[n].1;
    } else {
      var init := pairs[..n];
      assert EnvOf(pairs)[key] == EnvOf(init)[key];
      EnvOfLast(init, key);
      var i :| && 0 <= i < n && init[i].0 == key && EnvOf(init)[key] == init[i].1
               && forall j :: i < j < n ==> init[j].0 != key;
      assert pairs[i] == init[i];
      forall j | i < j < |pairs| ensures pairs[j].0 != key {
        if j < n {
          assert pairs[j] == init[j];
        }
      }
    }
  }

  /**
   * A key is in the environment iff some pair names it, and its value is the
   * value of the last pair that names it.
   */
  lemma EnvOfLookup(pairs: seq<(string, string)>, key: string)
    ensures key in EnvOf(pairs) <==> exists i :: 0 <= i < |pairs| && pairs[i].0 == key
    ensures key in EnvOf(pairs) ==>
              exists i :: && 0 <= i < |pairs| && pairs[i].0 == key && EnvOf(pairs)[key] == pairs[i].1
                          && forall j :: i < j < |pairs| ==> pairs[j].0 != key
  {
    EnvOfHas(pairs, key);
    if key in EnvOf(pairs) {
      EnvOfLast(pairs, key);
    }
  }

  /** The loop of `get_detailed_process_info` that inserts each pair of the environment into a map. */
  method CollectEnv(pairs: seq<(string, string)>) returns (env: map<string, string>)
    ensures env == EnvOf(pairs)
  {
    env := map[];
    var i := 0;
    while i < |pairs|
      invariant i <= |pairs|
      invariant env == EnvOf(pairs[..i])
    {
      assert pairs[..i + 1][..i] == pairs[..i];
      env := env[pairs[i].0 := pairs[i].1];
      i := i + 1;
    }
    assert pairs[..i] == pairs;
  }

  /**
   * What `/proc` gives for each pid: the working-directory link when it could be
   * read, and, when `Process::new` succeeds, the environment pairs in order
   * (None when `environ()` fails).
   */
  datatype HostView = HostView(cwd: map<nat, string>, procfs: map<nat, Option<seq<(string, string)>>>)

  /** The environment `get_detailed_process_info` ends up with: empty when either call fails. */
  function EnvFor(host: HostView, pid: nat): map<string, string> {
    if pid in host.procfs && host.procfs[pid].Some? then EnvOf(host.procfs[pid].value) else map[]
  }

  datatype DetailedProcessInfo = DetailedProcessInfo(
    pid: nat,
    name: string,
    memory: nat,
    cpu: int,
    workingDir: Option<string>,
    command: seq<string>,
    env: map<string, string>,
    parentPid: Option<nat>,
    windowId: Option<string>,
    windowTitle: Option<string>)

  /**
   * `get_detailed_process_info`: the record's fields, the working directory if
   * readable, the environment, and no window, since the display check never
   * yields one.
   */
  method GetDetailedProcessInfo(pid: nat, p: ProcessRecord, host: HostView) returns (d: DetailedProcessInfo)
    ensures d.pid == pid && d.name == p.name && d.memory == MemoryCentis(p.memory) && d.cpu == p.cpu
    ensures d.workingDir == (if pid in host.cwd then Some(host.cwd[pid]) else None)
    ensures d.command == p.cmd && d.parentPid == p.parent
    ensures d.env == EnvFor(host, pid)
    ensures d.windowId.None? && d.windowTitle.None?
  {
    var workingDir := if pid in host.cwd then Some(host.cwd[pid]) else None;
    var env: map<string, string> := map[];
    var windowInfo: Option<(string, string)> := None;
    if pid in host.procfs {
      var environ := host.procfs[pid];
      if environ.Some? {
        env := CollectEnv(environ.value);
      }
      windowInfo := ResultToOption(WindowInfoForProcess(pid, env));
    }
    d := DetailedProcessInfo(
      pid, p.name, MemoryCentis(p.memory), p.cpu, workingDir, p.cmd, env, p.parent,
      MapOption(windowInfo, (w: (string, string)) => w.0), MapOption(windowInfo, (w: (string, string)) => w.1));
  }

  /**
   * The environment loop of `show_process_info`: it visits the keys in the
   * map's own unspecified order and shows each whitelisted one, truncated to
   * the width its key leaves; every other key is skipped.
   */
  method RelevantEnv(env: map<string, string>, terminalWidth: nat) returns (shown: map<string, string>)
    ensures forall k :: k in shown <==> k in env && IsRelevantEnvVar(k)
    ensures forall k :: k in shown ==> shown[k] == DetailValue(env[k], EnvValueWidth(terminalWidth, k))
  {
    shown := map[];
    var keys := env.Keys;
    while keys != {}
      invariant keys <= env.Keys
      invariant forall k :: k in shown <==> k in env && k !in keys && IsRelevantEnvVar(k)
      invariant forall k :: k in shown ==> shown[k] == DetailValue(env[k], EnvValueWidth(terminalWidth, k))
      decreases keys
    {
      var k :| k in keys;
      if IsRelevantEnvVar(k) {
        shown := shown[k := DetailValue(env[k], EnvValueWidth(terminalWidth, k))];
      }
      keys := keys - {k};
    }
  }

  /** What `show_process_info` prints, value by value, after truncation. */
  datatype ProcessView = ProcessView(
    pid: nat,
    name: string,
    memory: nat,
    cpu: int,
    workingDir: Option<string>,
    parentPid: Option<nat>,
    command: string,
    windowId: Option<string>,
    windowTitle: Option<string>,
    env: map<string, string>)

  datatype InfoError = ProcessNotFound // "Process not found"

  /**
   * `show_process_info`: resolve the identifier, gather the details, and
   * truncate every value to the width left by its label. Only the whitelisted
   * environment variables are shown, each truncated to the width its key leaves.
   */
  method ShowProcessInfo(t: ProcessTable, ident: string, host: HostView, terminal: Option<nat>)
    returns (r: Result<ProcessView, InfoError>)
    ensures r.Err? <==> ResolveProcess(t, ident).None?
    ensures r.Ok? ==>
              var p := ResolveProcess(t, ident).value;
              var w := MaxValueWidth(terminal);
              var v := r.value;
              && v.pid == p.pid && v.name == p.name && v.parentPid == p.parent
              && v.memory == MemoryCentis(p.memory) && v.cpu == p.cpu
              && v.command == DetailValue(Join(p.cmd, " "), w)
              && v.workingDir == (if p.pid in host.cwd then Some(DetailValue(host.cwd[p.pid], w)) else None)
              && v.windowId.None? && v.windowTitle.None?
              && (forall k :: k in v.env <==> IsRelevantEnvVar(k) && k in EnvFor(host, p.pid))
              && (forall k :: k in v.env ==>
                    v.env[k] == DetailValue(EnvFor(host, p.pid)[k], EnvValueWidth(TerminalWidth(terminal), k)))
  {
    var process := ResolveProcess(t, ident);
    if process.None? {
      return Err(ProcessNotFound);
    }
    var p := process.value;
    var d := GetDetailedProcessInfo(p.pid, p, host);
    var terminalWidth := TerminalWidth(terminal);
    var maxValueWidth := SaturatingSub(terminalWidth, 25);
    var shorten := (v: string) => DetailValue(v, maxValueWidth);
    var workingDir := MapOption(d.workingDir, shorten);
    var command := DetailValue(Join(d.command, " "), maxValueWidth);
    var windowId := MapOption(d.windowId, shorten);
    var windowTitle := MapOption(d.windowTitle, shorten);
    var env := RelevantEnv(d.env, terminalWidth);
    return Ok(ProcessView(d.pid, d.name, d.memory, d.cpu, workingDir, d.parentPid, command, windowId, windowTitle, env));
  }
}
