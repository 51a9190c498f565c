/**
 * The window half of the tool: finding the window of a process through the
 * X11 tools (`xdotool`, `xprop`) or, failing that, through `wmctrl`; listing
 * all windows; and choosing the program name handed to the window switcher.
 * Every external tool appears as the text it printed, passed in as a value.
 */
module Window {
  import opened Wrappers
  import opened Text
  import opened Snapshot

  /** A window as the tool reports it. */
  datatype WindowInfo = WindowInfo(windowId: string, title: string, className: string, pid: nat)

  /** The error outcomes of the window commands; comments give the source's messages. */
  datatype WindowError =
    | ProcessNotFound                  // "Process not found"
    | XdotoolSearchFailed              // "xdotool search failed" (or it could not be run)
    | NoWindowForPid(pid: nat)         // "No window found for PID {pid}"
    | WmctrlFailed                     // "wmctrl failed" (or it could not be run)
    | NoWindowForProcess(name: string) // "No window found for process {name}"
    | ActivationLaunchFailed           // "Failed to execute tool-goto-window"

  /**
   * What the X11 tools print. `search` is the list of lines printed by
   * `xdotool search --onlyvisible .`, or None when that call fails. The three
   * maps hold, for each window id on which the call succeeds, the standard
   * output of `xdotool getwindowpid`, `xdotool getwindowname` and
   * `xprop -id <id> WM_CLASS`; an id that is absent is a call that failed.
   */
  datatype X11Tools = X11Tools(
    search: Option<seq<string>>,
    pidOutput: map<string, string>,
    nameOutput: map<string, string>,
    classOutput: map<string, string>)

  const UNKNOWN: string := "Unknown"

  // ---------------------------------------------------------------- per-window queries

  /** `get_window_pid`: the trimmed output parsed as a u32; None when the call or the parse fails. */
  function WindowPid(x: X11Tools, id: string): (r: Option<nat>)
    ensures id !in x.pidOutput ==> r.None?
    ensures id in x.pidOutput ==> r == ParseU32(Trim(x.pidOutput[id]))
    ensures r.Some? ==> r.value < U32_LIMIT
  {
    if id in x.pidOutput then ParseU32(Trim(x.pidOutput[id])) else None
  }

  /** `get_window_title`, with the caller's "Unknown" default when the call fails. */
  function WindowTitle(x: X11Tools, id: string): (r: string)
    ensures id !in x.nameOutput ==> r == UNKNOWN
    ensures id in x.nameOutput ==> r == Trim(x.nameOutput[id])
  {
    if id in x.nameOutput then Trim(x.nameOutput[id]) else UNKNOWN
  }

  /** The text between the first and the second double quote, if there are two. */
  function FirstQuoted(s: string): Option<string> {
    match IndexOf(s, '"')
    case None => None
    case Some(i) =>
      var after := s[i + 1..];
      match IndexOf(after, '"')
      case None => None
      case Some(k) => Some(after[..k])
  }

  /** No field is found exactly when the text holds fewer than two double quotes. */
  lemma FirstQuotedNoneIff(s: string)
    ensures FirstQuoted(s).None? <==> multiset(s)['"'] < 2
  {
    if IndexOf(s, '"').Some? {
      var i := IndexOf(s, '"').value;
      var after := s[i + 1..];
      assert s == s[..i] + [s[i]] + after;
      assert multiset(s)['"'] == 1 + multiset(after)['"'];
    }
  }

  /** The WM_CLASS parsing of `get_window_class`: the first quoted field, or "Unknown". */
  function WmClass(classInfo: string): (r: string)
    ensures '"' !in r
    ensures multiset(classInfo)['"'] < 2 ==> r == UNKNOWN
    ensures FirstQuoted(classInfo).Some? ==> r == FirstQuoted(classInfo).value
  {
    FirstQuotedNoneIff(classInfo);
    match FirstQuoted(classInfo)
    case Some(c) => c
    case None => UNKNOWN
  }

  /** Whatever precedes the first quote, the first quoted field is what is extracted. */
  lemma FirstQuotedField(prefix: string, first: string, rest: string)
    requires '"' !in prefix && '"' !in first
    ensures FirstQuoted(prefix + ['"'] + first + ['"'] + rest) == Some(first)
  {
    var s := prefix + ['"'] + first + ['"'] + rest;
    var i := IndexOf(s, '"').value;
    assert s[|prefix|] == '"';
    var after := s[i + 1..];
    assert after == first + ['"'] + rest;
    var k := IndexOf(after, '"').value;
    assert after[|first|] == '"';
    assert after[..k] == first;
  }

  /**
   * On the usual `WM_CLASS(STRING) = "instance", "class"` line the instance
   * (the first field) is extracted, not the class.
   */
  lemma WmClassTakesInstance(instance: string, cls: string)
    requires '"' !in instance
    ensures WmClass("WM_CLASS(STRING) = " + ['"'] + instance + ['"'] + (", \"" + cls + "\"")) == instance
  {
    assert '"' !in "WM_CLASS(STRING) = ";
    FirstQuotedField("WM_CLASS(STRING) = ", instance, ", \"" + cls + "\"");
  }

  /** `get_window_class`, with the caller's "Unknown" default when the call fails. */
  function WindowClass(x: X11Tools, id: string): (r: string)
    ensures id !in x.classOutput ==> r == UNKNOWN
    ensures id in x.classOutput ==> r == WmClass(x.classOutput[id])
    ensures '"' !in r
  {
    if id in x.classOutput then WmClass(x.classOutput[id]) else UNKNOWN
  }

  // ---------------------------------------------------------------- find_x11_window_by_pid

  /**
   * What one line of the search output yields in `find_x11_window_by_pid`:
   * nothing for a blank line or a failed pid query; otherwise the window when
   * its pid is the target (recorded with the target pid) or one of the
   * target's direct children (recorded with the window's pid).
   */
  function X11Hit(x: X11Tools, line: string, target: nat, kids: seq<nat>): Option<WindowInfo> {
    var id := Trim(line);
    if id == "" then None
    else match WindowPid(x, id)
      case None => None
      case Some(p) =>
        if p == target then Some(WindowInfo(id, WindowTitle(x, id), WindowClass(x, id), target))
        else if p in kids then Some(WindowInfo(id, WindowTitle(x, id), WindowClass(x, id), p))
        else None
  }

  /** The single pass over the search output: the first line with a hit. */
  function MatchLines(x: X11Tools, lines: seq<string>, target: nat, kids: seq<nat>): Result<WindowInfo, WindowError>
    decreases |lines|
  {
    if |lines| == 0 then Err(NoWindowForPid(target))
    else match X11Hit(x, lines[0], target, kids)
      case Some(w) => Ok(w)
      case None => MatchLines(x, lines[1..], target, kids)
  }

  function X11Match(x: X11Tools, t: ProcessTable, target: nat): Result<WindowInfo, WindowError> {
    match x.search
    case None => Err(XdotoolSearchFailed)
    case Some(lines) => MatchLines(x, lines, target, Children(t, target))
  }

  /**
   * A line has a hit exactly when its trimmed id is non-empty, its pid query
   * succeeds and the pid is the target or a direct child; the window found
   * then carries that pid (the target's on an exact hit, the child's
   * otherwise), the trimmed id, and the title and class queries' results.
   */
  lemma X11HitMeaning(x: X11Tools, line: string, target: nat, kids: seq<nat>)
    ensures var r := X11Hit(x, line, target, kids);
            var id := Trim(line);
            && (r.Some? <==> id != "" && WindowPid(x, id).Some?
                             && (WindowPid(x, id).value == target || WindowPid(x, id).value in kids))
            && (r.Some? ==> r.value == WindowInfo(id, WindowTitle(x, id), WindowClass(x, id), WindowPid(x, id).value))
  {
    X11HitSome(x, line, target, kids);
    if X11Hit(x, line, target, kids).Some? {
      X11HitValue(x, line, target, kids);
    }
  }

  lemma X11HitSome(x: X11Tools, line: string, target: nat, kids: seq<nat>)
    ensures var id := Trim(line);
            (X11Hit(x, line, target, kids).Some? <==>
               id != "" && WindowPid(x, id).Some? && (WindowPid(x, id).value == target || WindowPid(x, id).value in kids))
  {
    var id := Trim(line);
    if id != "" {
      match WindowPid(x, id)
      case None =>
      case Some(p) =>
    }
  }

  lemma X11HitValue(x: X11Tools, line: string, target: nat, kids: seq<nat>)
    requires X11Hit(x, line, target, kids).Some?
    ensures var w := X11Hit(x, line, target, kids).value;
            var id := Trim(line);
            && w.windowId == id && w.title == WindowTitle(x, id) && w.className == WindowClass(x, id)
            && WindowPid(x, id) == Some(w.pid)
  {
  }

  /**
   * The pass returns the hit of the first line that has one, and fails with
   * "no window" exactly when no line has one; order in the list decides, not
   * whether the hit is exact or through a child.
   */
  lemma MatchLinesFirstHit(x: X11Tools, lines: seq<string>, target: nat, kids: seq<nat>, i: nat)
    requires i < |lines| && X11Hit(x, lines[i], target, kids).Some?
    requires forall j :: 0 <= j < i ==> X11Hit(x, lines[j], target, kids).None?
    ensures MatchLines(x, lines, target, kids) == Ok(X11Hit(x, lines[i], target, kids).value)
  {
    MatchLinesFrom(x, lines, target, kids, 0, i);
    assert lines[0..] == lines;
  }

  lemma {:induction false} MatchLinesFrom(x: X11Tools, lines: seq<string>, target: nat, kids: seq<nat>, k: nat, i: nat)
    requires k <= i < |lines| && X11Hit(x, lines[i], target, kids).Some?
    requires forall j :: k <= j < i ==> X11Hit(x, lines[j], target, kids).None?
    ensures MatchLines(x, lines[k..], target, kids) == Ok(X11Hit(x, lines[i], target, kids).value)
    decreases i - k
  {
    var h := X11Hit(x, lines[k], target, kids);
    assert lines[k..][0] == lines[k];
    if k < i {
      assert lines[k..][1..] == lines[k + 1..];
      assert h.None?;
      MatchLinesFrom(x, lines, target, kids, k + 1, i);
    } else {
      assert h.Some?;
    }
  }

  lemma {:induction false} MatchLinesNoHit(x: X11Tools, lines: seq<string>, target: nat, kids: seq<nat>)
    requires forall j :: 0 <= j < |lines| ==> X11Hit(x, lines[j], target, kids).None?
    ensures MatchLines(x, lines, target, kids) == Err(NoWindowForPid(target))
    decreases |lines|
  {
    if |lines| > 0 {
      forall j | 0 <= j < |lines| - 1 ensures X11Hit(x, lines[1..][j], target, kids).None? {
        assert lines[1..][j] == lines[j + 1];
      }
      MatchLinesNoHit(x, lines[1..], target, kids);
    }
  }

  /** `find_x11_window_by_pid`, with the search output and the process table given. */
  method FindX11WindowByPid(x: X11Tools, t: ProcessTable, target: nat) returns (r: Result<WindowInfo, WindowError>)
    ensures r == X11Match(x, t, target)
  {
    if x.search.None? {
      return Err(XdotoolSearchFailed);
    }
    var lines := x.search.value;
    ghost var kids0 := Children(t, target);
    var i := 0;
    while i < |lines|
      invariant i <= |lines|
      invariant MatchLines(x, lines, target, kids0) == MatchLines(x, lines[i..], target, kids0)
    {
      assert lines[i..][1..] == lines[i + 1..];
      ghost var hit := X11Hit(x, lines[i], target, kids0);
      assert MatchLines(x, lines[i..], target, kids0)
          == if hit.Some? then Ok(hit.value) else MatchLines(x, lines[i + 1..], target, kids0);
      var id := Trim(lines[i]);
      if id == "" {
        i := i + 1;
        continue;
      }
      var windowPid := WindowPid(x, id);
      if windowPid.Some? && windowPid.value == target {
        var title := WindowTitle(x, id);
        var cls := WindowClass(x, id);
        return Ok(WindowInfo(id, title, cls, target));
      }
      var kids := Children(t, target);
      var childPid := WindowPid(x, id);
      if childPid.Some? && childPid.value in kids {
        var title := WindowTitle(x, id);
        var cls := WindowClass(x, id);
        return Ok(WindowInfo(id, title, cls, childPid.value));
      }
      i := i + 1;
    }
    return Err(NoWindowForPid(target));
  }

  // ---------------------------------------------------------------- list_x11_windows

  /**
   * What one search line contributes to `list_x11_windows`: the specification
   * of the loop body, which the method QueryWindow executes step by step.
   */
  function X11Entry(x: X11Tools, line: string): Option<WindowInfo> {
    var id := Trim(line);
    if id == "" then None
    else match WindowPid(x, id)
      case None => None
      case Some(p) => Some(WindowInfo(id, WindowTitle(x, id), WindowClass(x, id), p))
  }

  /**
   * A line is listed exactly when its trimmed id is non-empty and its pid query
   * succeeds; the entry carries that id and pid, and the title and class
   * queries' results or "Unknown".
   */
  lemma X11EntryMeaning(x: X11Tools, line: string)
    ensures var r := X11Entry(x, line);
            var id := Trim(line);
            && (r.Some? <==> id != "" && WindowPid(x, id).Some?)
            && (r.Some? ==> r.value == WindowInfo(id, WindowTitle(x, id), WindowClass(x, id), WindowPid(x, id).value))
  {
    var id := Trim(line);
    if id == "" {
      assert X11Entry(x, line) == None;
    } else if WindowPid(x, id).None? {
      assert X11Entry(x, line) == None;
    } else {
      assert X11Entry(x, line) == Some(WindowInfo(id, WindowTitle(x, id), WindowClass(x, id), WindowPid(x, id).value));
    }
  }

  function OptionToSeq<T>(o: Option<T>): seq<T> {
    match o
    case Some(v) => [v]
    case None => []
  }

  function X11Entries(x: X11Tools, lines: seq<string>): seq<WindowInfo>
    decreases |lines|
  {
    if |lines| == 0 then [] else OptionToSeq(X11Entry(x, lines[0])) + X11Entries(x, lines[1..])
  }

  lemma X11EntriesStep(x: X11Tools, lines: seq<string>, i: nat)
    requires i < |lines|
    ensures X11Entries(x, lines[i..]) == OptionToSeq(X11Entry(x, lines[i])) + X11Entries(x, lines[i + 1..])
  {
    assert lines[i..][1..] == lines[i + 1..];
  }

  function X11List(x: X11Tools): Result<seq<WindowInfo>, WindowError> {
    match x.search
    case None => Err(XdotoolSearchFailed)
    case Some(lines) => Ok(X11Entries(x, lines))
  }

  /** The body of the `list_x11_windows` loop for one search line: skip a blank id, then query pid, title and class. */
  method QueryWindow(x: X11Tools, line: string) returns (entry: Option<WindowInfo>)
    ensures entry == X11Entry(x, line)
  {
    var id := Trim(line);
    if id == "" {
      return None;
    }
    var pid := WindowPid(x, id);
    if pid.None? {
      return None;
    }
    var title := WindowTitle(x, id);
    var cls := WindowClass(x, id);
    return Some(WindowInfo(id, title, cls, pid.value));
  }

  /** `list_x11_windows`: one entry per non-blank search line whose pid query succeeds, in order. */
  method ListX11Windows(x: X11Tools) returns (r: Result<seq<WindowInfo>, WindowError>)
    ensures r == X11List(x)
  {
    if x.search.None? {
      return Err(XdotoolSearchFailed);
    }
    var lines := x.search.value;
    var windows: seq<WindowInfo> := [];
    var i := 0;
    assert lines[i..] == lines;
    assert windows + X11Entries(x, lines[i..]) == X11Entries(x, lines);
    while i < |lines|
      invariant i <= |lines|
      invariant windows + X11Entries(x, lines[i..]) == X11Entries(x, lines)
    {
      X11EntriesStep(x, lines, i);
      ghost var before := windows;
      var entry := QueryWindow(x, lines[i]);
      if entry.Some? {
        windows := windows + [entry.value];
      }
      assert windows == before + OptionToSeq(entry);
      ConcatAssociative(before, OptionToSeq(entry), X11Entries(x, lines[i + 1..]));
      assert windows + X11Entries(x, lines[i + 1..]) == X11Entries(x, lines);
      i := i + 1;
    }
    assert lines[i..] == [] && windows + [] == windows;
    return Ok(windows);
  }

  /** The first window in `ws` owned by `target` or by one of `kids`. */
  function FirstOwned(ws: seq<WindowInfo>, target: nat, kids: seq<nat>): (r: Option<WindowInfo>)
    ensures r.None? <==> forall k :: 0 <= k < |ws| ==> ws[k].pid != target && ws[k].pid !in kids
    ensures r.Some? ==> r.value in ws && (r.value.pid == target || r.value.pid in kids)
  {
    if |ws| == 0 then None
    else if ws[0].pid == target || ws[0].pid in kids then Some(ws[0])
    else
      assert forall k :: 0 <= k < |ws| - 1 ==> ws[1..][k] == ws[k + 1];
      FirstOwned(ws[1..], target, kids)
  }

  /** A line's hit is its listing entry, kept when the target or a direct child owns it. */
  lemma HitIsOwnedEntry(x: X11Tools, line: string, target: nat, kids: seq<nat>)
    ensures var e := X11Entry(x, line);
            X11Hit(x, line, target, kids) == if e.Some? && (e.value.pid == target || e.value.pid in kids) then e else None
  {
    X11HitMeaning(x, line, target, kids);
    X11EntryMeaning(x, line);
  }

  lemma {:induction false} MatchLinesIsFirstOwnedEntry(x: X11Tools, lines: seq<string>, target: nat, kids: seq<nat>)
    ensures MatchLines(x, lines, target, kids)
         == match FirstOwned(X11Entries(x, lines), target, kids)
            case Some(w) => Ok(w)
            case None => Err(NoWindowForPid(target))
    decreases |lines|
  {
    if |lines| > 0 {
      MatchLinesIsFirstOwnedEntry(x, lines[1..], target, kids);
      HitIsOwnedEntry(x, lines[0], target, kids);
      var e := X11Entry(x, lines[0]);
      var rest := X11Entries(x, lines[1..]);
      if e.Some? {
        var ws := [e.value] + rest;
        assert X11Entries(x, lines) == ws;
        assert ws[0] == e.value && ws[1..] == rest;
      } else {
        assert X11Entries(x, lines) == rest;
      }
    }
  }

  /**
   * The search and the listing agree: `find_x11_window_by_pid` returns exactly
   * the first window of `list_x11_windows` that the target or one of its
   * direct children owns, and fails exactly when the listing fails or has none.
   */
  lemma FindX11IsFirstOwnedListed(x: X11Tools, t: ProcessTable, target: nat)
    ensures X11Match(x, t, target)
         == match X11List(x)
            case Err(e) => Err(e)
            case Ok(ws) =>
              match FirstOwned(ws, target, Children(t, target))
              case Some(w) => Ok(w)
              case None => Err(NoWindowForPid(target))
  {
    if x.search.Some? {
      MatchLinesIsFirstOwnedEntry(x, x.search.value, target, Children(t, target));
    }
  }

  /**
   * A child-owned window listed before the target's own window wins: the
   * pass does not look for an exact match first. With the X11 search printing
   * a window of child `c` and then a window of `target`, the search for
   * `target` returns the child's window, recorded with pid `c`.
   */
  lemma ChildWindowListedFirstWins(x: X11Tools, t: ProcessTable, target: nat, childLine: string, ownLine: string, c: nat)
    requires x.search == Some([childLine, ownLine])
    requires Trim(childLine) != "" && Trim(ownLine) != ""
    requires WindowPid(x, Trim(childLine)) == Some(c) && c != target && c in Children(t, target)
    requires WindowPid(x, Trim(ownLine)) == Some(target)
    ensures X11Match(x, t, target)
         == Ok(WindowInfo(Trim(childLine), WindowTitle(x, Trim(childLine)), WindowClass(x, Trim(childLine)), c))
  {
    var kids := Children(t, target);
    X11HitMeaning(x, childLine, target, kids);
    MatchLinesFirstHit(x, [childLine, ownLine], target, kids, 0);
  }

  // ---------------------------------------------------------------- wmctrl

  /**
   * One line of `wmctrl -l -p`: accepted when it has at least four whitespace
   * fields and the third parses as a u32. Field 0 is the id, field 2 the pid,
   * field 3 (the host) is dropped, the rest joined by single spaces is the title.
   */
  function ParseWmctrlLine(line: string): (r: Option<WindowInfo>)
    ensures r.Some? <==> |Fields(line)| >= 4 && ParseU32(Fields(line)[2]).Some?
    ensures r.Some? ==> && r.value.windowId == Fields(line)[0]
                        && r.value.pid == ParseU32(Fields(line)[2]).value
                        && r.value.title == Join(Fields(line)[4..], " ")
                        && r.value.className == UNKNOWN
  {
    var parts := Fields(line);
    if |parts| >= 4 then
      match ParseU32(parts[2])
      case Some(pid) => Some(WindowInfo(parts[0], Join(parts[4..], " "), UNKNOWN, pid))
      case None => None
    else None
  }

  /**
   * A line laid out as wmctrl lays it out, with leading whitespace and each
   * column followed by its own whitespace run (padding may differ from column
   * to column, the last run may be empty), parses back to its id, pid and
   * title, the title's words joined by single spaces.
   */
  lemma ParseWmctrlLineOfLayout(lead: string, id: string, desktop: string, pid: nat, host: string,
                                title: seq<string>, gaps: seq<string>)
    requires IsWord(id) && IsWord(desktop) && IsWord(host) && pid < U32_LIMIT
    requires forall k :: 0 <= k < |title| ==> IsWord(title[k])
    requires AllSpace(lead) && |gaps| == |title| + 4
    requires forall k :: 0 <= k < |gaps| ==> AllSpace(gaps[k])
    requires forall k :: 0 <= k < |gaps| - 1 ==> |gaps[k]| > 0
    ensures ParseWmctrlLine(lead + Layout([id, desktop, NatToString(pid), host] + title, gaps))
         == Some(WindowInfo(id, Join(title, " "), UNKNOWN, pid))
  {
    var ws := [id, desktop, NatToString(pid), host] + title;
    NatToStringIsWord(pid);
    FieldsOfLayout(lead, ws, gaps);
    ParseU32OfNatToString(pid);
    assert ws[4..] == title;
  }

  function WmctrlEntries(lines: seq<string>): seq<WindowInfo>
    decreases |lines|
  {
    if |lines| == 0 then [] else OptionToSeq(ParseWmctrlLine(lines[0])) + WmctrlEntries(lines[1..])
  }

  lemma WmctrlEntriesStep(lines: seq<string>, i: nat)
    requires i < |lines|
    ensures WmctrlEntries(lines[i..]) == OptionToSeq(ParseWmctrlLine(lines[i])) + WmctrlEntries(lines[i + 1..])
  {
    assert lines[i..][1..] == lines[i + 1..];
  }

  function WmctrlList(out: Option<seq<string>>): Result<seq<WindowInfo>, WindowError> {
    match out
    case None => Err(WmctrlFailed)
    case Some(lines) => Ok(WmctrlEntries(lines))
  }

  /** `list_wmctrl_windows`: one entry per accepted line, in order; every other line is skipped. */
  method ListWmctrlWindows(out: Option<seq<string>>) returns (r: Result<seq<WindowInfo>, WindowError>)
    ensures r == WmctrlList(out)
  {
    if out.None? {
      return Err(WmctrlFailed);
    }
    var lines := out.value;
    var windows: seq<WindowInfo> := [];
    var i := 0;
    assert lines[i..] == lines;
    while i < |lines|
      invariant i <= |lines|
      invariant windows + WmctrlEntries(lines[i..]) == WmctrlEntries(lines)
    {
      WmctrlEntriesStep(lines, i);
      ghost var before := windows;
      var entry := ParseWmctrlLine(lines[i]);
      if entry.Some? {
        windows := windows + [entry.value];
      }
      assert windows == before + OptionToSeq(entry);
      ConcatAssociative(before, OptionToSeq(entry), WmctrlEntries(lines[i + 1..]));
      i := i + 1;
    }
    assert lines[i..] == [] && windows + [] == windows;
    return Ok(windows);
  }

  /** The wmctrl window search of `find_window_by_process_name`: exact pid only, class set to the process name. */
  function WmctrlMatchLines(lines: seq<string>, target: nat, name: string): Result<WindowInfo, WindowError>
    decreases |lines|
  {
    if |lines| == 0 then Err(NoWindowForProcess(name))
    else match ParseWmctrlLine(lines[0])
      case Some(w) =>
        if w.pid == target then Ok(w.(className := name)) else WmctrlMatchLines(lines[1..], target, name)
      case None => WmctrlMatchLines(lines[1..], target, name)
  }

  function WmctrlMatch(t: ProcessTable, out: Option<seq<string>>, target: nat): Result<WindowInfo, WindowError> {
    match FindByPid(t, target)
    case None => Err(ProcessNotFound)
    case Some(p) =>
      match out
      case None => Err(WmctrlFailed)
      case Some(lines) => WmctrlMatchLines(lines, target, p.name)
  }

  /** `find_window_by_process_name`, with the process table and the wmctrl output given. */
  method FindWindowByProcessName(t: ProcessTable, out: Option<seq<string>>, target: nat)
    returns (r: Result<WindowInfo, WindowError>)
    ensures r == WmctrlMatch(t, out, target)
  {
    var process := FindByPid(t, target);
    if process.None? {
      return Err(ProcessNotFound);
    }
    var name := process.value.name;
    if out.None? {
      return Err(WmctrlFailed);
    }
    var lines := out.value;
    var i := 0;
    while i < |lines|
      invariant i <= |lines|
      invariant WmctrlMatchLines(lines, target, name) == WmctrlMatchLines(lines[i..], target, name)
    {
      assert lines[i..][1..] == lines[i + 1..];
      var parts := Fields(lines[i]);
      if |parts| >= 4 {
        var windowPid := ParseU32(parts[2]);
        if windowPid.Some? && windowPid.value == target {
          var title := Join(parts[4..], " ");
          return Ok(WindowInfo(parts[0], title, name, target));
        }
      }
      i := i + 1;
    }
    return Err(NoWindowForProcess(name));
  }

  lemma {:induction false} WmctrlMatchLinesIsFirstListed(lines: seq<string>, target: nat, name: string)
    ensures WmctrlMatchLines(lines, target, name)
         == match FirstOwned(WmctrlEntries(lines), target, [])
            case Some(w) => Ok(w.(className := name))
            case None => Err(NoWindowForProcess(name))
    decreases |lines|
  {
    if |lines| > 0 {
      WmctrlMatchLinesIsFirstListed(lines[1..], target, name);
      var e := ParseWmctrlLine(lines[0]);
      var rest := WmctrlEntries(lines[1..]);
      if e.Some? {
        var ws := [e.value] + rest;
        assert WmctrlEntries(lines) == ws;
        assert ws[0] == e.value && ws[1..] == rest;
      } else {
        assert WmctrlEntries(lines) == rest;
      }
    }
  }

  /**
   * The wmctrl search and the wmctrl listing agree: the search returns the first
   * listed window whose pid is exactly the target, with its class replaced by the
   * target's process name. The process must exist before wmctrl is consulted.
   */
  lemma WmctrlMatchIsFirstListed(t: ProcessTable, out: Option<seq<string>>, target: nat)
    ensures WmctrlMatch(t, out, target)
         == match FindByPid(t, target)
            case None => Err(ProcessNotFound)
            case Some(p) =>
              match WmctrlList(out)
              case Err(e) => Err(e)
              case Ok(ws) =>
                match FirstOwned(ws, target, [])
                case Some(w) => Ok(w.(className := p.name))
                case None => Err(NoWindowForProcess(p.name))
  {
    if FindByPid(t, target).Some? && out.Some? {
      WmctrlMatchLinesIsFirstListed(out.value, target, FindByPid(t, target).value.name);
    }
  }

  // ---------------------------------------------------------------- find_window_by_pid

  /** The backend composition of `find_window_by_pid`: X11 when it succeeds, otherwise wmctrl. */
  function WindowFor(x: X11Tools, out: Option<seq<string>>, t: ProcessTable, target: nat): Result<WindowInfo, WindowError> {
    var viaX11 := X11Match(x, t, target);
    if viaX11.Ok? then viaX11 else WmctrlMatch(t, out, target)
  }

  method FindWindowByPid(x: X11Tools, out: Option<seq<string>>, t: ProcessTable, target: nat)
    returns (r: Result<WindowInfo, WindowError>)
    ensures r == WindowFor(x, out, t, target)
  {
    var viaX11 := FindX11WindowByPid(x, t, target);
    if viaX11.Ok? {
      return viaX11;
    }
    r := FindWindowByProcessName(t, out, target);
  }

  /**
   * Whatever the backends print, a window found for `target` is owned by the
   * target or by one of its direct children; one found through wmctrl is owned
   * by the target itself and carries the target's process name as its class.
   */
  lemma FoundWindowIsOwned(x: X11Tools, out: Option<seq<string>>, t: ProcessTable, target: nat)
    requires WindowFor(x, out, t, target).Ok?
    ensures var w := WindowFor(x, out, t, target).value;
            w.pid == target || w.pid in Children(t, target)
    ensures X11Match(x, t, target).Err? ==>
              var w := WindowFor(x, out, t, target).value;
              w.pid == target && w.className == FindByPid(t, target).value.name
  {
    FindX11IsFirstOwnedListed(x, t, target);
    WmctrlMatchIsFirstListed(t, out, target);
  }

  /**
   * If the X11 search produces nothing (the tool fails, or no line has a hit)
   * and wmctrl lists a window of the target, that window is found.
   */
  lemma FallbackFindsWmctrlWindow(x: X11Tools, t: ProcessTable, lines: seq<string>, target: nat, i: nat)
    requires X11Match(x, t, target).Err?
    requires FindByPid(t, target).Some?
    requires i < |lines| && ParseWmctrlLine(lines[i]).Some? && ParseWmctrlLine(lines[i]).value.pid == target
    ensures WindowFor(x, Some(lines), t, target).Ok?
  {
    WmctrlMatchIsFirstListed(t, Some(lines), target);
    WmctrlEntriesHas(lines, i);
  }

  lemma {:induction false} WmctrlEntriesHas(lines: seq<string>, i: nat)
    requires i < |lines| && ParseWmctrlLine(lines[i]).Some?
    ensures ParseWmctrlLine(lines[i]).value in WmctrlEntries(lines)
    decreases i
  {
    var head := OptionToSeq(ParseWmctrlLine(lines[0]));
    assert WmctrlEntries(lines) == head + WmctrlEntries(lines[1..]);
    if i > 0 {
      assert lines[1..][i - 1] == lines[i];
      WmctrlEntriesHas(lines[1..], i - 1);
    } else {
      assert head == [ParseWmctrlLine(lines[0]).value];
    }
  }

  // ---------------------------------------------------------------- list_all_windows

  /**
   * `list_all_windows`: the X11 listing when it succeeds with at least one
   * window; otherwise the wmctrl listing, or nothing if that fails too.
   * The source always returns Ok, so the result is the list itself.
   */
  method ListAllWindows(x: X11Tools, out: Option<seq<string>>) returns (windows: seq<WindowInfo>)
    ensures X11List(x).Ok? && X11List(x).value != [] ==> windows == X11List(x).value
    ensures !(X11List(x).Ok? && X11List(x).value != []) ==>
              windows == (if WmctrlList(out).Ok? then WmctrlList(out).value else [])
  {
    windows := [];
    var x11 := ListX11Windows(x);
    if x11.Ok? {
      windows := windows + x11.value;
    }
    if windows == [] {
      var wm := ListWmctrlWindows(out);
      if wm.Ok? {
        windows := windows + wm.value;
      }
    }
  }

  // ---------------------------------------------------------------- extract_program_name

  /** The class table of `extract_program_name`, on the lowercased class. */
  function ClassProgram(lowerClass: string): Option<string> {
    if lowerClass == "code" || lowerClass == "vscode" then Some("code")
    else if lowerClass == "google-chrome" || lowerClass == "chrome" then Some("chrome")
    else if lowerClass == "firefox" then Some("firefox")
    else if lowerClass == "terminal" || lowerClass == "gnome-terminal" then Some("terminal")
    else if lowerClass == "nautilus" then Some("nautilus")
    else None
  }

  /** The title keywords of `extract_program_name`, tested in order on the lowercased title. */
  function TitleProgram(lowerTitle: string): Option<string> {
    if Contains(lowerTitle, "visual studio code") || Contains(lowerTitle, "vscode") then Some("code")
    else if Contains(lowerTitle, "chrome") then Some("chrome")
    else if Contains(lowerTitle, "firefox") then Some("firefox")
    else if Contains(lowerTitle, "terminal") then Some("terminal")
    else None
  }

  const KNOWN_PROGRAMS: set<string> := {"code", "chrome", "firefox", "terminal", "nautilus"}

  /**
   * `extract_program_name`: total, never an error. The result is always lower
   * case, and is either one of the known program names or the lowercased class.
   */
  function ProgramName(w: WindowInfo): (r: string)
    ensures IsLower(r)
    ensures r in KNOWN_PROGRAMS || r == Lower(w.className)
  {
    match ClassProgram(Lower(w.className))
    case Some(p) => p
    case None =>
      match TitleProgram(Lower(w.title))
      case Some(p) => p
      case None => Lower(w.className)
  }

  /** A class-table hit wins over any title keyword; with no class hit the title decides. */
  lemma ClassTableWins(w: WindowInfo, title: string)
    requires ClassProgram(Lower(w.className)).Some?
    ensures ProgramName(w) == ProgramName(w.(title := title)) == ClassProgram(Lower(w.className)).value
  {
  }

  /**
   * With no class-table hit the title keywords decide, tried in order: a
   * Visual Studio Code keyword gives "code", else "chrome" gives "chrome",
   * else "firefox" gives "firefox", else "terminal" gives "terminal".
   */
  lemma TitleKeywordsInOrder(w: WindowInfo)
    requires ClassProgram(Lower(w.className)).None?
    ensures var t := Lower(w.title);
            var vscode := Contains(t, "visual studio code") || Contains(t, "vscode");
            && (vscode ==> ProgramName(w) == "code")
            && (!vscode && Contains(t, "chrome") ==> ProgramName(w) == "chrome")
            && (!vscode && !Contains(t, "chrome") && Contains(t, "firefox") ==> ProgramName(w) == "firefox")
            && (!vscode && !Contains(t, "chrome") && !Contains(t, "firefox") && Contains(t, "terminal") ==>
                  ProgramName(w) == "terminal")
  {
  }

  /** A title naming both Chrome and Firefox gives "chrome", whatever class off the table. */
  lemma TitleKeywordOrder(cls: string)
    requires ClassProgram(Lower(cls)).None?
    ensures ProgramName(WindowInfo("0x1", "Chrome and Firefox", cls, 1)) == "chrome"
  {
    var t := Lower("Chrome and Firefox");
    assert t == "chrome and firefox";
    NotContainsWithoutFirst(t, "visual studio code");
    NotContainsWithoutFirst(t, "vscode");
    assert OccursAt(t, "chrome", 0);
    TitleKeywordsInOrder(WindowInfo("0x1", "Chrome and Firefox", cls, 1));
  }

  /** A window of class "code" is switched to as "code", from the class table. */
  lemma ProgramNameOfCode()
    ensures ProgramName(WindowInfo("0x1", "x", "code", 1)) == "code"
  {
    assert Lower("code") == "code";
  }

  /** An unknown class with a Firefox title gives "firefox" from the title keywords. */
  lemma ProgramNameOfFirefoxTitle()
    ensures ProgramName(WindowInfo("0x1", "Mozilla Firefox", "unknown-app", 1)) == "firefox"
  {
    assert ClassProgram(Lower("unknown-app")).None? by {
      assert Lower("unknown-app") == "unknown-app";
    }
    assert Lower("Mozilla Firefox") == "mozilla firefox";
    FirefoxTitleKeywords();
    TitleKeywordsInOrder(WindowInfo("0x1", "Mozilla Firefox", "unknown-app", 1));
  }

  /** "mozilla firefox" holds the keyword "firefox" and none of the keywords tried before it. */
  lemma FirefoxTitleKeywords()
    ensures !Contains("mozilla firefox", "visual studio code") && !Contains("mozilla firefox", "vscode")
    ensures !Contains("mozilla firefox", "chrome") && Contains("mozilla firefox", "firefox")
  {
    NotContainsWithoutFirst("mozilla firefox", "visual studio code");
    NotContainsWithoutFirst("mozilla firefox", "vscode");
    NotContainsWithoutFirst("mozilla firefox", "chrome");
    assert OccursAt("mozilla firefox", "firefox", 8);
  }

  /**
   * With neither a class-table hit nor any title keyword in the lowercased
   * title, the lowercased class is the program name.
   */
  lemma ProgramNameFallsBackToClass(w: WindowInfo)
    requires ClassProgram(Lower(w.className)).None?
    requires !Contains(Lower(w.title), "visual studio code") && !Contains(Lower(w.title), "vscode")
    requires !Contains(Lower(w.title), "chrome") && !Contains(Lower(w.title), "firefox")
    requires !Contains(Lower(w.title), "terminal")
    ensures ProgramName(w) == Lower(w.className)
  {
  }

  /** Class "xyz" with title "random" matches nothing and stays "xyz". */
  lemma ProgramNameOfUnknownClass()
    ensures ProgramName(WindowInfo("0x1", "random", "xyz", 1)) == "xyz"
  {
    assert Lower("xyz") == "xyz";
    assert Lower("random") == "random";
    NotContainsWithoutFirst("random", "visual studio code");
    NotContainsWithoutFirst("random", "vscode");
    NotContainsWithoutFirst("random", "chrome");
    NotContainsWithoutFirst("random", "firefox");
    NotContainsWithoutFirst("random", "terminal");
    ProgramNameFallsBackToClass(WindowInfo("0x1", "random", "xyz", 1));
  }

  // ---------------------------------------------------------------- switch_to_process_window

  /** What running `tool-goto-window switch <name>` gives: it could not be started, or it exited. */
  datatype Activation = LaunchFailed | Exited(success: bool, stderr: string)

  /**
   * What `switch` reports: the process, its window and program name, and
   * either success or the switcher's stderr (printed after "Failed to switch window: ").
   */
  datatype SwitchReport = SwitchReport(process: ProcessRecord, window: WindowInfo, programName: string, failure: Option<string>)

  /**
   * `switch_to_process_window`: resolve the identifier, find the process's
   * window, name the program and hand it to the switcher. A switcher that
   * runs and fails is reported, not an error.
   */
  method SwitchToProcessWindow(t: ProcessTable, ident: string, x: X11Tools, out: Option<seq<string>>, activation: Activation)
    returns (r: Result<SwitchReport, WindowError>)
    ensures ResolveProcess(t, ident).None? ==> r == Err(ProcessNotFound)
    ensures ResolveProcess(t, ident).Some? ==>
              var p := ResolveProcess(t, ident).value;
              var found := WindowFor(x, out, t, p.pid);
              && (found.Err? ==> r == Err(found.error))
              && (found.Ok? && activation.LaunchFailed? ==> r == Err(ActivationLaunchFailed))
              && (found.Ok? && activation.Exited? ==>
                    r == Ok(SwitchReport(p, found.value, ProgramName(found.value),
                                         if activation.success then None else Some(activation.stderr))))
  {
    var process := ResolveProcess(t, ident);
    if process.None? {
      return Err(ProcessNotFound);
    }
    var pid := process.value.pid;
    var window := FindWindowByPid(x, out, t, pid);
    if window.Err? {
      return Err(window.error);
    }
    var programName := ProgramName(window.value);
    if activation.LaunchFailed? {
      return Err(ActivationLaunchFailed);
    }
    var failure := if activation.success then None else Some(activation.stderr);
    return Ok(SwitchReport(process.value, window.value, programName, failure));
  }
}
