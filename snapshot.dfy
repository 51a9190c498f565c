/**
 * The process table that `sysinfo::System` captures, and the two queries the
 * window and process commands make of it: resolving a user's identifier to a
 * process, and listing the direct children of a process.
 */
module Snapshot {
  import opened Wrappers
  import opened Text

  /**
   * One process: its pid, name, parent pid, resident memory in bytes, CPU usage
   * (an integer stand-in for the `f32` percentage) and argument vector.
   */
  datatype ProcessRecord = ProcessRecord(
    pid: nat,
    name: string,
    parent: Option<nat>,
    memory: nat,
    cpu: int,
    cmd: seq<string>)

  /** The snapshot; the order of the sequence stands for the `HashMap` iteration order. */
  type ProcessTable = seq<ProcessRecord>

  /** `system.process(pid)`: the record with that pid (the first, should the table repeat one). */
  function FindByPid(t: ProcessTable, pid: nat): (r: Option<ProcessRecord>)
    ensures r.None? <==> forall i :: 0 <= i < |t| ==> t[i].pid != pid
    ensures r.Some? ==> exists i :: 0 <= i < |t| && t[i] == r.value && t[i].pid == pid
                                    && forall j :: 0 <= j < i ==> t[j].pid != pid
  {
    if |t| == 0 then None
    else if t[0].pid == pid then Some(t[0])
    else
      var r := FindByPid(t[1..], pid);
      assert r.Some? ==> exists i :: 0 < i < |t| && t[i] == r.value && t[i].pid == pid
                                     && forall j :: 0 <= j < i ==> t[j].pid != pid by {
        if r.Some? {
          var k :| 0 <= k < |t| - 1 && t[1..][k] == r.value && t[1..][k].pid == pid
                   && forall j :: 0 <= j < k ==> t[1..][j].pid != pid;
          assert forall j :: 0 <= j < k + 1 ==> t[j].pid != pid by {
            forall j | 0 < j < k + 1 ensures t[j].pid != pid { assert t[j] == t[1..][j - 1]; }
          }
        }
      }
      r
  }

  /** The name test of the resolution step: the lowercased name contains the lowercased identifier. */
  predicate NameMatches(p: ProcessRecord, ident: string) {
    Contains(Lower(p.name), Lower(ident))
  }

  /** `processes().values().find(..)` with the name test: the first matching record. */
  function FindByName(t: ProcessTable, ident: string): (r: Option<ProcessRecord>)
    ensures r.None? <==> forall i :: 0 <= i < |t| ==> !NameMatches(t[i], ident)
    ensures r.Some? ==> exists i :: 0 <= i < |t| && t[i] == r.value && NameMatches(t[i], ident)
                                    && forall j :: 0 <= j < i ==> !NameMatches(t[j], ident)
  {
    if |t| == 0 then None
    else if NameMatches(t[0], ident) then Some(t[0])
    else
      var r := FindByName(t[1..], ident);
      assert r.Some? ==> exists i :: 0 < i < |t| && t[i] == r.value && NameMatches(t[i], ident)
                                     && forall j :: 0 <= j < i ==> !NameMatches(t[j], ident) by {
        if r.Some? {
          var k :| 0 <= k < |t| - 1 && t[1..][k] == r.value && NameMatches(t[1..][k], ident)
                   && forall j :: 0 <= j < k ==> !NameMatches(t[1..][j], ident);
          assert forall j :: 0 <= j < k + 1 ==> !NameMatches(t[j], ident) by {
            forall j | 0 < j < k + 1 ensures !NameMatches(t[j], ident) { assert t[j] == t[1..][j - 1]; }
          }
        }
      }
      r
  }

  /**
   * The resolution step of `switch` and of `info`: an identifier that parses
   * as a u32 is looked up as a pid only; any other identifier selects the first
   * process whose name matches it.
   */
  function ResolveProcess(t: ProcessTable, ident: string): (r: Option<ProcessRecord>)
    ensures r.Some? ==> r.value in t
    ensures ParseU32(ident).Some? ==>
              && (r.None? <==> forall i :: 0 <= i < |t| ==> t[i].pid != ParseU32(ident).value)
              && (r.Some? ==> r.value.pid == ParseU32(ident).value)
    ensures ParseU32(ident).None? ==>
              && (r.None? <==> forall i :: 0 <= i < |t| ==> !NameMatches(t[i], ident))
              && (r.Some? ==> NameMatches(r.value, ident))
  {
    match ParseU32(ident)
    case Some(pid) => FindByPid(t, pid)
    case None => FindByName(t, ident)
  }

  /**
   * A numeric identifier never falls back to names: if no process has that pid
   * the result is "not found", even when some name contains the digits.
   */
  lemma NumericIdentifierIsPidOnly(t: ProcessTable, ident: string, i: nat)
    requires ParseU32(ident).Some?
    requires i < |t| && NameMatches(t[i], ident)
    requires forall j :: 0 <= j < |t| ==> t[j].pid != ParseU32(ident).value
    ensures ResolveProcess(t, ident).None?
  {
  }

  /**
   * Writing the pid of a process in decimal and resolving it finds that
   * process, provided pids in the table are distinct.
   */
  lemma ResolvePidString(t: ProcessTable, i: nat)
    requires i < |t| && t[i].pid < U32_LIMIT
    requires forall j, k :: 0 <= j < k < |t| ==> t[j].pid != t[k].pid
    ensures ResolveProcess(t, NatToString(t[i].pid)) == Some(t[i])
  {
    ParseU32OfNatToString(t[i].pid);
    var r := FindByPid(t, t[i].pid);
    var k :| 0 <= k < |t| && t[k] == r.value && t[k].pid == t[i].pid
             && forall j :: 0 <= j < k ==> t[j].pid != t[i].pid;
    assert !(i < k) && !(k < i);
  }

  /**
   * A non-numeric identifier picks the first record, in table order, whose
   * lowercased name contains the lowercased identifier; it fails only if none does.
   */
  lemma NameIdentifierPicksFirstMatch(t: ProcessTable, ident: string, i: nat)
    requires ParseU32(ident).None?
    requires i < |t| && NameMatches(t[i], ident)
    requires forall j :: 0 <= j < i ==> !NameMatches(t[j], ident)
    ensures ResolveProcess(t, ident) == Some(t[i])
  {
    var r := FindByName(t, ident);
    var k :| 0 <= k < |t| && t[k] == r.value && NameMatches(t[k], ident)
             && forall j :: 0 <= j < k ==> !NameMatches(t[j], ident);
    assert !(i < k) && !(k < i);
  }

  /**
   * `get_process_children`: the pids of the records whose parent is `parent`,
   * in table order. These are the direct children only.
   */
  function Children(t: ProcessTable, parent: nat): (r: seq<nat>)
    ensures |r| <= |t|
    ensures forall c :: c in r <==> exists i :: 0 <= i < |t| && t[i].parent == Some(parent) && t[i].pid == c
  {
    if |t| == 0 then []
    else
      var rest := Children(t[1..], parent);
      assert forall i :: 0 <= i < |t| - 1 ==> t[1..][i] == t[i + 1];
      if t[0].parent == Some(parent) then [t[0].pid] + rest else rest
  }

  /** A grandchild is not a child: the chain 1 <- 2 <- 3 gives 1 the single child 2. */
  lemma ChildrenAreDirectOnly()
    ensures Children([ProcessRecord(1, "init", None, 0, 0, []),
                      ProcessRecord(2, "bash", Some(1), 0, 0, []),
                      ProcessRecord(3, "code", Some(2), 0, 0, [])], 1) == [2]
  {
  }
}
