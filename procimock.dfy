/**
 * The mock backend of proci: an in-memory process table keyed by PID with
 * per-process and global failure switches, used to exercise callers of
 * the accessor interface without a real operating system.
 */
module Mock {
  import opened Proci
  import opened Decimal

  /** One mocked process: its three queryable facets and one failure switch per facet. */
  datatype ProcessMock = ProcessMock(
    pid: Uint32,
    path: string,
    commandLine: string,
    memoryUsage: Uint64,
    doFailPath: bool,          // makes GetProcessPath fail
    doFailCommandLine: bool,   // makes GetProcessCommandLine fail
    doFailMemoryUsage: bool)   // makes GetProcessMemoryUsage fail

  /** The accessors that can be told to fail. */
  datatype Operation =
    | GetMemoryStatusOp
    | GetProcessMemoryUsageOp
    | GetProcessPathOp
    | GetProcessCommandLineOp

  /** The two kinds of error the mock reports. */
  datatype MockError =
    | PidNotExist(pid: Uint32)             // "PID %d does not exist"
    | IntentionalFailure(op: Operation)    // "<operation> Mock intentional failure"

  datatype Result<T> = Ok(value: T) | Err(error: MockError)

  /** The memory status every generated mock reports: 50 %, 4 GiB total, 2 GiB available. */
  function GeneratedMemoryStatus(): (ms: MemoryStatus)
    ensures Plausible(ms)
    ensures ms.memoryLoad == 50
    ensures ms.totalPhys == 4 * 1024 * 1024 * 1024 && ms.availPhys == 2 * 1024 * 1024 * 1024
  {
    MemoryStatus(50, 4 * 1024 * 1024 * 1024, 2 * 1024 * 1024 * 1024)
  }

  /**
   * The entry the generation loop builds at step i: the PID is uint32(i)
   * and the memory usage uint64(1000 + i), with Go's int64 addition.
   */
  function SyntheticProcess(i: nat): (r: ProcessMock)
    requires i < 0x8000_0000_0000_0000
    ensures r.pid == ToUint32(i) && r.memoryUsage == 1000 + i
    ensures !r.doFailPath && !r.doFailCommandLine && !r.doFailMemoryUsage
  {
    WrappedSumAsUint64(1000, i);
    ProcessMock(ToUint32(i), "path_" + NatToString(i), "command_line_" + NatToString(i),
                Int64ToUint64(AddInt64(1000, i)), false, false, false)
  }

  /**
   * The path and command line of step i are their fixed prefixes followed by
   * the decimal digits of i, and reading those digits back gives i.
   */
  lemma SyntheticProcessNames(i: nat)
    requires i < 0x8000_0000_0000_0000
    ensures var r := SyntheticProcess(i);
      && |r.path| > 5 && r.path[..5] == "path_"
      && (forall k :: 5 <= k < |r.path| ==> IsDigit(r.path[k]))
      && ParseDecimal(r.path[5..]) == i
      && |r.commandLine| > 13 && r.commandLine[..13] == "command_line_"
      && (forall k :: 13 <= k < |r.commandLine| ==> IsDigit(r.commandLine[k]))
      && ParseDecimal(r.commandLine[13..]) == i
  {
    ParseNatToString(i);
    assert ("path_" + NatToString(i))[5..] == NatToString(i);
    assert ("command_line_" + NatToString(i))[13..] == NatToString(i);
  }

  /** Two steps within one window of 2^32 that share a PID are the same step. */
  lemma SameResidueInWindow(a: int, b: int, lo: int)
    requires lo <= a < lo + Uint32Limit && lo <= b < lo + Uint32Limit
    requires a % Uint32Limit == b % Uint32Limit
    ensures a == b
  {
  }

  /** The last step below n whose PID is p: the write that survives in the table. */
  function LastIndex(p: Uint32, n: int): (i: nat)
    requires p < n
    ensures i < n <= i + Uint32Limit
    ensures ToUint32(i) == p
  {
    p + Uint32Limit * ((n - 1 - p) / Uint32Limit)
  }

  /**
   * The table GenerateMock(n) builds: PIDs 0 .. n-1 truncated to 32 bits,
   * each holding the entry of the last step that wrote it.
   */
  ghost function Generated(n: Int64): (table: map<Uint32, ProcessMock>)
    ensures forall p: Uint32 :: p in table <==> p < n
  {
    map p: Uint32 | p < n :: SyntheticProcess(LastIndex(p, n))
  }

  /** A non-positive count generates no process. */
  lemma GeneratedEmpty(n: Int64)
    requires n <= 0
    ensures Generated(n) == map[]
  {
  }

  /** One more step of the generation loop adds (or overwrites) exactly one entry. */
  lemma GeneratedStep(i: Int64)
    requires 0 <= i < 0x7FFF_FFFF_FFFF_FFFF
    ensures Generated(i + 1) == Generated(i)[ToUint32(i) := SyntheticProcess(i)]
  {
    var next, prev := Generated(i + 1), Generated(i)[ToUint32(i) := SyntheticProcess(i)];
    assert next.Keys == prev.Keys;
    forall p | p in next
      ensures next[p] == prev[p]
    {
      if p == ToUint32(i) {
        SameResidueInWindow(LastIndex(p, i + 1), i, i + 1 - Uint32Limit);
      } else {
        assert LastIndex(p, i + 1) != i;
        SameResidueInWindow(LastIndex(p, i + 1), LastIndex(p, i), i - Uint32Limit);
      }
    }
  }

  /** Without wrap-around, PID p holds exactly the seeded values of step p. */
  lemma GeneratedEntry(n: Int64, p: Uint32)
    requires p < n <= Uint32Limit
    ensures p in Generated(n)
    ensures Generated(n)[p] == ProcessMock(p, "path_" + NatToString(p), "command_line_" + NatToString(p),
                                           1000 + p, false, false, false)
  {
  }

  /** The generated table has n entries (none for n <= 0, at most 2^32). */
  lemma {:induction false} GeneratedSize(n: Int64)
    ensures |Generated(n)| == if n <= 0 then 0 else if n <= Uint32Limit then n else Uint32Limit
  {
    if n <= 0 {
      GeneratedEmpty(n);
    } else {
      GeneratedSize(n - 1);
      GeneratedStep(n - 1);
      var pid := ToUint32(n - 1);
      if n - 1 < Uint32Limit {
        assert pid !in Generated(n - 1);
      } else {
        assert pid in Generated(n - 1);
      }
    }
  }

  /** Every generated entry is stored under its own PID. */
  lemma GeneratedPidsMatchKeys(n: Int64)
    ensures forall p :: p in Generated(n) ==> Generated(n)[p].pid == p
  {
  }

  /** No two generated entries share a path or a command line. */
  lemma GeneratedFacetsDistinct(n: Int64, p: Uint32, q: Uint32)
    requires p < n && q < n && p != q
    ensures Generated(n)[p].path != Generated(n)[q].path
    ensures Generated(n)[p].commandLine != Generated(n)[q].commandLine
  {
    PrefixedInjective("path_", LastIndex(p, n), LastIndex(q, n));
    PrefixedInjective("command_line_", LastIndex(p, n), LastIndex(q, n));
  }

  /** The mock backend: a process table plus the memory status and its failure switch. */
  class ProciMock {
    var memStatus: MemoryStatus
    var doFailMemStatus: bool
    var processes: map<Uint32, ProcessMock>

    /** GenerateMock: PIDs 0 .. numberOfProcesses-1 with seeded values, nothing set to fail. */
    constructor GenerateMock(numberOfProcesses: Int64)
      ensures memStatus == GeneratedMemoryStatus() && !doFailMemStatus
      ensures processes == Generated(numberOfProcesses)
    {
      var table: map<Uint32, ProcessMock> := map[];
      var i: Int64 := 0;
      GeneratedEmpty(0);
      while i < numberOfProcesses
        invariant 0 <= i && (numberOfProcesses >= 0 ==> i <= numberOfProcesses)
        invariant table == Generated(i)
        invariant numberOfProcesses < 0 ==> table == map[]
      {
        var pid := ToUint32(i);
        var process := ProcessMock(pid, "path_" + NatToString(i), "command_line_" + NatToString(i),
                                   Int64ToUint64(AddInt64(1000, i)), false, false, false);
        assert process == SyntheticProcess(i);
        GeneratedStep(i);
        table := table[pid := process];
        i := i + 1;
      }
      if numberOfProcesses < 0 {
        GeneratedEmpty(numberOfProcesses);
      }
      memStatus := GeneratedMemoryStatus();
      doFailMemStatus := false;
      processes := table;
    }

    function GetMemoryStatus(): (r: Result<MemoryStatus>)
      reads this
      ensures r.Err? <==> doFailMemStatus
      ensures r.Err? ==> r.error == IntentionalFailure(GetMemoryStatusOp)
      ensures r.Ok? ==> r.value == memStatus
    {
      if doFailMemStatus then Err(IntentionalFailure(GetMemoryStatusOp)) else Ok(memStatus)
    }

    /** Lists every PID of the table once, in an unspecified order. */
    method GetProcessPids() returns (pids: seq<Uint32>)
      ensures |pids| == |processes|
      ensures forall p :: p in pids <==> p in processes
      ensures forall j, k :: 0 <= j < k < |pids| ==> pids[j] != pids[k]
    {
      pids := [];
      var rest := processes.Keys;
      while rest != {}
        invariant rest <= processes.Keys
        invariant forall p :: p in pids <==> p in processes && p !in rest
        invariant forall j, k :: 0 <= j < k < |pids| ==> pids[j] != pids[k]
        invariant |pids| + |rest| == |processes.Keys|
        decreases |rest|
      {
        var p :| p in rest;
        pids := pids + [p];
        rest := rest - {p};
      }
    }

    function GetProcessMemoryUsage(pid: Uint32): (r: Result<Uint64>)
      reads this
      ensures r == Err(PidNotExist(pid)) <==> pid !in processes
      ensures r == Err(IntentionalFailure(GetProcessMemoryUsageOp))
              <==> pid in processes && processes[pid].doFailMemoryUsage
      ensures r.Ok? <==> pid in processes && !processes[pid].doFailMemoryUsage
      ensures r.Ok? ==> r.value == processes[pid].memoryUsage
    {
      if pid !in processes then Err(PidNotExist(pid))
      else if processes[pid].doFailMemoryUsage then Err(IntentionalFailure(GetProcessMemoryUsageOp))
      else Ok(processes[pid].memoryUsage)
    }

    function GetProcessPath(pid: Uint32): (r: Result<string>)
      reads this
      ensures r == Err(PidNotExist(pid)) <==> pid !in processes
      ensures r == Err(IntentionalFailure(GetProcessPathOp))
              <==> pid in processes && processes[pid].doFailPath
      ensures r.Ok? <==> pid in processes && !processes[pid].doFailPath
      ensures r.Ok? ==> r.value == processes[pid].path
    {
      if pid !in processes then Err(PidNotExist(pid))
      else if processes[pid].doFailPath then Err(IntentionalFailure(GetProcessPathOp))
      else Ok(processes[pid].path)
    }

    function GetProcessCommandLine(pid: Uint32): (r: Result<string>)
      reads this
      ensures r == Err(PidNotExist(pid)) <==> pid !in processes
      ensures r == Err(IntentionalFailure(GetProcessCommandLineOp))
              <==> pid in processes && processes[pid].doFailCommandLine
      ensures r.Ok? <==> pid in processes && !processes[pid].doFailCommandLine
      ensures r.Ok? ==> r.value == processes[pid].commandLine
    {
      if pid !in processes then Err(PidNotExist(pid))
      else if processes[pid].doFailCommandLine then Err(IntentionalFailure(GetProcessCommandLineOp))
      else Ok(processes[pid].commandLine)
    }

    /** Sets the global memory-status failure switch, as the unit test writes the exported field. */
    method SetDoFailMemStatus(fail: bool)
      modifies this
      ensures doFailMemStatus == fail
      ensures memStatus == old(memStatus) && processes == old(processes)
      ensures GetMemoryStatus() == if fail then Err(IntentionalFailure(GetMemoryStatusOp)) else Ok(memStatus)
    {
      doFailMemStatus := fail;
    }

    /** Sets one process's memory-usage failure switch in place through its table entry. */
    method SetDoFailMemoryUsage(pid: Uint32, fail: bool)
      requires pid in processes
      modifies this
      ensures processes == old(processes)[pid := old(processes)[pid].(doFailMemoryUsage := fail)]
      ensures memStatus == old(memStatus) && doFailMemStatus == old(doFailMemStatus)
      ensures GetProcessMemoryUsage(pid)
              == if fail then Err(IntentionalFailure(GetProcessMemoryUsageOp)) else Ok(old(processes)[pid].memoryUsage)
      ensures forall q :: q != pid ==> GetProcessMemoryUsage(q) == old(GetProcessMemoryUsage(q))
      ensures forall q :: GetProcessPath(q) == old(GetProcessPath(q))
      ensures forall q :: GetProcessCommandLine(q) == old(GetProcessCommandLine(q))
      ensures GetMemoryStatus() == old(GetMemoryStatus())
    {
      processes := processes[pid := processes[pid].(doFailMemoryUsage := fail)];
    }

    /** Sets one process's path failure switch in place through its table entry. */
    method SetDoFailPath(pid: Uint32, fail: bool)
      requires pid in processes
      modifies this
      ensures processes == old(processes)[pid := old(processes)[pid].(doFailPath := fail)]
      ensures memStatus == old(memStatus) && doFailMemStatus == old(doFailMemStatus)
      ensures GetProcessPath(pid)
              == if fail then Err(IntentionalFailure(GetProcessPathOp)) else Ok(old(processes)[pid].path)
      ensures forall q :: q != pid ==> GetProcessPath(q) == old(GetProcessPath(q))
      ensures forall q :: GetProcessMemoryUsage(q) == old(GetProcessMemoryUsage(q))
      ensures forall q :: GetProcessCommandLine(q) == old(GetProcessCommandLine(q))
      ensures GetMemoryStatus() == old(GetMemoryStatus())
    {
      processes := processes[pid := processes[pid].(doFailPath := fail)];
    }

    /** Sets one process's command-line failure switch in place through its table entry. */
    method SetDoFailCommandLine(pid: Uint32, fail: bool)
      requires pid in processes
      modifies this
      ensures processes == old(processes)[pid := old(processes)[pid].(doFailCommandLine := fail)]
      ensures memStatus == old(memStatus) && doFailMemStatus == old(doFailMemStatus)
      ensures GetProcessCommandLine(pid)
              == if fail then Err(IntentionalFailure(GetProcessCommandLineOp)) else Ok(old(processes)[pid].commandLine)
      ensures forall q :: q != pid ==> GetProcessCommandLine(q) == old(GetProcessCommandLine(q))
      ensures forall q :: GetProcessMemoryUsage(q) == old(GetProcessMemoryUsage(q))
      ensures forall q :: GetProcessPath(q) == old(GetProcessPath(q))
      ensures GetMemoryStatus() == old(GetMemoryStatus())
    {
      processes := processes[pid := processes[pid].(doFailCommandLine := fail)];
    }
  }

  /** A freshly generated mock answers each facet of a PID below n with its seeded value. */
  lemma GeneratedAccessors(m: ProciMock, n: Int64, p: Uint32)
    requires m.processes == Generated(n) && p < n <= Uint32Limit
    ensures m.GetProcessMemoryUsage(p) == Ok(1000 + p)
    ensures m.GetProcessPath(p) == Ok("path_" + NatToString(p))
    ensures m.GetProcessCommandLine(p) == Ok("command_line_" + NatToString(p))
  {
  }

  /** Generating n processes, for any n up to 2^32, then listing them gives exactly the PIDs 0 .. n-1. */
  method ListingAfterGenerate(n: Int64) returns (pids: seq<Uint32>)
    requires 0 <= n <= Uint32Limit
    ensures |pids| == n
    ensures forall p: Uint32 :: p in pids <==> p < n
  {
    var pm := new ProciMock.GenerateMock(n);
    pids := pm.GetProcessPids();
    GeneratedSize(n);
  }

  /** The unit-test scenario of the mock: ten processes, then one switch per facet. */
  method MockScenario() returns (pids: seq<Uint32>)
    ensures |pids| == 10
    ensures forall p :: p in pids <==> 0 <= p < 10
  {
    var pm := new ProciMock.GenerateMock(10);
    pids := pm.GetProcessPids();
    GeneratedSize(10);

    GeneratedAccessors(pm, 10, 8);
    GeneratedAccessors(pm, 10, 3);
    GeneratedAccessors(pm, 10, 9);
    assert "path_" + NatToString(3) == "path_3";
    assert "command_line_" + NatToString(9) == "command_line_9";
    assert pm.GetProcessMemoryUsage(8) == Ok(1008);
    pm.SetDoFailMemoryUsage(8, true);
    assert pm.GetProcessMemoryUsage(8).Err?;
    assert pm.GetProcessMemoryUsage(1234) == Err(PidNotExist(1234));

    assert pm.GetProcessPath(3) == Ok("path_3");
    pm.SetDoFailPath(3, true);
    assert pm.GetProcessPath(3).Err?;
    assert pm.GetProcessPath(1234) == Err(PidNotExist(1234));

    assert pm.GetProcessCommandLine(9) == Ok("command_line_9");
    pm.SetDoFailCommandLine(9, true);
    assert pm.GetProcessCommandLine(9).Err?;
    assert pm.GetProcessCommandLine(1234) == Err(PidNotExist(1234));

    assert pm.GetMemoryStatus() == Ok(MemoryStatus(50, 4 * 1024 * 1024 * 1024, 2 * 1024 * 1024 * 1024));
    pm.SetDoFailMemStatus(true);
    assert pm.GetMemoryStatus().Err?;
  }
}
