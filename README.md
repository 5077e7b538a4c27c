# proci mock backend in Dafny

proci is a Go library that queries process information: the physical memory
status, the list of process identities (PIDs), and each process's memory
usage, executable path and command line. Callers use it through an interface
with two implementations. One is a Windows backend built on native calls. The
other is `ProciMock`, an in-memory fake for unit tests. This project models the
mock backend (`procimock.go`) and the `MemoryStatus` record it shares with the
interface (`proci.go`).

The model has three modules:

- `Proci` (`proci.dfy`): Go's fixed-width integers (`Uint32`, `Uint64`, `Int64`),
  the `uint32(i)` truncation (`ToUint32`), Go's wrapping int64 addition and
  its `uint64` conversion, and the `MemoryStatus` record with
  the `Plausible` predicate (load at most 100 %, available at most total).
- `Decimal` (`decimal.dfy`): `NatToString`, the decimal rendering done by
  `fmt.Sprintf("%d", i)` for non-negative `i`. `ParseDecimal` reads a rendering
  back, and lemmas prove that round trip and injectivity.
- `Mock` (`procimock.dfy`): the `ProcessMock` entry (three facets and three
  failure switches), the error kinds, and the class `ProciMock`. The class holds
  the memory status, its failure switch and the process table as a
  `map<Uint32, ProcessMock>`.
  - The `GenerateMock` constructor runs the source's counting loop. Its
    invariant ties the partial table to `Generated(i)`, a closed-form definition
    of the table the first `i` steps build.
  - The four accessors are functions over the object. `GetProcessPids` is a
    method that drains the key set the way the source's map iteration does.
  - The tests write the failure switches in place (`pm.Processes[8].DoFailMemoryUsage = true`).
    Four setter methods model these writes. Each one states that only its own
    accessor for its own PID changes outcome.
  - `MockScenario` replays the unit test `TestMock` against these contracts.

`GenerateMock` computes each PID as `uint32(i)` from a Go `int` counter. The
model keeps that truncation: when more than 2^32 processes are requested, later
steps overwrite earlier entries. `LastIndex` names the step whose entry
survives. For counts up to 2^32 the table holds exactly the PIDs `0 .. n-1`,
each with its seeded values (`GeneratedEntry`, `GeneratedSize`). The memory
usage is `uint64(1000 + i)`, modelled with Go's wrapping int64 addition
(`AddInt64`) and two's-complement conversion (`Int64ToUint64`);
`WrappedSumAsUint64` proves the result is `1000 + i` for every reachable `i`.

The mock differs from the Windows backend in ways the model keeps:

- The mock has only two error kinds: "PID does not exist" and "intentional
  failure". It never reports the "Access Denied" error that the command-line
  query of the Windows backend can give (proci.go:38-43).
- PID 0 is the idle process on Windows (proci.go:21-22). The mock lists PID 0
  only when at least one process is generated, and answers queries on it like
  any other PID.
- The `MemoryLoad` field is documented as a percentage from 0 to 100
  (proci.go:7), but the mock's fields are exported and nothing checks them.
  `Plausible` is proved for the status `GenerateMock` installs, not kept as an
  object invariant.

## Model

| member | source | states |
|---|---|---|
| Proci.ToUint32 | procimock.go:33 | the uint32 conversion keeps the residue modulo 2^32 and leaves values below 2^32 unchanged |
| Proci.AddInt64 | procimock.go:38 | Go's `int` addition on a 64-bit target: the result lies in the int64 range and is congruent to the exact sum modulo 2^64 |
| Proci.Int64ToUint64 | procimock.go:38 | Go's `uint64(x)` of an int64: congruent to x modulo 2^64, and x itself when x is non-negative |
| Proci.WrappedSumAsUint64 | procimock.go:38 | a wrapped int64 sum converted to uint64 equals the exact sum whenever that sum fits in 64 unsigned bits, so `uint64(1000 + i)` is 1000+i |
| Decimal.NatToString | procimock.go:36-37 | the `%d` rendering is non-empty, consists of decimal digits only and has no leading zero |
| Decimal.ParseNatToString | procimock.go:36-37 | reading back the decimal rendering of n gives n |
| Decimal.NatToStringInjective | procimock.go:36-37 | two numbers render to the same decimal string if and only if they are equal |
| Decimal.PrefixedInjective | procimock.go:36-37 | `prefix + %d` strings of two numbers are equal if and only if the numbers are equal |
| Mock.GeneratedMemoryStatus | procimock.go:30 | the generated status has load 50, total 4·1024³, available 2·1024³, so load ≤ 100 and available ≤ total |
| Mock.SyntheticProcess | procimock.go:33-41 | the entry built at step i has Pid uint32(i), memory usage 1000+i and all three switches off |
| Mock.SyntheticProcessNames | procimock.go:36-37 | the path of step i is `path_` followed by decimal digits that read back as i, and the command line is `command_line_` followed by the same |
| Mock.LastIndex | procimock.go:32-33 | for a PID p below n, names the step i < n with uint32(i) = p; no later step below n has that PID |
| Mock.Generated | procimock.go:31-43 | the table the loop builds has exactly the keys p < n (keys 0 .. n-1 when n ≤ 2^32); each key holds the entry of the last step that wrote it |
| Mock.GeneratedEmpty | procimock.go:32 | a count ≤ 0 generates an empty table |
| Mock.GeneratedStep | procimock.go:32-43 | one more loop step stores exactly the entry of step i under uint32(i) and leaves every other key as it was |
| Mock.GeneratedEntry | procimock.go:33-42 | for p < n ≤ 2^32, PID p is present with Pid p, path `path_p`, command line `command_line_p`, memory usage 1000+p and all three switches off |
| Mock.GeneratedSize | procimock.go:29-43 | the generated table has n entries for 0 ≤ n ≤ 2^32, none for n ≤ 0, and 2^32 when n exceeds that |
| Mock.GeneratedPidsMatchKeys | procimock.go:33-42 | every generated entry's Pid field equals the key it is stored under |
| Mock.GeneratedFacetsDistinct | procimock.go:36-37 | two different generated PIDs never share a path or a command line |
| Mock.GeneratedAccessors | procimock_test.go:16-58 | on a freshly generated mock, each accessor for a PID below n returns its seeded value |
| Mock.ProciMock.GenerateMock | procimock.go:29-48 | the constructor installs the generated status with its switch off and a table equal to `Generated(n)`; loop invariant ties the partial table to `Generated(i)` |
| Mock.ProciMock.GetMemoryStatus | procimock.go:50-55 | fails with an intentional failure if and only if the global switch is set; otherwise returns the stored status |
| Mock.ProciMock.GetProcessPids | procimock.go:57-63 | returns every key of the table exactly once, no other value, with length equal to the table size |
| Mock.ProciMock.GetProcessMemoryUsage | procimock.go:65-74 | an absent PID fails with "does not exist" (before any switch is read); a present PID fails if and only if its memory-usage switch is set; otherwise returns the stored usage |
| Mock.ProciMock.GetProcessPath | procimock.go:76-85 | an absent PID fails with "does not exist"; a present PID fails if and only if its path switch is set; otherwise returns the stored path |
| Mock.ProciMock.GetProcessCommandLine | procimock.go:87-96 | an absent PID fails with "does not exist"; a present PID fails if and only if its command-line switch is set; otherwise returns the stored command line |
| Mock.ListingAfterGenerate | procimock_test.go:9-13 | for every count n up to 2^32, GenerateMock(n) followed by GetProcessPids lists exactly n distinct PIDs, namely those below n |
| Mock.MockScenario | procimock_test.go:8-83 | replays the unit test: the listing of ten generated processes is exactly PIDs 0 .. 9 (the ensures); the body's verified assertions add that PIDs 8, 3 and 9 return their seeded values, each switch makes only its own query fail, PID 1234 does not exist, and the memory-status switch makes GetMemoryStatus fail |
| Mock.ProciMock.SetDoFailMemStatus | procimock_test.go:79 | setting the global switch decides GetMemoryStatus's outcome and changes no other field |
| Mock.ProciMock.SetDoFailMemoryUsage | procimock_test.go:23 | setting one PID's memory-usage switch changes only that PID's memory-usage outcome; every other PID/accessor pair and the memory status answer as before |
| Mock.ProciMock.SetDoFailPath | procimock_test.go:41 | setting one PID's path switch changes only that PID's path outcome; every other PID/accessor pair and the memory status answer as before |
| Mock.ProciMock.SetDoFailCommandLine | procimock_test.go:59 | setting one PID's command-line switch changes only that PID's command-line outcome; every other PID/accessor pair and the memory status answer as before |

## Left out

- proci_windows.go is not part of this model. It consists of native Windows calls: privilege elevation at load time, GlobalMemoryStatusEx, EnumProcesses, GetProcessMemoryInfo, GetProcessImageFileNameW, and reads of another process's environment block. None of it can be stated without the operating system.
- The exported functions of proci.go are one-line delegations to the Windows backend. Only the `MemoryStatus` record is modelled.
- Error messages are reduced to their kind: `PidNotExist(pid)` or `IntentionalFailure(operation)`. The exact `fmt.Errorf` text is not modelled. On an error the source also returns a zero value (0, "" or nil), which the `Result` datatype leaves out.
- Go map iteration order is not modelled. `GetProcessPids` picks the next key nondeterministically, so its contract holds for every order.
- Pointer aliasing is not modelled. The source stores `*MemoryStatus` and `*ProcessMock`, and `GetMemoryStatus` hands out the stored pointer, so a caller could mutate the mock through it. The model stores values and returns a copy. A nil `MemStatus` in a hand-built mock is not modelled.
- Mock.ProciMock.SetDoFailMemoryUsage, Mock.ProciMock.SetDoFailPath and Mock.ProciMock.SetDoFailCommandLine require the PID to be present. In Go, writing a switch through `pm.Processes[pid]` for an absent PID dereferences nil and panics.
- Building a `ProciMock` directly from a struct literal, instead of through `GenerateMock`, is not modelled.
- Proci.Int64: Go's `int` is taken to be 64 bits wide, as on the 64-bit Windows targets. On a 32-bit target `int` is 32 bits wide. Then `1000 + i` overflows for i > 2^31−1001, and `uint64` of the negative result sign-extends, so MemoryUsage would not equal 1000+i. The count itself stays below 2^31, so no PID is overwritten. That case is not modelled.
