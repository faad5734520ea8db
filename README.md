# The array-sum JIT kernel, modelled in Dafny

The repository builds one small LLVM function at run time, `sumfunc(arr:
i64*, count: i64) -> i64`. It returns 0 when `count == 0` and otherwise the
sum of the first `count` elements of `arr`. `generateFunction` emits it in
two encodings:

- `sum.cpp` uses SSA form. Block `check` tests `count == 0`. Block `loop`
  merges `i` and `sum` with phi nodes, loads `arr[i]` and adds it with
  `add nsw`. Block `exit` returns a phi fed by 0 from `check` and by `nsum`
  from `loop`.
- `sumDebug.cpp` keeps `arr`, `count`, `sum` and `i` in `alloca` stack
  slots, which it stores and reloads, and adds with a plain wrapping `add`.
  Every instruction after the prologue gets a debug location in the
  function's subprogram. A `DIBuilder` creates four local-variable
  descriptors, binds each to its slot with `llvm.dbg.declare`, and calls
  `finalize` once before the function is published.

The model has these parts:

- an IR graph: an arena of named blocks holding instructions. Values refer
  to earlier instructions by their handle.
- the construction API as classes with mutable state: `FunctionDef`,
  `IRBuilder`, `DIBuilder` and `Module`.
- each `generateFunction` as a method that drives that API step by step.
  Its postcondition states that it produces a fixed reference function.
- a small-step interpreter over a caller-supplied array of i64 values. It
  covers parallel phis, `icmp eq`, `add` with and without `nsw` (poison on
  overflow), `getelementptr`, `load`, `store` to the array or to a slot,
  `alloca`, `br` and `ret`.
- proofs that both kernels meet a common reference specification
  (`SumSpec.KernelSpec`), that both are structurally well formed, and that
  the debug kernel's debug information agrees with its descriptors.

Modules:

| module | contents |
|---|---|
| `I64` | i64 range and wrap-around |
| `Ir` | IR datatypes, the `Module` class, structural well-formedness |
| `IrBuilder` | the `FunctionDef` and `IRBuilder` classes |
| `DebugMeta` | descriptor handling and the `DIBuilder` class |
| `Interp` | the interpreter and its driver loop |
| `Steps` | one-instruction lemmas about the interpreter |
| `SumSpec` | the reference specification |
| `SumKernel` | `sum.cpp` |
| `SumDebugKernel` | `sumDebug.cpp` |

Where the description of the code and the code disagree, the model follows
the code. The debug location is first set at sumDebug.cpp:149. The `alloca`s
of `sum` and `i` (sumDebug.cpp:141, 145) therefore also carry no location,
so the unset prologue holds four slots and two parameter stores, not just
the two `arr` and `count` slots and their stores.

A call can also fail to terminate in the source. The exit test is
`ni == count` (sum.cpp:64, sumDebug.cpp:188), so a negative `count`, or
one past the array, loops until a load leaves the caller's array. The
interpreter can see that array's bounds, so such a call ends in an
`OutOfBounds` fault.

## Model

| member | source | states |
|---|---|---|
| I64.Wrap | sumDebug.cpp:170-176 | the two's-complement truncation a plain `add` performs: the result is an i64, congruent to the exact sum modulo 2^64, and equal to it when it fits |
| I64.WrapCongruent | sumDebug.cpp:170-176 | integers equal modulo 2^64 truncate to the same i64 |
| I64.WrapAdd | sumDebug.cpp:170-176 | wrapping the running sum before each addition gives the wrapped exact sum |
| Ir.Module.constructor | sumDebug.cpp:31-34 | a new module has its name and contains no functions and no debug information |
| Ir.Module.AddFunction | sum.cpp:32 | the function is added to the module's function list and nothing else changes |
| Ir.Module.AddDebugInfo | sumDebug.cpp:201 | the finalized descriptors are appended to the module |
| Ir.AppendInstr | sum.cpp:46-85 | appending keeps the arena's size and every other block, and extends only the target block, by exactly the new instruction |
| Ir.AddPhiIncoming | sum.cpp:69-75 | `addIncoming` adds one (value, block) entry to the chosen phi and changes no other instruction or block |
| IrBuilder.FunctionDef.Create | sum.cpp:32 | the new function has the given name, linkage and signature, and no blocks or subprogram |
| IrBuilder.FunctionDef.SetArgName | sum.cpp:41-43 | the argument gets the name, its type is kept, and the other arguments are unchanged |
| IrBuilder.FunctionDef.SetSubprogram | sumDebug.cpp:112 | the function's subprogram is the given descriptor |
| IrBuilder.FunctionDef.AppendBlock | sum.cpp:34-36 | `BasicBlock::Create` appends an empty named block at the end and returns its index |
| IrBuilder.FunctionDef.Append | sum.cpp:46 | the instruction goes at the end of the block under a fresh handle, and the returned value refers to that handle |
| IrBuilder.FunctionDef.AddIncoming | sum.cpp:69-75 | the phi grows in place by one incoming edge |
| IrBuilder.IRBuilder.constructor | sum.cpp:37 | the builder inserts at the end of the given block, with no debug location |
| IrBuilder.IRBuilder.SetInsertPoint | sum.cpp:50 | later instructions go to the given block |
| IrBuilder.IRBuilder.SetCurrentDebugLocation | sumDebug.cpp:121 | later instructions carry the given location, which may be unset |
| IrBuilder.IRBuilder.Emit | sumDebug.cpp:149-198 | each instruction the builder creates goes at the end of the current block under the builder's current location: unset in the prologue after :121, in the subprogram from :149 on |
| IrBuilder.IRBuilder.CreateICmpEQ | sum.cpp:46 | appends `icmp eq` with the current location and returns its value |
| IrBuilder.IRBuilder.CreateAdd | sum.cpp:60-62 | appends `add` with or without `nsw` |
| IrBuilder.IRBuilder.CreateGEP | sum.cpp:56 | appends `getelementptr` |
| IrBuilder.IRBuilder.CreateLoad | sum.cpp:58 | appends `load` |
| IrBuilder.IRBuilder.CreateStore | sumDebug.cpp:137-138 | appends `store` |
| IrBuilder.IRBuilder.CreateAlloca | sumDebug.cpp:129-130 | appends `alloca` and returns the slot's pointer |
| IrBuilder.IRBuilder.CreateCondBr | sum.cpp:48 | appends a conditional branch |
| IrBuilder.IRBuilder.CreateRet | sum.cpp:85 | appends `ret` |
| IrBuilder.IRBuilder.CreatePHI | sum.cpp:52-54 | appends an empty phi and returns a handle through which its edges are added later |
| DebugMeta.Preserved | sumDebug.cpp:201 | the variables `finalize` makes a subprogram retain: exactly those scoped to it and created with AlwaysPreserve, each once, in creation order |
| DebugMeta.PreservedPrefix | sumDebug.cpp:132-147 | when a subprogram's first variables are created with AlwaysPreserve (the parameters at :132 and :134) and the later ones without it (the locals at :142 and :146, which take the default), the subprogram retains exactly the first ones |
| DebugMeta.DIBuilder.constructor | sumDebug.cpp:86 | a new builder for the module, with no descriptors yet |
| DebugMeta.DIBuilder.CreateFunction | sumDebug.cpp:105-111 | appends a subprogram descriptor with its names and subroutine type, retaining nothing yet |
| DebugMeta.DIBuilder.CreateParameterVariable | sumDebug.cpp:132 | appends a parameter variable, recording the argument number exactly as given and the AlwaysPreserve flag, which is false unless the caller passes it |
| DebugMeta.DIBuilder.CreateAutoVariable | sumDebug.cpp:142 | appends a local variable with argument number 0, without AlwaysPreserve unless the caller passes it |
| DebugMeta.DIBuilder.InsertDeclare | sumDebug.cpp:133 | appends `llvm.dbg.declare(storage, variable)` to the block with its own location, whatever the builder's location is |
| DebugMeta.DIBuilder.Finalize | sumDebug.cpp:201 | every subprogram retains the variables scoped to it that were created with AlwaysPreserve, and the descriptors are committed to the module once |
| Interp.AddValues | sum.cpp:60 | `add`: poison if either operand is poison; with `nsw`, poison on signed overflow and otherwise the exact sum; without `nsw`, the sum modulo 2^64 |
| Interp.IncomingValue | sum.cpp:69-75 | the value a phi takes on entry from a block: defined exactly when that block is one of the phi's incoming blocks, and then the value of one of its (value, block) entries |
| Interp.EnterPhis | sum.cpp:52-54 | on entry to a block its leading phis are evaluated together on the registers as they were before the branch; execution resumes inside the block, and only phis are skipped |
| Interp.LoadStep | sumDebug.cpp:164-167 | `load`: a read of the caller's array counts one read and a read of a slot none; neither changes the array or the slots |
| Interp.StoreStep | sumDebug.cpp:137-138 | `store`: the array keeps its size and the read count is unchanged |
| Interp.CondBrStep | sum.cpp:66 | a conditional branch changes neither the array nor the read count |
| Interp.ExecOp | sumDebug.cpp:129-198 | the meaning of each emitted instruction kind: `icmp eq`, `add` and `getelementptr` define their register, `load` and `store` act on the array or a slot, `alloca` makes a fresh slot, `llvm.dbg.declare` does nothing, `br` enters its target through its phis and `ret` ends the call; a phi after block entry is malformed |
| Interp.Step | sum.cpp:46-85 | one step executes the instruction at the program counter; a position outside the function is malformed |
| Interp.Exec | sum.cpp:46-85 | runs at most `fuel` steps and stops at the first `ret` or fault |
| Interp.Call | sum.cpp:209 | `fn(data, size)`: execution starts at the entry block with `arr` and `count` bound, the caller's array as memory and no reads yet |
| Interp.StepReads | sum.cpp:58 | one step reads at most one array element and does not change the array |
| Interp.ExecReads | sum.cpp:58 | a run of `fuel` steps reads at most `fuel` elements |
| Interp.Run | sum.cpp:209 | the driver loop's outcome is the outcome of executing the call with the same budget, and a returned call read at most that many elements |
| Steps.StepCompute | sum.cpp:60-64 | executing `icmp eq`, `add` or `getelementptr` defines its register and moves to the next instruction |
| Steps.StepLoadArray | sum.cpp:58 | a load inside the array reads the element and counts the read |
| Steps.StepLoadOutside | sum.cpp:58 | a load outside the array faults |
| Steps.StepLoadSlot | sumDebug.cpp:172 | a load from a slot yields what was last stored into it |
| Steps.StepStoreSlot | sumDebug.cpp:170-176 | a store replaces the slot's contents |
| Steps.StepAlloca | sumDebug.cpp:129 | an `alloca` makes a fresh, uninitialised slot |
| Steps.StepDeclare | sumDebug.cpp:133 | `llvm.dbg.declare` has no effect on the computation |
| Steps.StepBranch | sum.cpp:48 | a conditional branch on a defined boolean enters the chosen block |
| Steps.StepRet | sum.cpp:85 | `ret` ends the call with its operand's value and the reads made so far |
| Steps.EnterNoPhi | sumDebug.cpp:159 | a block with no phi is entered at its first instruction |
| Steps.EnterOnePhi | sum.cpp:79-83 | a single phi takes the value from the incoming edge control came from |
| Steps.EnterTwoPhis | sum.cpp:52-54 | two phis are evaluated together on the register file as it was before the branch |
| SumSpec.SumPrefixStep | sum.cpp:59-60 | the sum of a prefix one element longer adds that element |
| SumSpec.Sum | sum.cpp:55-62 | the mathematical sum of a sequence of integers |
| SumSpec.Acc | sum.cpp:60 | the accumulator after `k` elements: with `nsw`, the exact sum when every running sum fits in an i64 and poison otherwise; without, the exact sum modulo 2^64 |
| SumSpec.LoopSpec | sum.cpp:50-66 | the loop from iteration `k` with accumulator `s`: past the array it faults; otherwise it adds `arr[k]`, returns the new accumulator when `k + 1 == count` and goes on from `k + 1` when not |
| SumSpec.KernelSpec | sum.cpp:45-85 | the reference meaning of `sumfunc`: 0 without a read when `count == 0`, otherwise the loop from iteration 0 with accumulator 0 |
| SumSpec.AccStep | sum.cpp:60 | one iteration adds the next element to the accumulator: the exact sum while no running sum overflows under `nsw`, poison after an overflow, and the wrapped sum without `nsw` |
| SumSpec.LoopReachesCount | sum.cpp:63-66 | from iteration `k < count <= |arr|` with the accumulator of `k` elements, the loop returns the accumulator of `count` elements after reading `count` |
| SumSpec.LoopRunsOffEnd | sum.cpp:63-66 | when `count` is already passed or lies beyond the array, the loop reads past the end |
| SumSpec.KernelSpecSum | sum.cpp:45-85 | for `0 <= count <= |arr|` the kernel returns the accumulated sum of `arr[..count]` after reading `count` elements, and 0 without reading when `count == 0` |
| SumSpec.KernelSpecOutOfRange | sum.cpp:63-66 | a negative `count`, or one beyond the array, reads past the end |
| SumSpec.IotaSum | sum.cpp:205-206 | 0 + 1 + ... + (n-1) = n(n-1)/2 |
| SumSpec.IotaBounded | sum.cpp:205-206 | each running sum of 0, 1, ... up to 2^31 elements is bounded |
| SumSpec.IotaFits | sum.cpp:205-209 | for up to 2^31 elements no running sum of 0, 1, 2, ... overflows i64, and the sum is n(n-1)/2 |
| SumKernel.GenerateFunction | sum.cpp:25-88 | builds `sumfunc` step by step and adds it to the module; it has external linkage and signature `(i64*, i64) -> i64`, it is the reference phi kernel, and it is well formed |
| SumKernel.PhiKernel | sum.cpp:31-85 | the function sum.cpp emits: signature, linkage, argument names and the three blocks instruction by instruction |
| SumKernel.DeclareFunction | sum.cpp:30-43 | a fresh `sumfunc` with external linkage, the signature `(i64*, i64) -> i64`, arguments named `arr` and `count`, and the empty blocks `check`, `loop` and `exit` in that order |
| SumKernel.EmitCheck | sum.cpp:45-48 | `check` holds `nullcheck = (count == 0)` and the branch to `exit` or `loop` |
| SumKernel.EmitLoop | sum.cpp:50-75 | `loop` complete: the body and back branch, then the phis connected to `check` and to `loop` itself |
| SumKernel.EmitLoopBody | sum.cpp:50-66 | the empty phis, then `addr`, `val`, `nsum`, `ni`, `cond` and the branch, with handles to the phis for `addIncoming` |
| SumKernel.EmitLoopPhis | sum.cpp:50-54 | the empty `i` and `sum` phis at the head of `loop` |
| SumKernel.EmitLoopSum | sum.cpp:55-60 | `addr`, `val` and `nsum = sum + val` with `nsw` |
| SumKernel.EmitLoopTest | sum.cpp:61-66 | `ni = i + 1`, `cond = (ni == count)` and the branch |
| SumKernel.ConnectLoopPhis | sum.cpp:67-75 | the `i` phi gets `ni` from `loop` and 0 from `check`; the `sum` phi gets `nsum` and 0 |
| SumKernel.EmitExitPhi | sum.cpp:77-83 | the `ret` phi gets 0 from `check` and `nsum` from `loop` |
| SumKernel.EmitExit | sum.cpp:77-85 | `exit` holds the `ret` phi and `ret` |
| SumKernel.PhiKernelShape | sum.cpp:34-36 | three blocks named `check`, `loop` and `exit`; `check` and `loop` branch to `exit` or `loop`, and `exit` branches nowhere |
| SumKernel.PhiKernelPredecessors | sum.cpp:48-66 | nothing branches to `check`; `loop` and `exit` each have the predecessors {check, loop} |
| SumKernel.PhiKernelBlocks | sum.cpp:48-85 | every block ends in exactly one terminator, and phis come first |
| SumKernel.PhiKernelPhis | sum.cpp:69-83 | every phi has one entry per predecessor, and its incoming blocks are exactly the predecessors |
| SumKernel.PhiKernelWellFormed | sum.cpp:25-88 | the emitted function is structurally well formed |
| SumKernel.MissingIncomingRejected | sum.cpp:75 | leaving out the `sum` phi's edge from `check` makes the function ill formed |
| SumKernel.EnterLoop | sum.cpp:52-75 | entering `loop` sets `i` and `sum` together: to 0 from `check`, and to `ni` and `nsum` from `loop` |
| SumKernel.EnterExit | sum.cpp:79-83 | entering `exit` sets `ret` to 0 from `check` and to `nsum` from `loop` |
| SumKernel.LoopBody | sum.cpp:55-66 | with `i = k` and `sum = s`, the body reads `arr[k]` and computes `nsum = s + arr[k]` (nsw), `ni = k + 1` and `cond = (ni == count)` |
| SumKernel.NextIteration | sum.cpp:66-75 | when `ni != count`, `ni` and `nsum` flow back along the self-edge into `i` and `sum` |
| SumKernel.LastIteration | sum.cpp:63-85 | when `ni == count`, `nsum` is returned |
| SumKernel.ReadPastEnd | sum.cpp:56-58 | with `i = |arr|` the load leaves the array |
| SumKernel.LoopRuns | sum.cpp:50-85 | from any loop entry where `sum` is the accumulator of `arr[..i]`, the kernel behaves as the reference loop |
| SumKernel.NullCheck | sum.cpp:46 | the first step of every call computes `nullcheck = (count == 0)` without reading the array |
| SumKernel.StartLoop | sum.cpp:48-54 | `count != 0` enters `loop` with `i = 0` and `sum = 0` |
| SumKernel.ZeroCount | sum.cpp:45-85 | `count == 0` goes from `check` straight to `exit` and returns the 0 from `check` without reading the array |
| SumKernel.KernelMeetsSpec | sum.cpp:25-88 | any function with the kernel's code behaves as the reference specification with `nsw` addition |
| SumKernel.PhiKernelMeetsSpec | sum.cpp:25-88 | the emitted phi kernel behaves as the reference with `nsw` |
| SumKernel.PhiKernelSum | sum.cpp:60-85 | for `0 <= count <= |arr|`: the sum of `arr[..count]` when no running sum overflows, and poison when one does; `count` elements are read |
| SumKernel.PhiKernelZeroCount | sum.cpp:45-81 | `count == 0` returns 0 in three steps without a read, whatever the array is |
| SumKernel.PhiKernelOutOfRange | sum.cpp:63-66 | a negative or too-large `count` reads past the array |
| SumKernel.PhiKernelIota | sum.cpp:205-209 | on 0, 1, ..., n-1 (n up to 2^31) the kernel returns n(n-1)/2 |
| SumDebugKernel.JitFunction.constructor | sumDebug.cpp:31-34 | the wrapper owns a fresh empty module named `test` and has no function yet |
| SumDebugKernel.DebugKernel | sumDebug.cpp:100-198 | the function sumDebug.cpp emits: signature, linkage, unnamed arguments, the subprogram and the three blocks instruction by instruction with their locations |
| SumDebugKernel.Variables | sumDebug.cpp:132-146 | the four variable descriptors in creation order, with the argument numbers and AlwaysPreserve flags the code passes |
| SumDebugKernel.DebugKernelInfo | sumDebug.cpp:201 | the descriptors `finalize` commits: the subprogram, retaining `arr` and `count`, and the four variables |
| SumDebugKernel.GenerateFunction | sumDebug.cpp:84-204 | as written: builds the slot kernel step by step, commits its descriptors with the argument numbers and pointer alignment the code passes and with the subprogram retaining `arr` and `count` only, and adds and publishes the function |
| SumDebugKernel.CorrectedGenerateFunction | sumDebug.cpp:84-204 | the same with parameters numbered 1 and 2 and the pointer alignment left unspecified; the subprogram again retains `arr` and `count` only |
| SumDebugKernel.GenerateFunctionWith | sumDebug.cpp:84-204 | after building, `finalize` runs once and commits exactly one set of descriptors, in which the subprogram retains the two AlwaysPreserve parameters and not `sum` or `i`; only then is the well-formed function added to the module and stored as the published handle |
| SumDebugKernel.BuildKernel | sumDebug.cpp:92-198 | everything before `finalize`: the function equals the reference slot kernel; one subprogram and four variable descriptors have been created |
| SumDebugKernel.EmitCheck | sumDebug.cpp:120-159 | `check` in order: the unset prologue, the four descriptors, both locals set to 0, and the test and branch |
| SumDebugKernel.EmitArgSlots | sumDebug.cpp:128-130 | the `arr` and `count` slots, with no location |
| SumDebugKernel.DescribeArgs | sumDebug.cpp:131-135 | two parameter descriptors, each declared on its slot with its own location |
| SumDebugKernel.StoreArgs | sumDebug.cpp:136-138 | the raw parameters stored into their slots, with no location |
| SumDebugKernel.DeclareLocal | sumDebug.cpp:140-147 | a slot for `sum` or `i`, its automatic-variable descriptor, and its declare |
| SumDebugKernel.InitLocals | sumDebug.cpp:149-152 | `sum` and `i` set to 0, each under a location in the subprogram |
| SumDebugKernel.EmitNullCheck | sumDebug.cpp:154-159 | `nullcheck = (count == 0)` and the branch to `exit` on true and `loop` on false |
| SumDebugKernel.EmitLoop | sumDebug.cpp:161-191 | `loop` in order: fetch, accumulate, advance, test |
| SumDebugKernel.EmitFetch | sumDebug.cpp:162-167 | `addr = arr + load(i)` and `val = load(addr)` on the raw `arr` |
| SumDebugKernel.EmitAccumulate | sumDebug.cpp:168-176 | `store(load(sum) + val, sum)` with a plain `add` |
| SumDebugKernel.EmitAdvance | sumDebug.cpp:177-185 | `store(load(i) + 1, i)` |
| SumDebugKernel.EmitLoopTest | sumDebug.cpp:186-191 | `cond = (load(i) == count)` on the raw `count`, and the branch |
| SumDebugKernel.EmitExit | sumDebug.cpp:193-198 | `exit` returns `load(sum)` |
| SumDebugKernel.FinalizeRetainsParameters | sumDebug.cpp:132-201 | after `finalize`, `sumfunc`'s subprogram retains exactly `arr` and `count`, the variables created with AlwaysPreserve, and neither `sum` nor `i` |
| SumDebugKernel.DebugKernelShape | sumDebug.cpp:115-117 | three blocks `check`, `loop` and `exit`; `check` and `loop` branch to `exit` or `loop`, and `exit` branches nowhere |
| SumDebugKernel.DebugKernelPredecessors | sumDebug.cpp:159-191 | `loop` and `exit` each have the predecessors {check, loop}, and nothing enters `check` |
| SumDebugKernel.DebugKernelTerminators | sumDebug.cpp:159-198 | every block ends in exactly one terminator: conditional branch, conditional branch, `ret` |
| SumDebugKernel.DebugKernelNoPhis | sumDebug.cpp:161-198 | the slot encoding has no phi at all |
| SumDebugKernel.DebugKernelWellFormed | sumDebug.cpp:84-204 | the emitted function is structurally well formed |
| SumDebugKernel.CheckRuns | sumDebug.cpp:120-156 | `check` up to its branch: the parameters stored, `sum` and `i` both 0 in their slots, `nullcheck = (count == 0)`, nothing read |
| SumDebugKernel.ExitReturns | sumDebug.cpp:193-198 | `exit` returns what the `sum` slot holds |
| SumDebugKernel.ZeroCount | sumDebug.cpp:155-198 | `count == 0` branches to `exit`, which returns the 0 still in `sum`; the array is not read |
| SumDebugKernel.StartLoop | sumDebug.cpp:149-159 | `count != 0` enters `loop` with 0 in both slots |
| SumDebugKernel.LoopAccumulate | sumDebug.cpp:163-176 | `val = arr[*i]` is read, and the `sum` slot becomes `*sum + val` (wrapping) |
| SumDebugKernel.LoopAdvance | sumDebug.cpp:178-188 | the `i` slot becomes `k + 1`, and `cond = (k + 1 == count)` |
| SumDebugKernel.LoopBody | sumDebug.cpp:163-191 | with `i = k` and `sum = s` in the slots, the body leaves `k + 1` and `s + arr[k]` (wrapping) in them and tests `k + 1 == count` |
| SumDebugKernel.ExitFromLoop | sumDebug.cpp:191-198 | when `cond` holds, the value in the `sum` slot is returned |
| SumDebugKernel.BackEdge | sumDebug.cpp:191 | otherwise control returns to the top of `loop`, with the slots unchanged |
| SumDebugKernel.ReadPastEndWith | sumDebug.cpp:164-167 | with `*i = |arr|` the load leaves the array |
| SumDebugKernel.LoopRuns | sumDebug.cpp:161-198 | from any loop entry, the kernel behaves as the reference loop with plain addition, the slots carrying `i` and `sum` |
| SumDebugKernel.KernelMeetsSpec | sumDebug.cpp:120-198 | any function with the slot kernel's code behaves as the reference with plain addition |
| SumDebugKernel.DebugKernelMeetsSpec | sumDebug.cpp:84-204 | the emitted slot kernel behaves as the reference with plain addition |
| SumDebugKernel.DebugKernelSum | sumDebug.cpp:163-198 | for `0 <= count <= |arr|` it returns the sum of `arr[..count]` modulo 2^64 after reading `count` elements |
| SumDebugKernel.DebugKernelZeroCount | sumDebug.cpp:155-198 | `count == 0` returns 0 without a read, whatever the array is |
| SumDebugKernel.DebugKernelOutOfRange | sumDebug.cpp:186-191 | a negative or too-large `count` reads past the array |
| SumDebugKernel.DebugKernelIota | sumDebug.cpp:244-249 | on 0, 1, ..., n-1 (n up to 2^31) the kernel returns n(n-1)/2 |
| SumDebugKernel.KernelsAgree | sumDebug.cpp:169-176 | when no running sum overflows, both encodings return the same value, the sum of `arr[..count]`; when one does, the phi kernel's `add nsw` gives poison and the slot kernel's plain `add` gives the wrapped sum |
| SumDebugKernel.DebugKernelLocations | sumDebug.cpp:120-197 | the location is unset exactly on the prologue, which holds only the four `alloca`s and the two parameter stores; every other instruction has a location in `sumfunc`'s subprogram |
| SumDebugKernel.DebugKernelDescriptors | sumDebug.cpp:132-147 | four descriptors, each bound by a declare to the `alloca` of its own name; `sum` and `i` are automatic variables; only `arr` and `count` are created with AlwaysPreserve; these four are the only declares |
| SumDebugKernel.ParameterSlotsUnread | sumDebug.cpp:164-188 | the parameters' slots are never loaded; the loop uses raw `arr` and raw `count` |
| SumDebugKernel.DebugKernelInfoAgrees | sumDebug.cpp:149-201 | every location lies in the function's subprogram, every declared variable is scoped to it, and the subprogram retains exactly the variables created with AlwaysPreserve |
| SumDebugKernel.AsWrittenArgNumbers | sumDebug.cpp:132-138 | as written, `arr`, parameter 1, gets argument number 0, and `count`, parameter 2, gets 1 |
| SumDebugKernel.CorrectedArgNumbers | sumDebug.cpp:132-138 | with 1 and 2, every parameter descriptor carries the 1-based position of the argument stored into its slot |
| SumDebugKernel.AsWrittenPointerAlignment | sumDebug.cpp:97 | as written, the pointer type's alignment is `DW_ATE_signed`, 5 bits, which is not a whole number of bytes |
| SumDebugKernel.CorrectedPointerAlignment | sumDebug.cpp:97 | with the alignment unspecified, every debug type of `sumfunc` is byte-aligned |

## Left out

- JIT and runtime: the ORC `LLJIT` setup, target detection, the GDB and perf listeners, object dumping, `addIRModule`, `lookup` and the call through a native function pointer. These are foreign library code with no modellable logic, and `llvmjitrt.hpp` is not part of this model.
- The optimisation pipeline (`PassManagerBuilder`, `optimize`) is LLVM library code.
- The LLVM verifier calls are left out. Structural well-formedness is stated by this model's own predicate, `Ir.WellFormed`.
- `printIR`, `fprintf`, `ExitOnErr` and the data generation in `main` are I/O and process-level handling. Only the values `main` passes appear, in the iota lemmas.
- Debug metadata beyond plain descriptor records is left out: the `DIFile`, the compile unit and its flags, line numbers (`__LINE__`), `createExpression`, and the `DIFlags`/`SPFlags`. A location is only "unset" or "in subprogram `sp`". `createSubroutineType` and `getOrCreateTypeArray` are folded into the subprogram's type list.
- `Function::Create` inserts the function into the module when it is created. The model adds the finished function to the module when the builder is done.
- The interpreter runs on a fuel budget. `SumKernel` needs `6 * |arr| + 4` steps and `SumDebugKernel` `12 * |arr| + 17`. Without enough fuel the outcome is `OutOfFuel`, which stands for a run that has not finished yet.
- Loading a slot that was never stored faults (`UninitializedRead`). LLVM calls the result `undef` instead; neither kernel ever does this.
- `nsw` overflow is modelled as LLVM poison, returned as the value, not as a precondition. `SumKernel.PhiKernelSum` states both cases.
- The pointer-sized `count` of `main` (`size_t`) is passed as an i64, which it is in the IR.
- Memory outside the caller's array and the stack slots is not modelled. Stores to the array are not used by the kernels and fault in the model.

## Findings

| source | as written | input that shows it | evidently intended | confidence | as-written member | corrected member |
|---|---|---|---|---|---|---|
| sumDebug.cpp:132-135 | `arr` is described as parameter 0 and `count` as parameter 1. Parameter numbers in LLVM's debug information start at 1, and 0 marks a variable that is not a parameter. | The descriptor bound to the slot that argument 0 (`arr`) is stored into has number 0. The one for argument 1 (`count`) has number 1. LLVM's `createParameterVariable` also asserts that the number is not 0, so an LLVM built with assertions aborts at sumDebug.cpp:132; the as-written member follows a release build, which records the 0. | `arr` is parameter 1 and `count` is parameter 2. | high; not executed | SumDebugKernel.AsWrittenArgNumbers | SumDebugKernel.CorrectedArgNumbers |
| sumDebug.cpp:97 | `createPointerType(di_int64, 64, DW_ATE_signed)` passes an encoding constant as the third argument, which is the pointer type's alignment in bits. | The pointer type gets an alignment of 5 bits. | No alignment (0), or 64 bits. | medium; not executed | SumDebugKernel.AsWrittenPointerAlignment | SumDebugKernel.CorrectedPointerAlignment |
