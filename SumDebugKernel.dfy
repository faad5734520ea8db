/** The array-sum kernel with stack slots and debug information, as
    `generateFunction` in sumDebug.cpp builds it: the same `sumfunc(arr:
    i64*, count: i64) -> i64` with blocks `check`, `loop` and `exit`, but
    `arr`, `count`, `sum` and `i` live in `alloca` slots that are stored and
    loaded instead of being merged by phis, the accumulator is a plain
    (wrapping) `add`, every instruction after the prologue carries a debug
    location in the function's subprogram, and the four variables are
    described by local-variable descriptors bound to their slots. */
module SumDebugKernel {
  import opened Ir
  import opened IrBuilder
  import opened DebugMeta
  import opened Interp
  import opened Steps
  import opened SumSpec
  import I64
  import SumKernel

  const Check: nat := 0
  const Loop: nat := 1
  const Exit: nat := 2

  /** The subprogram descriptor of `sumfunc`: the first one its builder creates. */
  const Sp: nat := 0

  /** A location in `sumfunc`'s subprogram (column 0; the line is not modelled). */
  const Here: DebugLoc := DILocation(0, Sp)

  // ---------------------------------------------------------------------
  // What is emitted

  /** The constants of the debug descriptors that vary between the code as
      written and its correction: the argument numbers given to the two
      parameter descriptors, and the alignment given to the pointer type. */
  datatype DebugChoices = DebugChoices(arrArgNo: nat, countArgNo: nat, ptrAlignInBits: nat)

  /** `createParameterVariable(..., "arr", 0, ...)`, `(..., "count", 1, ...)`
      and `createPointerType(di_int64, 64, DW_ATE_signed)`. */
  function AsWritten(): DebugChoices {
    DebugChoices(0, 1, DW_ATE_signed)
  }

  /** Parameters numbered from 1, and the pointer type's alignment left
      unspecified. */
  function Corrected(): DebugChoices {
    DebugChoices(1, 2, 0)
  }

  function DIInt64(): DIType {
    DIBasicType("int64_t", 64, DW_ATE_signed)
  }

  function DIPtrInt64(c: DebugChoices): DIType {
    DIPointerType(DIInt64(), 64, c.ptrAlignInBits)
  }

  /** `check`: the prologue (slots for the two parameters, their
      descriptors, the parameters stored), the slots of `sum` and `i`, both
      set to 0, and the test `count == 0`. Handles are numbered in emission
      order. */
  function CheckInstrs(): seq<Instr> {
    [ Instr(0, "arr", Alloca(Ptr(I64)), NoLoc),
      Instr(1, "count", Alloca(I64), NoLoc),
      Instr(2, "", DbgDeclare(Reg(0), 0), Here),
      Instr(3, "", DbgDeclare(Reg(1), 1), Here),
      Instr(4, "", Store(Arg(0), Reg(0)), NoLoc),
      Instr(5, "", Store(Arg(1), Reg(1)), NoLoc),
      Instr(6, "sum", Alloca(I64), NoLoc),
      Instr(7, "", DbgDeclare(Reg(6), 2), Here),
      Instr(8, "i", Alloca(I64), NoLoc),
      Instr(9, "", DbgDeclare(Reg(8), 3), Here),
      Instr(10, "", Store(ConstInt(0), Reg(6)), Here),
      Instr(11, "", Store(ConstInt(0), Reg(8)), Here),
      Instr(12, "nullcheck", ICmpEq(Arg(1), ConstInt(0)), Here),
      Instr(13, "", CondBr(Reg(12), Exit, Loop), Here)]
  }

  /** `loop`: `val = arr[*i]`, `*sum = *sum + val`, `*i = *i + 1`, and the
      branch on `*i == count`. */
  function LoopInstrs(): seq<Instr> {
    [ Instr(14, "", Load(Reg(8)), Here),
      Instr(15, "addr", Gep(Arg(0), Reg(14)), Here),
      Instr(16, "val", Load(Reg(15)), Here),
      Instr(17, "", Load(Reg(6)), Here),
      Instr(18, "", Add(Reg(17), Reg(16), false), Here),
      Instr(19, "", Store(Reg(18), Reg(6)), Here),
      Instr(20, "", Load(Reg(8)), Here),
      Instr(21, "", Add(Reg(20), ConstInt(1), false), Here),
      Instr(22, "", Store(Reg(21), Reg(8)), Here),
      Instr(23, "", Load(Reg(8)), Here),
      Instr(24, "cond", ICmpEq(Reg(23), Arg(1)), Here),
      Instr(25, "", CondBr(Reg(24), Exit, Loop), Here)]
  }

  /** `exit`: return `*sum`. */
  function ExitInstrs(): seq<Instr> {
    [ Instr(26, "", Load(Reg(6)), Here),
      Instr(27, "", Ret(Reg(26)), Here)]
  }

  /** The function `generateFunction` emits. The arguments stay unnamed. */
  function DebugKernel(): Function {
    Function("sumfunc", ExternalLinkage, [Param("", Ptr(I64)), Param("", I64)], I64,
      [Block("check", CheckInstrs()), Block("loop", LoopInstrs()), Block("exit", ExitInstrs())], Some(Sp))
  }

  /** The four local-variable descriptors, in creation order: the two
      parameters are created with AlwaysPreserve, the two locals without. */
  function Variables(c: DebugChoices): seq<DILocalVariable> {
    [ DILocalVariable(Sp, "arr", c.arrArgNo, DIPtrInt64(c), true),
      DILocalVariable(Sp, "count", c.countArgNo, DIInt64(), true),
      DILocalVariable(Sp, "sum", 0, DIInt64(), false),
      DILocalVariable(Sp, "i", 0, DIInt64(), false)]
  }

  /** The subprogram as `createFunction` makes it, retaining nothing yet. */
  function Subprogram(c: DebugChoices): DISubprogram {
    DISubprogram("sumfunc", "sumfunc", [DIInt64(), DIPtrInt64(c), DIInt64()], [])
  }

  /** The descriptors committed to the module by `finalize`: the
      subprogram retains `arr` and `count`. */
  function DebugKernelInfo(c: DebugChoices): DebugInfo {
    DebugInfo([Subprogram(c).(retained := [0, 1])], Variables(c))
  }

  // ---------------------------------------------------------------------
  // The arena while it is being built

  function CheckPart(k: nat): seq<Block>
    requires k <= |CheckInstrs()|
  {
    [Block("check", CheckInstrs()[..k]), Block("loop", []), Block("exit", [])]
  }

  function LoopPart(k: nat): seq<Block>
    requires k <= |LoopInstrs()|
  {
    [Block("check", CheckInstrs()), Block("loop", LoopInstrs()[..k]), Block("exit", [])]
  }

  function ExitPart(k: nat): seq<Block>
    requires k <= |ExitInstrs()|
  {
    [Block("check", CheckInstrs()), Block("loop", LoopInstrs()), Block("exit", ExitInstrs()[..k])]
  }

  lemma CheckGrows(k: nat)
    requires k < |CheckInstrs()|
    ensures AppendInstr(CheckPart(k), Check, CheckInstrs()[k]) == CheckPart(k + 1)
  {
    AppendInstrThree(Block("check", CheckInstrs()[..k]), Block("loop", []), Block("exit", []), CheckInstrs()[k]);
    TakeOneMore(CheckInstrs(), k);
  }

  lemma LoopGrows(k: nat)
    requires k < |LoopInstrs()|
    ensures AppendInstr(LoopPart(k), Loop, LoopInstrs()[k]) == LoopPart(k + 1)
  {
    AppendInstrThree(Block("check", CheckInstrs()), Block("loop", LoopInstrs()[..k]), Block("exit", []), LoopInstrs()[k]);
    TakeOneMore(LoopInstrs(), k);
  }

  lemma ExitGrows(k: nat)
    requires k < |ExitInstrs()|
    ensures AppendInstr(ExitPart(k), Exit, ExitInstrs()[k]) == ExitPart(k + 1)
  {
    AppendInstrThree(Block("check", CheckInstrs()), Block("loop", LoopInstrs()), Block("exit", ExitInstrs()[..k]), ExitInstrs()[k]);
    TakeOneMore(ExitInstrs(), k);
  }

  lemma PartsMeet()
    ensures CheckPart(14) == LoopPart(0) && LoopPart(12) == ExitPart(0)
    ensures ExitPart(2) == DebugKernel().blocks
  {
    assert CheckInstrs()[..14] == CheckInstrs();
    assert LoopInstrs()[..12] == LoopInstrs();
    assert ExitInstrs()[..2] == ExitInstrs();
  }

  /** `finalize` makes the subprogram retain the two parameter variables,
      created with AlwaysPreserve, and neither `sum` nor `i`. */
  lemma FinalizeRetainsParameters(c: DebugChoices)
    ensures Retained([Subprogram(c)], Variables(c)) == DebugKernelInfo(c).subprograms
    ensures forall v :: 0 <= v < |Variables(c)| ==>
              (v in DebugKernelInfo(c).subprograms[Sp].retained <==> Variables(c)[v].name in {"arr", "count"})
  {
    PreservedPrefix(Variables(c), Sp, 2);
    assert seq(2, i => i) == [0, 1];
  }

  // ---------------------------------------------------------------------
  // The builder

  /** The `Function` class of sumDebug.cpp: an LLVM context with its module,
      and the handle of the generated function once it is published. */
  class JitFunction {
    const m: Module
    var jitFunction: Option<Function>

    constructor ()
      ensures fresh(m) && m.name == "test" && m.functions == [] && m.debugInfo == []
      ensures jitFunction == None
    {
      m := new Module("test");
      jitFunction := None;
    }
  }

  /** `generateFunction(function)` as written. */
  method GenerateFunction(unit: JitFunction) returns (f: Function)
    modifies unit`jitFunction, unit.m`functions, unit.m`debugInfo
    ensures unit.jitFunction == Some(f)
    ensures unit.m.functions == old(unit.m.functions) + [f]
    ensures unit.m.debugInfo == old(unit.m.debugInfo) + [DebugKernelInfo(AsWritten())]
    ensures f == DebugKernel() && WellFormed(f)
  {
    f := GenerateFunctionWith(unit, AsWritten());
  }

  /** `generateFunction` with the descriptor constants corrected. */
  method CorrectedGenerateFunction(unit: JitFunction) returns (f: Function)
    modifies unit`jitFunction, unit.m`functions, unit.m`debugInfo
    ensures unit.jitFunction == Some(f)
    ensures unit.m.functions == old(unit.m.functions) + [f]
    ensures unit.m.debugInfo == old(unit.m.debugInfo) + [DebugKernelInfo(Corrected())]
    ensures f == DebugKernel() && WellFormed(f)
  {
    f := GenerateFunctionWith(unit, Corrected());
  }

  /** The body of `generateFunction`: a debug-info builder on the module,
      the two debug types, `sumfunc` and its subprogram, the three blocks
      emitted in order, `finalize`, and only then the handle published. */
  method GenerateFunctionWith(unit: JitFunction, c: DebugChoices) returns (f: Function)
    modifies unit`jitFunction, unit.m`functions, unit.m`debugInfo
    ensures unit.jitFunction == Some(f)
    ensures unit.m.functions == old(unit.m.functions) + [f]
    ensures unit.m.debugInfo == old(unit.m.debugInfo) + [DebugKernelInfo(c)]
    ensures f == DebugKernel() && WellFormed(f)
  {
    var dib := new DIBuilder(unit.m);
    var jit := BuildKernel(dib, c);
    dib.Finalize();
    FinalizeRetainsParameters(c);
    f := jit.Snapshot();
    DebugKernelWellFormed();
    unit.m.AddFunction(f);
    unit.jitFunction := Some(f);
  }

  /** Everything before `finalize`: the debug types, the function and its
      subprogram, the three blocks and their code, and the four variable
      descriptors. */
  method BuildKernel(dib: DIBuilder, c: DebugChoices) returns (jit: FunctionDef)
    requires dib.subprograms == [] && dib.variables == []
    modifies dib`subprograms, dib`variables
    ensures fresh(jit) && jit.Snapshot() == DebugKernel()
    ensures dib.subprograms == [Subprogram(c)] && dib.variables == Variables(c)
  {
    var diInt64 := DIBasicType("int64_t", 64, DW_ATE_signed);
    var diPtrInt64 := DIPointerType(diInt64, 64, c.ptrAlignInBits);
    jit := new FunctionDef.Create("sumfunc", ExternalLinkage, [Param("", Ptr(I64)), Param("", I64)], I64);
    var sp := dib.CreateFunction("sumfunc", "sumfunc", [diInt64, diPtrInt64, diInt64]);
    jit.SetSubprogram(sp);
    var check := jit.AppendBlock("check");
    var loop := jit.AppendBlock("loop");
    var exit := jit.AppendBlock("exit");
    var builder := new IRBuilder(jit, check);
    var addrSum, addrI := EmitCheck(builder, dib, c, sp);
    EmitLoop(builder, sp, addrSum, addrI);
    EmitExit(builder, sp, addrSum);
    PartsMeet();
  }

  /** `check`, from an unset location to the branch on `count == 0`. */
  method EmitCheck(builder: IRBuilder, dib: DIBuilder, c: DebugChoices, sp: nat) returns (addrSum: Value, addrI: Value)
    requires builder.Valid() && builder.insertBlock == Check && sp == Sp
    requires builder.fn.blocks == CheckPart(0) && builder.fn.nextId == 0
    requires dib.variables == []
    modifies builder`curLoc, builder.fn`blocks, builder.fn`nextId, dib`variables
    ensures builder.Valid() && builder.insertBlock == Check
    ensures builder.fn.blocks == CheckPart(14) && builder.fn.nextId == 14
    ensures dib.variables == Variables(c)
    ensures addrSum == Reg(6) && addrI == Reg(8)
  {
    builder.SetCurrentDebugLocation(NoLoc);
    var arr, count := Arg(0), Arg(1);
    var addrArr, addrCount := EmitArgSlots(builder);
    DescribeArgs(builder, dib, c, sp, addrArr, addrCount);
    StoreArgs(builder, arr, count, addrArr, addrCount);
    addrSum := DeclareLocal(builder, dib, c, sp, "sum", 6);
    addrI := DeclareLocal(builder, dib, c, sp, "i", 8);
    InitLocals(builder, sp, addrSum, addrI);
    EmitNullCheck(builder, sp, count);
  }

  /** The slots of the two parameters, under the unset location. */
  method EmitArgSlots(builder: IRBuilder) returns (addrArr: Value, addrCount: Value)
    requires builder.Valid() && builder.insertBlock == Check && builder.curLoc == NoLoc
    requires builder.fn.blocks == CheckPart(0) && builder.fn.nextId == 0
    modifies builder.fn`blocks, builder.fn`nextId
    ensures builder.Valid()
    ensures builder.fn.blocks == CheckPart(2) && builder.fn.nextId == 2
    ensures addrArr == Reg(0) && addrCount == Reg(1)
  {
    addrArr := builder.CreateAlloca(Ptr(I64), "arr");
    CheckGrows(0);
    addrCount := builder.CreateAlloca(I64, "count");
    CheckGrows(1);
  }

  /** The parameter descriptors of `arr` and `count`, created with
      AlwaysPreserve and each declared on its slot with its own location. */
  method DescribeArgs(builder: IRBuilder, dib: DIBuilder, c: DebugChoices, sp: nat, addrArr: Value, addrCount: Value)
    requires builder.Valid() && builder.insertBlock == Check && sp == Sp
    requires builder.fn.blocks == CheckPart(2) && builder.fn.nextId == 2
    requires dib.variables == [] && addrArr == Reg(0) && addrCount == Reg(1)
    modifies builder.fn`blocks, builder.fn`nextId, dib`variables
    ensures builder.Valid()
    ensures builder.fn.blocks == CheckPart(4) && builder.fn.nextId == 4
    ensures dib.variables == Variables(c)[..2]
  {
    var diArr := dib.CreateParameterVariable(sp, "arr", c.arrArgNo, DIPtrInt64(c), true);
    dib.InsertDeclare(builder.fn, addrArr, diArr, DILocation(0, sp), builder.insertBlock);
    CheckGrows(2);
    var diCount := dib.CreateParameterVariable(sp, "count", c.countArgNo, DIInt64(), true);
    dib.InsertDeclare(builder.fn, addrCount, diCount, DILocation(0, sp), builder.insertBlock);
    CheckGrows(3);
    assert [] + [Variables(c)[0]] + [Variables(c)[1]] == Variables(c)[..2];
  }

  /** The incoming parameters stored into their slots. */
  method StoreArgs(builder: IRBuilder, arr: Value, count: Value, addrArr: Value, addrCount: Value)
    requires builder.Valid() && builder.insertBlock == Check && builder.curLoc == NoLoc
    requires builder.fn.blocks == CheckPart(4) && builder.fn.nextId == 4
    requires arr == Arg(0) && count == Arg(1) && addrArr == Reg(0) && addrCount == Reg(1)
    modifies builder.fn`blocks, builder.fn`nextId
    ensures builder.Valid()
    ensures builder.fn.blocks == CheckPart(6) && builder.fn.nextId == 6
  {
    builder.CreateStore(arr, addrArr);
    CheckGrows(4);
    builder.CreateStore(count, addrCount);
    CheckGrows(5);
  }

  /** The slot of a local variable (still under the unset location) and
      its auto-variable descriptor, without AlwaysPreserve, declared on it. */
  method DeclareLocal(builder: IRBuilder, dib: DIBuilder, c: DebugChoices, sp: nat, name: string, at: nat) returns (addr: Value)
    requires builder.Valid() && builder.insertBlock == Check && builder.curLoc == NoLoc && sp == Sp
    requires (at == 6 && name == "sum") || (at == 8 && name == "i")
    requires builder.fn.blocks == CheckPart(at) && builder.fn.nextId == at
    requires dib.variables == Variables(c)[..at / 2 - 1]
    modifies builder.fn`blocks, builder.fn`nextId, dib`variables
    ensures builder.Valid()
    ensures builder.fn.blocks == CheckPart(at + 2) && builder.fn.nextId == at + 2
    ensures dib.variables == Variables(c)[..at / 2] && addr == Reg(at)
  {
    addr := builder.CreateAlloca(I64, name);
    CheckGrows(at);
    var di := dib.CreateAutoVariable(sp, name, DIInt64());
    dib.InsertDeclare(builder.fn, addr, di, DILocation(0, sp), builder.insertBlock);
    CheckGrows(at + 1);
    TakeOneMore(Variables(c), at / 2 - 1);
  }

  /** `sum = 0` and `i = 0`, each under a location of its own. */
  method InitLocals(builder: IRBuilder, sp: nat, addrSum: Value, addrI: Value)
    requires builder.Valid() && builder.insertBlock == Check && sp == Sp
    requires builder.fn.blocks == CheckPart(10) && builder.fn.nextId == 10
    requires addrSum == Reg(6) && addrI == Reg(8)
    modifies builder`curLoc, builder.fn`blocks, builder.fn`nextId
    ensures builder.Valid() && builder.insertBlock == Check
    ensures builder.fn.blocks == CheckPart(12) && builder.fn.nextId == 12
  {
    builder.SetCurrentDebugLocation(DILocation(0, sp));
    builder.CreateStore(ConstInt(0), addrSum);
    CheckGrows(10);
    builder.SetCurrentDebugLocation(DILocation(0, sp));
    builder.CreateStore(ConstInt(0), addrI);
    CheckGrows(11);
  }

  /** `if (count == 0) goto exit else goto loop`. */
  method EmitNullCheck(builder: IRBuilder, sp: nat, count: Value)
    requires builder.Valid() && builder.insertBlock == Check && sp == Sp && count == Arg(1)
    requires builder.fn.blocks == CheckPart(12) && builder.fn.nextId == 12
    modifies builder`curLoc, builder.fn`blocks, builder.fn`nextId
    ensures builder.Valid() && builder.insertBlock == Check
    ensures builder.fn.blocks == CheckPart(14) && builder.fn.nextId == 14
  {
    builder.SetCurrentDebugLocation(DILocation(0, sp));
    var nullcheck := builder.CreateICmpEQ(count, ConstInt(0), "nullcheck");
    CheckGrows(12);
    builder.SetCurrentDebugLocation(DILocation(0, sp));
    builder.CreateCondBr(nullcheck, Exit, Loop);
    CheckGrows(13);
  }

  /** `loop`: every statement under a location of its own; the body reads
      the raw arguments `arr` and `count`, not their slots. */
  method EmitLoop(builder: IRBuilder, sp: nat, addrSum: Value, addrI: Value)
    requires builder.Valid() && sp == Sp && addrSum == Reg(6) && addrI == Reg(8)
    requires builder.fn.blocks == CheckPart(14) && builder.fn.nextId == 14
    modifies builder, builder.fn`blocks, builder.fn`nextId
    ensures builder.Valid()
    ensures builder.fn.blocks == LoopPart(12) && builder.fn.nextId == 26
  {
    PartsMeet();
    builder.SetInsertPoint(Loop);
    var arr, count := Arg(0), Arg(1);
    var val := EmitFetch(builder, sp, arr, addrI);
    EmitAccumulate(builder, sp, addrSum, val);
    EmitAdvance(builder, sp, addrI);
    EmitLoopTest(builder, sp, addrI, count);
  }

  /** `addr = arr + *i` and `val = *addr`. */
  method EmitFetch(builder: IRBuilder, sp: nat, arr: Value, addrI: Value) returns (val: Value)
    requires builder.Valid() && builder.insertBlock == Loop && sp == Sp && arr == Arg(0) && addrI == Reg(8)
    requires builder.fn.blocks == LoopPart(0) && builder.fn.nextId == 14
    modifies builder`curLoc, builder.fn`blocks, builder.fn`nextId
    ensures builder.Valid() && builder.insertBlock == Loop
    ensures builder.fn.blocks == LoopPart(3) && builder.fn.nextId == 17 && val == Reg(16)
  {
    builder.SetCurrentDebugLocation(DILocation(0, sp));
    var i := builder.CreateLoad(addrI, "");
    LoopGrows(0);
    var addr := builder.CreateGEP(arr, i, "addr");
    LoopGrows(1);
    builder.SetCurrentDebugLocation(DILocation(0, sp));
    val := builder.CreateLoad(addr, "val");
    LoopGrows(2);
  }

  /** `*sum = *sum + val` (plain `add`). */
  method EmitAccumulate(builder: IRBuilder, sp: nat, addrSum: Value, val: Value)
    requires builder.Valid() && builder.insertBlock == Loop && sp == Sp && addrSum == Reg(6) && val == Reg(16)
    requires builder.fn.blocks == LoopPart(3) && builder.fn.nextId == 17
    modifies builder`curLoc, builder.fn`blocks, builder.fn`nextId
    ensures builder.Valid() && builder.insertBlock == Loop
    ensures builder.fn.blocks == LoopPart(6) && builder.fn.nextId == 20
  {
    builder.SetCurrentDebugLocation(DILocation(0, sp));
    var sum := builder.CreateLoad(addrSum, "");
    LoopGrows(3);
    var nsum := builder.CreateAdd(sum, val, "", false);
    LoopGrows(4);
    builder.CreateStore(nsum, addrSum);
    LoopGrows(5);
  }

  /** `*i = *i + 1`. */
  method EmitAdvance(builder: IRBuilder, sp: nat, addrI: Value)
    requires builder.Valid() && builder.insertBlock == Loop && sp == Sp && addrI == Reg(8)
    requires builder.fn.blocks == LoopPart(6) && builder.fn.nextId == 20
    modifies builder`curLoc, builder.fn`blocks, builder.fn`nextId
    ensures builder.Valid() && builder.insertBlock == Loop
    ensures builder.fn.blocks == LoopPart(9) && builder.fn.nextId == 23
  {
    builder.SetCurrentDebugLocation(DILocation(0, sp));
    var i := builder.CreateLoad(addrI, "");
    LoopGrows(6);
    var ni := builder.CreateAdd(i, ConstInt(1), "", false);
    LoopGrows(7);
    builder.CreateStore(ni, addrI);
    LoopGrows(8);
  }

  /** `cond = (*i == count)` and the branch to `exit` or back to `loop`. */
  method EmitLoopTest(builder: IRBuilder, sp: nat, addrI: Value, count: Value)
    requires builder.Valid() && builder.insertBlock == Loop && sp == Sp && addrI == Reg(8) && count == Arg(1)
    requires builder.fn.blocks == LoopPart(9) && builder.fn.nextId == 23
    modifies builder`curLoc, builder.fn`blocks, builder.fn`nextId
    ensures builder.Valid() && builder.insertBlock == Loop
    ensures builder.fn.blocks == LoopPart(12) && builder.fn.nextId == 26
  {
    builder.SetCurrentDebugLocation(DILocation(0, sp));
    var i := builder.CreateLoad(addrI, "");
    LoopGrows(9);
    var cond := builder.CreateICmpEQ(i, count, "cond");
    LoopGrows(10);
    builder.SetCurrentDebugLocation(DILocation(0, sp));
    builder.CreateCondBr(cond, Exit, Loop);
    LoopGrows(11);
  }

  /** `exit`: `ret = *sum` and `return ret`. */
  method EmitExit(builder: IRBuilder, sp: nat, addrSum: Value)
    requires builder.Valid() && sp == Sp && addrSum == Reg(6)
    requires builder.fn.blocks == LoopPart(12) && builder.fn.nextId == 26
    modifies builder, builder.fn`blocks, builder.fn`nextId
    ensures builder.Valid()
    ensures builder.fn.blocks == ExitPart(2) && builder.fn.nextId == 28
  {
    PartsMeet();
    builder.SetInsertPoint(Exit);
    builder.SetCurrentDebugLocation(DILocation(0, sp));
    var ret := builder.CreateLoad(addrSum, "");
    ExitGrows(0);
    builder.SetCurrentDebugLocation(DILocation(0, sp));
    builder.CreateRet(ret);
    ExitGrows(1);
  }

  // ---------------------------------------------------------------------
  // Structure

  lemma DebugKernelShape()
    ensures |DebugKernel().blocks| == 3
    ensures DebugKernel().blocks[Check].name == "check" && DebugKernel().blocks[Loop].name == "loop"
    ensures DebugKernel().blocks[Exit].name == "exit"
    ensures Successors(DebugKernel().blocks[Check]) == {Exit, Loop}
    ensures Successors(DebugKernel().blocks[Loop]) == {Exit, Loop}
    ensures Successors(DebugKernel().blocks[Exit]) == {}
  {
  }

  lemma DebugKernelPredecessors()
    ensures Predecessors(DebugKernel(), Check) == {}
    ensures Predecessors(DebugKernel(), Loop) == {Check, Loop}
    ensures Predecessors(DebugKernel(), Exit) == {Check, Loop}
  {
    var f := DebugKernel();
    DebugKernelShape();
    assert forall p :: p in Predecessors(f, Check) ==> p == Check || p == Loop || p == Exit;
    assert forall p :: p in Predecessors(f, Loop) ==> p == Check || p == Loop || p == Exit;
    assert forall p :: p in Predecessors(f, Exit) ==> p == Check || p == Loop || p == Exit;
    assert Check in Predecessors(f, Loop) && Loop in Predecessors(f, Loop);
    assert Check in Predecessors(f, Exit) && Loop in Predecessors(f, Exit);
  }

  /** One terminator per block, branch targets exist, no phi at all, and
      nothing branches back to `check`. */
  lemma DebugKernelWellFormed()
    ensures WellFormed(DebugKernel())
  {
    var f := DebugKernel();
    DebugKernelShape();
    DebugKernelPredecessors();
    DebugKernelTerminators();
    DebugKernelNoPhis();
  }

  /** `check` and `loop` end in a conditional branch, `exit` in `ret`, and no
      other instruction is a terminator. */
  lemma DebugKernelTerminators()
    ensures forall b :: 0 <= b < |DebugKernel().blocks| ==> EndsInOneTerminator(DebugKernel().blocks[b])
    ensures CheckInstrs()[13].op.CondBr? && LoopInstrs()[11].op.CondBr? && ExitInstrs()[1].op.Ret?
  {
    assert EndsInOneTerminator(Block("check", CheckInstrs()));
    assert EndsInOneTerminator(Block("loop", LoopInstrs()));
    assert EndsInOneTerminator(Block("exit", ExitInstrs()));
  }

  /** Slots replace the phis: the function has none. */
  lemma DebugKernelNoPhis()
    ensures forall b, k :: 0 <= b < |DebugKernel().blocks| && 0 <= k < |DebugKernel().blocks[b].instrs| ==>
              !DebugKernel().blocks[b].instrs[k].op.Phi?
  {
    assert forall k :: 0 <= k < 14 ==> !CheckInstrs()[k].op.Phi?;
    assert forall k :: 0 <= k < 12 ==> !LoopInstrs()[k].op.Phi?;
    assert forall k :: 0 <= k < 2 ==> !ExitInstrs()[k].op.Phi?;
  }

  // ---------------------------------------------------------------------
  // Semantics
  //
  // As for the phi kernel, the lemmas are stated for any function with the
  // kernel's code and then applied to `DebugKernel()`.

  predicate CheckCode(f: Function) {
    && |f.blocks| == 3 && |f.blocks[Check].instrs| == 14
    && Code(f, Check, 0, 0, Alloca(Ptr(I64)))
    && Code(f, Check, 1, 1, Alloca(I64))
    && Code(f, Check, 2, 2, DbgDeclare(Reg(0), 0))
    && Code(f, Check, 3, 3, DbgDeclare(Reg(1), 1))
    && Code(f, Check, 4, 4, Store(Arg(0), Reg(0)))
    && Code(f, Check, 5, 5, Store(Arg(1), Reg(1)))
    && Code(f, Check, 6, 6, Alloca(I64))
    && Code(f, Check, 7, 7, DbgDeclare(Reg(6), 2))
    && Code(f, Check, 8, 8, Alloca(I64))
    && Code(f, Check, 9, 9, DbgDeclare(Reg(8), 3))
    && Code(f, Check, 10, 10, Store(ConstInt(0), Reg(6)))
    && Code(f, Check, 11, 11, Store(ConstInt(0), Reg(8)))
    && Code(f, Check, 12, 12, ICmpEq(Arg(1), ConstInt(0)))
    && Code(f, Check, 13, 13, CondBr(Reg(12), Exit, Loop))
  }

  predicate LoopCode(f: Function) {
    && |f.blocks| == 3 && |f.blocks[Loop].instrs| == 12
    && Code(f, Loop, 0, 14, Load(Reg(8)))
    && Code(f, Loop, 1, 15, Gep(Arg(0), Reg(14)))
    && Code(f, Loop, 2, 16, Load(Reg(15)))
    && Code(f, Loop, 3, 17, Load(Reg(6)))
    && Code(f, Loop, 4, 18, Add(Reg(17), Reg(16), false))
    && Code(f, Loop, 5, 19, Store(Reg(18), Reg(6)))
    && Code(f, Loop, 6, 20, Load(Reg(8)))
    && Code(f, Loop, 7, 21, Add(Reg(20), ConstInt(1), false))
    && Code(f, Loop, 8, 22, Store(Reg(21), Reg(8)))
    && Code(f, Loop, 9, 23, Load(Reg(8)))
    && Code(f, Loop, 10, 24, ICmpEq(Reg(23), Arg(1)))
    && Code(f, Loop, 11, 25, CondBr(Reg(24), Exit, Loop))
  }

  predicate ExitCode(f: Function) {
    && |f.blocks| == 3 && |f.blocks[Exit].instrs| == 2
    && Code(f, Exit, 0, 26, Load(Reg(6)))
    && Code(f, Exit, 1, 27, Ret(Reg(26)))
  }

  lemma DebugKernelCode()
    ensures CheckCode(DebugKernel()) && LoopCode(DebugKernel()) && ExitCode(DebugKernel())
  {
  }

  /** Stack slot `s` holds `v`. */
  predicate SlotHolds(st: State, s: nat, v: RVal) {
    s in st.slots && st.slots[s] == Some(v)
  }

  /** Registers 6 and 8 point at the slots of `sum` and `i`. */
  predicate LocalSlots(st: State) {
    Holds(st, 6, PtrV(Slot(6), 0)) && Holds(st, 8, PtrV(Slot(8), 0))
  }

  /** The slots hold `i = k` and `sum = s`. */
  predicate Vars(st: State, k: int, s: RVal) {
    SlotHolds(st, 8, IntV(k)) && SlotHolds(st, 6, s)
  }

  predicate InCheck(st: State, arr: seq<int>, pc: nat) {
    st.block == Check && st.pc == pc && st.mem == arr && st.arrayReads == 0
  }

  /** Position `pc` of `loop` with the local slots in place, `nread`
      elements read, and the slots holding `i = k` and `sum = s`. */
  predicate InLoop(st: State, arr: seq<int>, pc: nat, nread: nat, k: int, s: RVal) {
    && st.block == Loop && st.pc == pc && st.mem == arr && st.arrayReads == nread
    && LocalSlots(st) && Vars(st, k, s)
  }

  /** At the top of `loop` in iteration `k`: `i = k`, `sum = s`. */
  predicate AtLoopTop(st: State, arr: seq<int>, k: nat, s: RVal) {
    InLoop(st, arr, 0, k, k, s)
  }

  /** At the branch ending `check`: both locals are 0 and `nullcheck =
      (count == 0)`. */
  predicate AtCheckBranch(st: State, arr: seq<int>, count: int) {
    InCheck(st, arr, 13) && LocalSlots(st) && Vars(st, 0, IntV(0)) && Holds(st, 12, BoolV(count == 0))
  }

  /** At the branch ending `loop` in iteration `k`: the slots hold `i = k +
      1` and `sum = s'`, and `cond = (k + 1 == count)`. */
  predicate AtBackBranch(st: State, arr: seq<int>, count: int, k: nat, s': RVal) {
    InLoop(st, arr, 11, k + 1, k + 1, s') && Holds(st, 24, BoolV(k + 1 == count))
  }

  // `check`

  /** The slots of the parameters. */
  lemma ArgAllocas(f: Function, arr: seq<int>, count: int, n: nat) returns (st: State)
    requires CheckCode(f)
    ensures InCheck(st, arr, 2) && Holds(st, 0, PtrV(Slot(0), 0)) && Holds(st, 1, PtrV(Slot(1), 0))
    ensures 0 in st.slots && 1 in st.slots
    ensures Call(f, arr, count, n + 2) == Exec(f, CallEnv(count), st, n)
  {
    var env, st0 := CallEnv(count), Initial(arr);
    var st1 := st0.(pc := 1, regs := st0.regs[0 := PtrV(Slot(0), 0)], slots := st0.slots[0 := None]);
    StepAlloca(f, env, st0, 0, Ptr(I64), n + 1);
    st := st1.(pc := 2, regs := st1.regs[1 := PtrV(Slot(1), 0)], slots := st1.slots[1 := None]);
    StepAlloca(f, env, st1, 1, I64, n);
  }

  /** The parameters' declares, then the parameters stored into their slots. */
  lemma ArgStores(f: Function, arr: seq<int>, count: int, st: State, n: nat) returns (st': State)
    requires CheckCode(f)
    requires InCheck(st, arr, 2) && Holds(st, 0, PtrV(Slot(0), 0)) && Holds(st, 1, PtrV(Slot(1), 0))
    requires 0 in st.slots && 1 in st.slots
    ensures InCheck(st', arr, 6)
    ensures Exec(f, CallEnv(count), st, n + 4) == Exec(f, CallEnv(count), st', n)
  {
    var env := CallEnv(count);
    StepDeclare(f, env, st, 2, Reg(0), 0, n + 3);
    var st3 := st.(pc := 3);
    StepDeclare(f, env, st3, 3, Reg(1), 1, n + 2);
    var st4 := st.(pc := 4);
    StepStoreSlot(f, env, st4, 4, Arg(0), Reg(0), PtrV(ArrayMem, 0), 0, n + 1);
    var st5 := st4.(pc := 5, slots := st4.slots[0 := Some(PtrV(ArrayMem, 0))]);
    StepStoreSlot(f, env, st5, 5, Arg(1), Reg(1), IntV(count), 1, n);
    st' := st5.(pc := 6, slots := st5.slots[1 := Some(IntV(count))]);
  }

  /** The slots of `sum` and `i`, each with its declare. */
  lemma LocalAllocas(f: Function, arr: seq<int>, count: int, st: State, n: nat) returns (st': State)
    requires CheckCode(f) && InCheck(st, arr, 6)
    ensures InCheck(st', arr, 10) && LocalSlots(st') && 6 in st'.slots && 8 in st'.slots
    ensures Exec(f, CallEnv(count), st, n + 4) == Exec(f, CallEnv(count), st', n)
  {
    var env := CallEnv(count);
    StepAlloca(f, env, st, 6, I64, n + 3);
    var st7 := st.(pc := 7, regs := st.regs[6 := PtrV(Slot(6), 0)], slots := st.slots[6 := None]);
    StepDeclare(f, env, st7, 7, Reg(6), 2, n + 2);
    var st8 := st7.(pc := 8);
    StepAlloca(f, env, st8, 8, I64, n + 1);
    var st9 := st8.(pc := 9, regs := st8.regs[8 := PtrV(Slot(8), 0)], slots := st8.slots[8 := None]);
    StepDeclare(f, env, st9, 9, Reg(8), 3, n);
    st' := st9.(pc := 10);
  }

  /** `sum = 0`, `i = 0` and `nullcheck = (count == 0)`. */
  lemma LocalInit(f: Function, arr: seq<int>, count: int, st: State, n: nat) returns (st': State)
    requires CheckCode(f) && InCheck(st, arr, 10) && LocalSlots(st) && 6 in st.slots && 8 in st.slots
    ensures AtCheckBranch(st', arr, count)
    ensures Exec(f, CallEnv(count), st, n + 3) == Exec(f, CallEnv(count), st', n)
  {
    var env := CallEnv(count);
    StepStoreSlot(f, env, st, 10, ConstInt(0), Reg(6), IntV(0), 6, n + 2);
    var st11 := st.(pc := 11, slots := st.slots[6 := Some(IntV(0))]);
    StepStoreSlot(f, env, st11, 11, ConstInt(0), Reg(8), IntV(0), 8, n + 1);
    var st12 := st11.(pc := 12, slots := st11.slots[8 := Some(IntV(0))]);
    StepCompute(f, env, st12, 12, ICmpEq(Arg(1), ConstInt(0)), BoolV(count == 0), n);
    st' := st12.(pc := 13, regs := st12.regs[12 := BoolV(count == 0)]);
  }

  /** `check` up to its branch, 13 steps: the prologue, the locals' slots,
      both locals set to 0 before the test, and `nullcheck`. Nothing is
      read from the array. */
  lemma CheckRuns(f: Function, arr: seq<int>, count: int, n: nat) returns (st: State)
    requires CheckCode(f)
    ensures AtCheckBranch(st, arr, count)
    ensures Call(f, arr, count, n + 13) == Exec(f, CallEnv(count), st, n)
  {
    var st2 := ArgAllocas(f, arr, count, n + 11);
    var st6 := ArgStores(f, arr, count, st2, n + 7);
    var st10 := LocalAllocas(f, arr, count, st6, n + 3);
    st := LocalInit(f, arr, count, st10, n);
  }

  /** `exit`: `ret = *sum`, returned with the reads made so far. */
  lemma ExitReturns(f: Function, count: int, st: State, s: RVal, n: nat)
    requires ExitCode(f) && st.block == Exit && st.pc == 0
    requires Holds(st, 6, PtrV(Slot(6), 0)) && SlotHolds(st, 6, s)
    ensures Exec(f, CallEnv(count), st, n + 2) == Returned(s, st.arrayReads)
  {
    var env := CallEnv(count);
    StepLoadSlot(f, env, st, 26, Reg(6), 6, s, n + 1);
    StepRet(f, env, st.(pc := 1, regs := st.regs[26 := s]), 27, Reg(26), s, n);
  }

  /** The branch ending `check` with `count == 0` enters `exit`. */
  lemma CheckToExit(f: Function, arr: seq<int>, st: State, n: nat) returns (ex: State)
    requires Code(f, Check, 13, 13, CondBr(Reg(12), Exit, Loop)) && Code(f, Exit, 0, 26, Load(Reg(6)))
    requires AtCheckBranch(st, arr, 0)
    ensures ex.block == Exit && ex.pc == 0 && ex.arrayReads == 0
    ensures Holds(ex, 6, PtrV(Slot(6), 0)) && SlotHolds(ex, 6, IntV(0))
    ensures Exec(f, CallEnv(0), st, n + 1) == Exec(f, CallEnv(0), ex, n)
  {
    EnterNoPhi(f, CallEnv(0), st, Exit);
    ex := st.(block := Exit, pc := 0);
    StepBranch(f, CallEnv(0), st, 13, Reg(12), Exit, Loop, true, ex, n);
  }

  /** `count == 0`: `check` branches to `exit`, which returns the 0 still in
      `sum`; the array is not read. */
  lemma ZeroCount(f: Function, arr: seq<int>, n: nat)
    requires CheckCode(f) && ExitCode(f)
    ensures Call(f, arr, 0, n + 16) == Returned(IntV(0), 0)
  {
    var st := CheckRuns(f, arr, 0, n + 3);
    var ex := CheckToExit(f, arr, st, n + 2);
    ExitReturns(f, 0, ex, IntV(0), n);
  }

  lemma ZeroCountWith(f: Function, arr: seq<int>, fuel: nat, n: nat)
    requires CheckCode(f) && ExitCode(f) && fuel == n + 16
    ensures Call(f, arr, 0, fuel) == Returned(IntV(0), 0)
  {
    ZeroCount(f, arr, n);
  }

  /** The branch ending `check` with `count != 0` enters `loop`. */
  lemma CheckToLoop(f: Function, arr: seq<int>, count: int, st: State, n: nat) returns (st0: State)
    requires Code(f, Check, 13, 13, CondBr(Reg(12), Exit, Loop)) && Code(f, Loop, 0, 14, Load(Reg(8)))
    requires count != 0 && AtCheckBranch(st, arr, count)
    ensures AtLoopTop(st0, arr, 0, IntV(0))
    ensures Exec(f, CallEnv(count), st, n + 1) == Exec(f, CallEnv(count), st0, n)
  {
    EnterNoPhi(f, CallEnv(count), st, Loop);
    st0 := st.(block := Loop, pc := 0);
    StepBranch(f, CallEnv(count), st, 13, Reg(12), Exit, Loop, false, st0, n);
  }

  /** `count != 0`: `check` branches to `loop` with `i = 0` and `sum = 0`. */
  lemma StartLoop(f: Function, arr: seq<int>, count: int, n: nat) returns (st0: State)
    requires CheckCode(f) && LoopCode(f) && count != 0
    ensures AtLoopTop(st0, arr, 0, IntV(0))
    ensures Call(f, arr, count, n + 14) == Exec(f, CallEnv(count), st0, n)
  {
    var st := CheckRuns(f, arr, count, n + 1);
    st0 := CheckToLoop(f, arr, count, st, n);
  }

  lemma StartLoopWith(f: Function, arr: seq<int>, count: int, fuel: nat, n: nat) returns (st0: State)
    requires CheckCode(f) && LoopCode(f) && count != 0 && fuel == n + 14
    ensures AtLoopTop(st0, arr, 0, IntV(0))
    ensures Call(f, arr, count, fuel) == Exec(f, CallEnv(count), st0, n)
  {
    st0 := StartLoop(f, arr, count, n);
  }

  // `loop`, one instruction at a time

  /** `%14 = load i` and `addr = arr + %14`. */
  lemma LoopAddress(f: Function, arr: seq<int>, count: int, k: nat, s: RVal, st: State, n: nat) returns (st': State)
    requires LoopCode(f) && AtLoopTop(st, arr, k, s)
    ensures InLoop(st', arr, 2, k, k, s) && Holds(st', 15, PtrV(ArrayMem, k))
    ensures Exec(f, CallEnv(count), st, n + 2) == Exec(f, CallEnv(count), st', n)
  {
    var env := CallEnv(count);
    StepLoadSlot(f, env, st, 14, Reg(8), 8, IntV(k), n + 1);
    var st1 := st.(pc := 1, regs := st.regs[14 := IntV(k)]);
    StepCompute(f, env, st1, 15, Gep(Arg(0), Reg(14)), PtrV(ArrayMem, k), n);
    st' := st1.(pc := 2, regs := st1.regs[15 := PtrV(ArrayMem, k)]);
  }

  /** `val = *addr` inside the array reads `arr[k]`. */
  lemma LoopLoad(f: Function, arr: seq<int>, count: int, k: nat, s: RVal, st: State, n: nat) returns (st': State)
    requires LoopCode(f) && k < |arr| && InLoop(st, arr, 2, k, k, s) && Holds(st, 15, PtrV(ArrayMem, k))
    ensures InLoop(st', arr, 3, k + 1, k, s) && Holds(st', 16, IntV(arr[k]))
    ensures Exec(f, CallEnv(count), st, n + 1) == Exec(f, CallEnv(count), st', n)
  {
    StepLoadArray(f, CallEnv(count), st, 16, Reg(15), k, n);
    st' := st.(pc := 3, regs := st.regs[16 := IntV(arr[k])], arrayReads := k + 1);
  }

  /** `%17 = load sum` and `%18 = %17 + val` (plain `add`, wrapping). */
  lemma LoopAdd(f: Function, arr: seq<int>, count: int, k: nat, s: RVal, st: State, n: nat) returns (st': State)
    requires LoopCode(f) && ArrayOfI64(arr) && k < |arr| && (s.IntV? || s.PoisonV?)
    requires InLoop(st, arr, 3, k + 1, k, s) && Holds(st, 16, IntV(arr[k]))
    ensures AddValues(s, IntV(arr[k]), false).Some?
    ensures InLoop(st', arr, 5, k + 1, k, s) && Holds(st', 18, AddValues(s, IntV(arr[k]), false).value)
    ensures Exec(f, CallEnv(count), st, n + 2) == Exec(f, CallEnv(count), st', n)
  {
    var env := CallEnv(count);
    StepLoadSlot(f, env, st, 17, Reg(6), 6, s, n + 1);
    var st4 := st.(pc := 4, regs := st.regs[17 := s]);
    var sum := AddValues(s, IntV(arr[k]), false).value;
    StepCompute(f, env, st4, 18, Add(Reg(17), Reg(16), false), sum, n);
    st' := st4.(pc := 5, regs := st4.regs[18 := sum]);
  }

  /** `store %18, sum`. */
  lemma LoopStoreSum(f: Function, arr: seq<int>, count: int, k: nat, s: RVal, s': RVal, st: State, n: nat) returns (st': State)
    requires LoopCode(f) && InLoop(st, arr, 5, k + 1, k, s) && Holds(st, 18, s')
    ensures InLoop(st', arr, 6, k + 1, k, s')
    ensures Exec(f, CallEnv(count), st, n + 1) == Exec(f, CallEnv(count), st', n)
  {
    StepStoreSlot(f, CallEnv(count), st, 19, Reg(18), Reg(6), s', 6, n);
    st' := st.(pc := 6, slots := st.slots[6 := Some(s')]);
  }

  /** `%20 = load i` and `%21 = %20 + 1`, which does not wrap since `k <
      |arr| <= 2^63 - 1`. */
  lemma LoopInc(f: Function, arr: seq<int>, count: int, k: nat, s': RVal, st: State, n: nat) returns (st': State)
    requires LoopCode(f) && ArrayOfI64(arr) && k < |arr| && InLoop(st, arr, 6, k + 1, k, s')
    ensures InLoop(st', arr, 8, k + 1, k, s') && Holds(st', 21, IntV(k + 1))
    ensures Exec(f, CallEnv(count), st, n + 2) == Exec(f, CallEnv(count), st', n)
  {
    var env := CallEnv(count);
    StepLoadSlot(f, env, st, 20, Reg(8), 8, IntV(k), n + 1);
    var st7 := st.(pc := 7, regs := st.regs[20 := IntV(k)]);
    StepCompute(f, env, st7, 21, Add(Reg(20), ConstInt(1), false), IntV(k + 1), n);
    st' := st7.(pc := 8, regs := st7.regs[21 := IntV(k + 1)]);
  }

  /** `store %21, i`. */
  lemma LoopStoreIndex(f: Function, arr: seq<int>, count: int, k: nat, s': RVal, st: State, n: nat) returns (st': State)
    requires LoopCode(f) && InLoop(st, arr, 8, k + 1, k, s') && Holds(st, 21, IntV(k + 1))
    ensures InLoop(st', arr, 9, k + 1, k + 1, s')
    ensures Exec(f, CallEnv(count), st, n + 1) == Exec(f, CallEnv(count), st', n)
  {
    StepStoreSlot(f, CallEnv(count), st, 22, Reg(21), Reg(8), IntV(k + 1), 8, n);
    st' := st.(pc := 9, slots := st.slots[8 := Some(IntV(k + 1))]);
  }

  /** `%23 = load i` and `cond = (%23 == count)`. */
  lemma LoopCmp(f: Function, arr: seq<int>, count: int, k: nat, s': RVal, st: State, n: nat) returns (st': State)
    requires LoopCode(f) && InLoop(st, arr, 9, k + 1, k + 1, s')
    ensures AtBackBranch(st', arr, count, k, s')
    ensures Exec(f, CallEnv(count), st, n + 2) == Exec(f, CallEnv(count), st', n)
  {
    var env := CallEnv(count);
    StepLoadSlot(f, env, st, 23, Reg(8), 8, IntV(k + 1), n + 1);
    var st10 := st.(pc := 10, regs := st.regs[23 := IntV(k + 1)]);
    StepCompute(f, env, st10, 24, ICmpEq(Reg(23), Arg(1)), BoolV(k + 1 == count), n);
    st' := st10.(pc := 11, regs := st10.regs[24 := BoolV(k + 1 == count)]);
  }

  /** The first half of the body: `val = arr[k]` and `sum` updated. */
  lemma LoopAccumulate(f: Function, arr: seq<int>, count: int, k: nat, s: RVal, st: State, n: nat) returns (st': State)
    requires LoopCode(f) && ArrayOfI64(arr) && k < |arr| && (s.IntV? || s.PoisonV?) && AtLoopTop(st, arr, k, s)
    ensures AddValues(s, IntV(arr[k]), false).Some?
    ensures InLoop(st', arr, 6, k + 1, k, AddValues(s, IntV(arr[k]), false).value)
    ensures Exec(f, CallEnv(count), st, n + 6) == Exec(f, CallEnv(count), st', n)
  {
    var st2 := LoopAddress(f, arr, count, k, s, st, n + 4);
    var st3 := LoopLoad(f, arr, count, k, s, st2, n + 3);
    var st5 := LoopAdd(f, arr, count, k, s, st3, n + 1);
    st' := LoopStoreSum(f, arr, count, k, s, AddValues(s, IntV(arr[k]), false).value, st5, n);
  }

  /** The second half of the body: `i` updated and compared with `count`. */
  lemma LoopAdvance(f: Function, arr: seq<int>, count: int, k: nat, s': RVal, st: State, n: nat) returns (st': State)
    requires LoopCode(f) && ArrayOfI64(arr) && k < |arr| && InLoop(st, arr, 6, k + 1, k, s')
    ensures AtBackBranch(st', arr, count, k, s')
    ensures Exec(f, CallEnv(count), st, n + 5) == Exec(f, CallEnv(count), st', n)
  {
    var st8 := LoopInc(f, arr, count, k, s', st, n + 3);
    var st9 := LoopStoreIndex(f, arr, count, k, s', st8, n + 2);
    st' := LoopCmp(f, arr, count, k, s', st9, n);
  }

  /** The loop body with `i = k < |arr|`: eleven steps to the branch, with
      `sum = s + arr[k]` (wrapping) and `i = k + 1` in the slots. */
  lemma LoopBody(f: Function, arr: seq<int>, count: int, k: nat, s: RVal, st: State, n: nat) returns (st': State)
    requires LoopCode(f) && ArrayOfI64(arr) && k < |arr| && (s.IntV? || s.PoisonV?) && AtLoopTop(st, arr, k, s)
    ensures AddValues(s, IntV(arr[k]), false).Some?
    ensures AtBackBranch(st', arr, count, k, AddValues(s, IntV(arr[k]), false).value)
    ensures Exec(f, CallEnv(count), st, n + 11) == Exec(f, CallEnv(count), st', n)
  {
    var st6 := LoopAccumulate(f, arr, count, k, s, st, n + 5);
    st' := LoopAdvance(f, arr, count, k, AddValues(s, IntV(arr[k]), false).value, st6, n);
  }

  /** At the back branch with `cond` true: `exit` returns `*sum`. */
  lemma ExitFromLoop(f: Function, arr: seq<int>, count: int, k: nat, s': RVal, st: State, n: nat)
    requires LoopCode(f) && ExitCode(f) && AtBackBranch(st, arr, count, k, s') && k + 1 == count
    ensures Exec(f, CallEnv(count), st, n + 3) == Returned(s', k + 1)
  {
    var env := CallEnv(count);
    EnterNoPhi(f, env, st, Exit);
    var ex := st.(block := Exit, pc := 0);
    StepBranch(f, env, st, 25, Reg(24), Exit, Loop, true, ex, n + 2);
    ExitReturns(f, count, ex, s', n);
  }

  /** At the back branch with `cond` false: the top of `loop` again. */
  lemma BackEdge(f: Function, arr: seq<int>, count: int, k: nat, s': RVal, st: State, n: nat) returns (lp: State)
    requires LoopCode(f) && AtBackBranch(st, arr, count, k, s') && k + 1 != count
    ensures AtLoopTop(lp, arr, k + 1, s')
    ensures Exec(f, CallEnv(count), st, n + 1) == Exec(f, CallEnv(count), lp, n)
  {
    var env := CallEnv(count);
    EnterNoPhi(f, env, st, Loop);
    lp := st.(block := Loop, pc := 0);
    StepBranch(f, env, st, 25, Reg(24), Exit, Loop, false, lp, n);
  }

  /** With `i = |arr|` the load of `arr[i]` is outside the array. */
  lemma ReadPastEndWith(f: Function, arr: seq<int>, count: int, s: RVal, st: State, fuel: nat, n: nat)
    requires LoopCode(f) && AtLoopTop(st, arr, |arr|, s) && fuel == n + 3
    ensures Exec(f, CallEnv(count), st, fuel) == Faulted(OutOfBounds)
  {
    var st2 := LoopAddress(f, arr, count, |arr|, s, st, n + 1);
    StepLoadOutside(f, CallEnv(count), st2, 16, Reg(15), |arr|, n);
  }

  /** The last iteration: `*i == count`, so `*sum` is returned. */
  lemma LastIterationWith(f: Function, arr: seq<int>, count: int, k: nat, s: RVal, st: State, fuel: nat, n: nat)
    requires LoopCode(f) && ExitCode(f)
    requires ArrayOfI64(arr) && k < |arr| && (s.IntV? || s.PoisonV?) && AtLoopTop(st, arr, k, s) && k + 1 == count
    requires fuel == n + 14
    ensures AddValues(s, IntV(arr[k]), false).Some?
    ensures Exec(f, CallEnv(count), st, fuel) == Returned(AddValues(s, IntV(arr[k]), false).value, k + 1)
  {
    var st' := LoopBody(f, arr, count, k, s, st, n + 3);
    ExitFromLoop(f, arr, count, k, AddValues(s, IntV(arr[k]), false).value, st', n);
  }

  /** Any other iteration: twelve steps back to the top of `loop`. */
  lemma NextIterationWith(f: Function, arr: seq<int>, count: int, k: nat, s: RVal, st: State, fuel: nat, n: nat) returns (lp: State)
    requires LoopCode(f)
    requires ArrayOfI64(arr) && k < |arr| && (s.IntV? || s.PoisonV?) && AtLoopTop(st, arr, k, s) && k + 1 != count
    requires fuel == n + 12
    ensures AddValues(s, IntV(arr[k]), false).Some?
    ensures AtLoopTop(lp, arr, k + 1, AddValues(s, IntV(arr[k]), false).value)
    ensures Exec(f, CallEnv(count), st, fuel) == Exec(f, CallEnv(count), lp, n)
  {
    var st' := LoopBody(f, arr, count, k, s, st, n + 1);
    lp := BackEdge(f, arr, count, k, AddValues(s, IntV(arr[k]), false).value, st', n);
  }

  /** The iterations that end the loop: past the end of the array it
      faults, at `i + 1 == count` it returns. */
  lemma LoopEnds(f: Function, arr: seq<int>, count: int, k: nat, s: RVal, st: State, fuel: nat)
    requires LoopCode(f) && ExitCode(f)
    requires ArrayOfI64(arr) && k <= |arr| && AtLoopTop(st, arr, k, s)
    requires s.IntV? || s.PoisonV?
    requires k == |arr| || k + 1 == count
    requires fuel >= 12 * (|arr| - k) + 3
    ensures Exec(f, CallEnv(count), st, fuel) == LoopSpec(arr, count, k, s, false)
  {
    LoopSpecUnfold(arr, count, k, s, false);
    if k == |arr| {
      var n: nat := fuel - 3;
      ReadPastEndWith(f, arr, count, s, st, fuel, n);
    } else {
      var n: nat := fuel - 14;
      LastIterationWith(f, arr, count, k, s, st, fuel, n);
    }
  }

  /** From the top of `loop` the kernel behaves as `LoopSpec` with plain
      addition: the slots carry `i` and `sum` from one iteration to the
      next. */
  lemma {:induction false} LoopRuns(f: Function, arr: seq<int>, count: int, k: nat, s: RVal, st: State, fuel: nat)
    requires LoopCode(f) && ExitCode(f)
    requires ArrayOfI64(arr) && k <= |arr| && AtLoopTop(st, arr, k, s)
    requires s.IntV? || s.PoisonV?
    requires fuel >= 12 * (|arr| - k) + 3
    ensures Exec(f, CallEnv(count), st, fuel) == LoopSpec(arr, count, k, s, false)
    decreases |arr| - k
  {
    if k == |arr| || k + 1 == count {
      LoopEnds(f, arr, count, k, s, st, fuel);
    } else {
      LoopSpecUnfold(arr, count, k, s, false);
      var n: nat := fuel - 12;
      var s' := AddValues(s, IntV(arr[k]), false).value;
      var lp := NextIterationWith(f, arr, count, k, s, st, fuel, n);
      LoopRuns(f, arr, count, k + 1, s', lp, n);
    }
  }

  /** `count != 0`: `check`, then the loop. */
  lemma NonZeroCount(f: Function, arr: seq<int>, count: int, fuel: nat)
    requires CheckCode(f) && LoopCode(f) && ExitCode(f)
    requires ArrayOfI64(arr) && count != 0
    requires fuel >= 12 * |arr| + 17
    ensures Call(f, arr, count, fuel) == LoopSpec(arr, count, 0, IntV(0), false)
  {
    var n: nat := fuel - 14;
    var st0 := StartLoopWith(f, arr, count, fuel, n);
    LoopRuns(f, arr, count, 0, IntV(0), st0, n);
  }

  /** Any function with the kernel's code behaves as `KernelSpec` with
      plain addition, for every i64 array and every `count`. */
  lemma KernelMeetsSpec(f: Function, arr: seq<int>, count: int, fuel: nat)
    requires CheckCode(f) && LoopCode(f) && ExitCode(f)
    requires ArrayOfI64(arr)
    requires fuel >= 12 * |arr| + 17
    ensures Call(f, arr, count, fuel) == KernelSpec(arr, count, false)
  {
    if count == 0 {
      var n: nat := fuel - 16;
      ZeroCountWith(f, arr, fuel, n);
    } else {
      NonZeroCount(f, arr, count, fuel);
    }
  }

  /** The stack-slot kernel behaves as `KernelSpec` with plain addition. */
  lemma DebugKernelMeetsSpec(arr: seq<int>, count: int, fuel: nat)
    requires ArrayOfI64(arr)
    requires fuel >= 12 * |arr| + 17
    ensures Call(DebugKernel(), arr, count, fuel) == KernelSpec(arr, count, false)
  {
    DebugKernelCode();
    KernelMeetsSpec(DebugKernel(), arr, count, fuel);
  }

  /** For `0 <= count <= |arr|` the result is the sum of `arr[..count]`
      modulo 2^64, and exactly `count` elements are read. */
  lemma DebugKernelSum(arr: seq<int>, count: int, fuel: nat)
    requires ArrayOfI64(arr) && 0 <= count <= |arr|
    requires fuel >= 12 * |arr| + 17
    ensures Call(DebugKernel(), arr, count, fuel) == Returned(IntV(I64.Wrap(Sum(arr[..count]))), count)
  {
    DebugKernelMeetsSpec(arr, count, fuel);
    KernelSpecSum(arr, count, false);
  }

  /** `count == 0`: the constant 0 stored into `sum` in `check` is returned
      without a single array read, whatever `arr` is. */
  lemma DebugKernelZeroCount(arr: seq<int>, fuel: nat)
    requires fuel >= 16
    ensures Call(DebugKernel(), arr, 0, fuel) == Returned(IntV(0), 0)
  {
    DebugKernelCode();
    var n: nat := fuel - 16;
    ZeroCountWith(DebugKernel(), arr, fuel, n);
  }

  /** A negative `count`, or one beyond the array, reads past its end. */
  lemma DebugKernelOutOfRange(arr: seq<int>, count: int, fuel: nat)
    requires ArrayOfI64(arr) && (count < 0 || count > |arr|)
    requires fuel >= 12 * |arr| + 17
    ensures Call(DebugKernel(), arr, count, fuel) == Faulted(OutOfBounds)
  {
    DebugKernelMeetsSpec(arr, count, fuel);
    KernelSpecOutOfRange(arr, count, false);
  }

  /** What `main` computes: on 0, 1, ..., n-1 (n up to 2^31) the kernel
      returns n(n-1)/2. */
  lemma DebugKernelIota(arr: seq<int>, fuel: nat)
    requires ArrayOfI64(arr) && |arr| <= 0x8000_0000
    requires forall k :: 0 <= k < |arr| ==> arr[k] == k
    requires fuel >= 12 * |arr| + 17
    ensures Call(DebugKernel(), arr, |arr|, fuel) == Returned(IntV(|arr| * (|arr| - 1) / 2), |arr|)
  {
    IotaFits(arr, |arr|);
    assert arr[..|arr|] == arr;
    DebugKernelSum(arr, |arr|, fuel);
  }

  /** The two encodings agree whenever no running sum overflows: both
      return the sum of `arr[..count]` after reading `count` elements. When
      one does, the phi kernel's `add nsw` yields poison while the slot
      kernel's plain `add` wraps. */
  lemma KernelsAgree(arr: seq<int>, count: int, fuel: nat)
    requires ArrayOfI64(arr) && 0 <= count <= |arr|
    requires fuel >= 12 * |arr| + 17
    ensures PartialSumsFit(arr, count) ==>
              Call(DebugKernel(), arr, count, fuel) == Call(SumKernel.PhiKernel(), arr, count, fuel)
              == Returned(IntV(Sum(arr[..count])), count)
    ensures !PartialSumsFit(arr, count) ==>
              && Call(SumKernel.PhiKernel(), arr, count, fuel) == Returned(PoisonV, count)
              && Call(DebugKernel(), arr, count, fuel) == Returned(IntV(I64.Wrap(Sum(arr[..count]))), count)
  {
    DebugKernelSum(arr, count, fuel);
    SumKernel.PhiKernelSum(arr, count, fuel);
    if PartialSumsFit(arr, count) && count > 0 {
      assert I64.InRange(Sum(arr[..count]));
    }
    assert arr[..0] == [];
  }

  // ---------------------------------------------------------------------
  // Debug locations and descriptors

  /** The instructions emitted while the location is unset: everything in
      `check` before the stores at position 10 except the declares, which
      carry their own location. */
  predicate InPrologue(b: nat, j: nat, ins: Instr) {
    b == Check && j < 10 && !ins.op.DbgDeclare?
  }

  /** The location is unset exactly on the prologue (the slots of the four
      variables and the stores of the parameters into theirs); every other
      instruction carries a location in `sumfunc`'s subprogram. */
  lemma DebugKernelLocations()
    ensures forall b, j :: 0 <= b < |DebugKernel().blocks| && 0 <= j < |DebugKernel().blocks[b].instrs| ==>
              (DebugKernel().blocks[b].instrs[j].loc == NoLoc <==> InPrologue(b, j, DebugKernel().blocks[b].instrs[j]))
    ensures forall b, j :: 0 <= b < |DebugKernel().blocks| && 0 <= j < |DebugKernel().blocks[b].instrs| ==>
              DebugKernel().blocks[b].instrs[j].loc == NoLoc || DebugKernel().blocks[b].instrs[j].loc == Here
    ensures forall j :: 0 <= j < 10 && !CheckInstrs()[j].op.DbgDeclare? ==>
              CheckInstrs()[j].op.Alloca? || CheckInstrs()[j].op == Store(Arg(0), Reg(0)) || CheckInstrs()[j].op == Store(Arg(1), Reg(1))
  {
    var f := DebugKernel();
    assert forall j :: 0 <= j < 14 ==> (CheckInstrs()[j].loc == NoLoc <==> InPrologue(Check, j, CheckInstrs()[j]));
    assert forall j :: 0 <= j < 14 ==> CheckInstrs()[j].loc == NoLoc || CheckInstrs()[j].loc == Here;
    assert forall j :: 0 <= j < 12 ==> LoopInstrs()[j].loc == Here;
    assert forall j :: 0 <= j < 2 ==> ExitInstrs()[j].loc == Here;
  }

  /** The declare at position `d` of `check` binds variable `v` to the slot
      made by the `alloca` at position `a`, which bears the variable's name. */
  predicate DeclaresSlot(c: DebugChoices, d: nat, a: nat, v: nat) {
    && a < d < |CheckInstrs()| && v < |Variables(c)|
    && CheckInstrs()[a].op.Alloca? && CheckInstrs()[a].name == Variables(c)[v].name
    && CheckInstrs()[d].op == DbgDeclare(Reg(CheckInstrs()[a].id), v)
  }

  /** Four descriptors, each bound by a declare to its own slot: `arr` and
      `count` are parameter variables, `sum` and `i` automatic ones (argument
      number 0); only the parameters are created with AlwaysPreserve; the only declares are these four, all in `check`. */
  lemma DebugKernelDescriptors(c: DebugChoices)
    ensures |Variables(c)| == 4
    ensures DeclaresSlot(c, 2, 0, 0) && DeclaresSlot(c, 3, 1, 1) && DeclaresSlot(c, 7, 6, 2) && DeclaresSlot(c, 9, 8, 3)
    ensures forall j :: 0 <= j < |CheckInstrs()| && CheckInstrs()[j].op.DbgDeclare? ==> j == 2 || j == 3 || j == 7 || j == 9
    ensures forall j :: 0 <= j < |LoopInstrs()| ==> !LoopInstrs()[j].op.DbgDeclare?
    ensures forall j :: 0 <= j < |ExitInstrs()| ==> !ExitInstrs()[j].op.DbgDeclare?
    ensures Variables(c)[2].arg == 0 && Variables(c)[3].arg == 0
    ensures Variables(c)[0].preserve && Variables(c)[1].preserve && !Variables(c)[2].preserve && !Variables(c)[3].preserve
    ensures forall v :: 0 <= v < 4 ==> Variables(c)[v].scope == Sp
  {
    assert forall j :: 0 <= j < 14 && CheckInstrs()[j].op.DbgDeclare? ==> j == 2 || j == 3 || j == 7 || j == 9;
  }

  /** The parameters' slots are written once in the prologue and never read:
      the loop indexes the raw `arr` and compares with the raw `count`. */
  lemma ParameterSlotsUnread()
    ensures forall b, j :: 0 <= b < |DebugKernel().blocks| && 0 <= j < |DebugKernel().blocks[b].instrs| && DebugKernel().blocks[b].instrs[j].op.Load? ==>
              DebugKernel().blocks[b].instrs[j].op.addr != Reg(0) && DebugKernel().blocks[b].instrs[j].op.addr != Reg(1)
    ensures LoopInstrs()[1].op == Gep(Arg(0), Reg(14)) && LoopInstrs()[10].op == ICmpEq(Reg(23), Arg(1))
  {
    assert forall j :: 0 <= j < 14 ==> !CheckInstrs()[j].op.Load?;
    assert forall j :: 0 <= j < 12 && LoopInstrs()[j].op.Load? ==> LoopInstrs()[j].op.addr != Reg(0) && LoopInstrs()[j].op.addr != Reg(1);
  }

  /** After `finalize` the emitted function and the committed descriptors
      agree: all locations are in the function's subprogram, every declared
      variable is scoped to it, and it retains exactly the variables created
      with AlwaysPreserve. */
  lemma DebugKernelInfoAgrees(c: DebugChoices)
    ensures DebugInfoAgrees(DebugKernel(), DebugKernelInfo(c))
  {
    var f, info := DebugKernel(), DebugKernelInfo(c);
    DebugKernelLocations();
    DebugKernelDescriptors(c);
    assert info.subprograms[Sp].retained == [0, 1];
    forall b, j | 0 <= b < |f.blocks| && 0 <= j < |f.blocks[b].instrs| && f.blocks[b].instrs[j].op.DbgDeclare?
      ensures f.blocks[b].instrs[j].op.variable < |info.variables|
    {
      assert b == Check;
      assert j == 2 || j == 3 || j == 7 || j == 9;
    }
  }

  // The two findings: each as written and corrected.

  /** As written, `arr` is described with argument number 0, which marks a
      variable that is not a parameter, and `count`, the second parameter,
      as parameter 1. */
  lemma AsWrittenArgNumbers()
    ensures BindsArgument(CheckInstrs(), Variables(AsWritten()), 2, 4, 0, 0)
    ensures BindsArgument(CheckInstrs(), Variables(AsWritten()), 3, 5, 1, 1)
    ensures Variables(AsWritten())[0].arg == 0 && Variables(AsWritten())[1].arg == 1
    ensures !ParametersNumbered(CheckInstrs(), Variables(AsWritten()))
  {
    assert BindsArgument(CheckInstrs(), Variables(AsWritten()), 2, 4, 0, 0);
  }

  /** With the numbers 1 and 2, each parameter descriptor carries the
      1-based position of the argument stored into the slot it describes. */
  lemma CorrectedArgNumbers()
    ensures BindsArgument(CheckInstrs(), Variables(Corrected()), 2, 4, 0, 0)
    ensures BindsArgument(CheckInstrs(), Variables(Corrected()), 3, 5, 1, 1)
    ensures ParametersNumbered(CheckInstrs(), Variables(Corrected()))
  {
    var instrs, vars := CheckInstrs(), Variables(Corrected());
    forall kd: nat, ks: nat, v: nat, j: nat | BindsArgument(instrs, vars, kd, ks, v, j)
      ensures vars[v].arg == j + 1
    {
      assert kd == 2 || kd == 3 || kd == 7 || kd == 9;
      assert ks == 4 || ks == 5 || ks == 10 || ks == 11;
    }
  }

  /** As written, the pointer type's alignment is `DW_ATE_signed`, 5 bits. */
  lemma AsWrittenPointerAlignment()
    ensures DIPtrInt64(AsWritten()).alignInBits == 5
    ensures !WholeByteAlignment(DIPtrInt64(AsWritten()))
  {
  }

  /** With the alignment left unspecified, every debug type of `sumfunc` is
      byte-aligned. */
  lemma CorrectedPointerAlignment()
    ensures forall k :: 0 <= k < |Subprogram(Corrected()).signature| ==> WholeByteAlignment(Subprogram(Corrected()).signature[k])
    ensures forall v :: 0 <= v < |Variables(Corrected())| ==> WholeByteAlignment(Variables(Corrected())[v].ty)
  {
  }
}
