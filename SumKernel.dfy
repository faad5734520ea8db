/** The array-sum kernel in SSA form with phi nodes, as `generateFunction`
    in sum.cpp builds it: `sumfunc(arr: i64*, count: i64) -> i64` with blocks
    `check`, `loop` and `exit`. */
module SumKernel {
  import opened Ir
  import opened IrBuilder
  import opened Interp
  import opened Steps
  import opened SumSpec
  import I64

  const Check: nat := 0
  const Loop: nat := 1
  const Exit: nat := 2

  /** The blocks `generateFunction` emits, instruction by instruction.
      Handles are numbered in emission order. */
  function CheckBlock(): Block {
    Block("check", [
      Instr(0, "nullcheck", ICmpEq(Arg(1), ConstInt(0)), NoLoc),
      Instr(1, "", CondBr(Reg(0), Exit, Loop), NoLoc)])
  }

  /** The loop body as emitted, before the phis get their incoming edges. */
  function LoopBody0(): seq<Instr> {
    [ Instr(2, "i", Phi(I64, []), NoLoc),
      Instr(3, "sum", Phi(I64, []), NoLoc),
      Instr(4, "addr", Gep(Arg(0), Reg(2)), NoLoc),
      Instr(5, "val", Load(Reg(4)), NoLoc),
      Instr(6, "nsum", Add(Reg(3), Reg(5), true), NoLoc),
      Instr(7, "ni", Add(Reg(2), ConstInt(1), false), NoLoc),
      Instr(8, "cond", ICmpEq(Reg(7), Arg(1)), NoLoc),
      Instr(9, "", CondBr(Reg(8), Exit, Loop), NoLoc)]
  }

  function LoopBlock(): Block {
    Block("loop", LoopBody0()
      [0 := Instr(2, "i", Phi(I64, [Incoming(Reg(7), Loop), Incoming(ConstInt(0), Check)]), NoLoc)]
      [1 := Instr(3, "sum", Phi(I64, [Incoming(Reg(6), Loop), Incoming(ConstInt(0), Check)]), NoLoc)])
  }

  function ExitBlock(): Block {
    Block("exit", [
      Instr(10, "ret", Phi(I64, [Incoming(ConstInt(0), Check), Incoming(Reg(6), Loop)]), NoLoc),
      Instr(11, "", Ret(Reg(10)), NoLoc)])
  }

  /** The function `generateFunction` emits. */
  function PhiKernel(): Function {
    Function("sumfunc", ExternalLinkage, [Param("arr", Ptr(I64)), Param("count", I64)], I64,
      [CheckBlock(), LoopBlock(), ExitBlock()], None)
  }

  /** `generateFunction(Context, M)`: declare `sumfunc`, append the three
      blocks, name the arguments, and emit the blocks in order. */
  method GenerateFunction(m: Module) returns (f: Function)
    modifies m`functions
    ensures m.functions == old(m.functions) + [f]
    ensures f == PhiKernel()
    ensures f.name == "sumfunc" && f.linkage == ExternalLinkage
    ensures [f.params[0].ty, f.params[1].ty] == [Ptr(I64), I64] && |f.params| == 2 && f.retType == I64
    ensures WellFormed(f)
  {
    var jit := DeclareFunction();
    var builder := new IRBuilder(jit, Check);
    EmitCheck(builder);
    var nsum := EmitLoop(builder);
    EmitExit(builder, nsum);
    f := jit.Snapshot();
    assert f.blocks == PhiKernel().blocks;
    PhiKernelWellFormed();
    m.AddFunction(f);
  }

  /** `Function::Create` with signature `i64 (i64*, i64)`, the blocks
      `check`, `loop` and `exit` appended empty, and the arguments named
      `arr` and `count`. */
  method DeclareFunction() returns (jit: FunctionDef)
    ensures fresh(jit) && jit.Valid() && jit.nextId == 0
    ensures jit.Snapshot() == PhiKernel().(blocks := [Block("check", []), Block("loop", []), Block("exit", [])])
  {
    jit := new FunctionDef.Create("sumfunc", ExternalLinkage, [Param("", Ptr(I64)), Param("", I64)], I64);
    var check := jit.AppendBlock("check");
    var loop := jit.AppendBlock("loop");
    var exit := jit.AppendBlock("exit");
    jit.SetArgName(0, "arr");
    jit.SetArgName(1, "count");
  }

  /** `if (count == 0) goto exit else goto loop`, at the end of `check`. */
  method EmitCheck(builder: IRBuilder)
    requires builder.Valid() && builder.insertBlock == Check && builder.curLoc == NoLoc
    requires builder.fn.blocks == [Block("check", []), Block("loop", []), Block("exit", [])]
    requires builder.fn.nextId == 0
    modifies builder.fn`blocks, builder.fn`nextId
    ensures builder.Valid()
    ensures builder.fn.blocks == [CheckBlock(), Block("loop", []), Block("exit", [])]
    ensures builder.fn.nextId == 2
  {
    var count, exit, loop := Arg(1), Exit, Loop;
    var nullcheck := builder.CreateICmpEQ(count, ConstInt(0), "nullcheck");
    builder.CreateCondBr(nullcheck, exit, loop);
    assert builder.fn.blocks[Check].instrs == CheckBlock().instrs;
  }

  /** The body of `loop`: the two phis are created empty, the body and the
      back branch are emitted, and only then do the phis get their incoming
      edges. Returns the handle of `nsum`, which the exit phi merges. */
  method EmitLoop(builder: IRBuilder) returns (nsum: Value)
    requires builder.Valid() && builder.curLoc == NoLoc
    requires builder.fn.blocks == [CheckBlock(), Block("loop", []), Block("exit", [])]
    requires builder.fn.nextId == 2
    modifies builder, builder.fn`blocks, builder.fn`nextId
    ensures builder.Valid() && builder.curLoc == NoLoc
    ensures builder.fn.blocks == [CheckBlock(), LoopBlock(), Block("exit", [])]
    ensures builder.fn.nextId == 10 && nsum == Reg(6)
  {
    var phiI, phiSum, ni;
    phiI, phiSum, nsum, ni := EmitLoopBody(builder);
    ConnectLoopPhis(builder.fn, phiI, phiSum, nsum, ni);
  }

  /** `i` and `sum` as empty phis, then `addr`, `val`, `nsum`, `ni`, `cond`
      and the branch back to `loop` or out to `exit`. */
  method EmitLoopBody(builder: IRBuilder) returns (phiI: PhiRef, phiSum: PhiRef, nsum: Value, ni: Value)
    requires builder.Valid() && builder.curLoc == NoLoc
    requires builder.fn.blocks == [CheckBlock(), Block("loop", []), Block("exit", [])]
    requires builder.fn.nextId == 2
    modifies builder, builder.fn`blocks, builder.fn`nextId
    ensures builder.Valid() && builder.curLoc == NoLoc
    ensures builder.fn.blocks == [CheckBlock(), Block("loop", LoopBody0()), Block("exit", [])]
    ensures builder.fn.nextId == 10
    ensures phiI == PhiRef(Loop, 0, Reg(2)) && phiSum == PhiRef(Loop, 1, Reg(3))
    ensures nsum == Reg(6) && ni == Reg(7)
  {
    builder.SetInsertPoint(Loop);
    phiI, phiSum := EmitLoopPhis(builder);
    var addr, val;
    addr, val, nsum := EmitLoopSum(builder, phiI.value, phiSum.value);
    ni := EmitLoopTest(builder, phiI.value);
  }

  /** `i` and `sum`, created with no incoming edges. */
  method EmitLoopPhis(builder: IRBuilder) returns (phiI: PhiRef, phiSum: PhiRef)
    requires builder.Valid() && builder.curLoc == NoLoc && builder.insertBlock == Loop
    requires builder.fn.blocks == [CheckBlock(), Block("loop", []), Block("exit", [])]
    requires builder.fn.nextId == 2
    modifies builder.fn`blocks, builder.fn`nextId
    ensures builder.Valid()
    ensures builder.fn.blocks == [CheckBlock(), Block("loop", LoopBody0()[..2]), Block("exit", [])]
    ensures builder.fn.nextId == 4
    ensures phiI == PhiRef(Loop, 0, Reg(2)) && phiSum == PhiRef(Loop, 1, Reg(3))
  {
    var body := LoopBody0();
    phiI := builder.CreatePHI(I64, 2, "i");
    AppendInstrThree(CheckBlock(), Block("loop", []), Block("exit", []), body[0]);
    phiSum := builder.CreatePHI(I64, 2, "sum");
    AppendInstrThree(CheckBlock(), Block("loop", [] + [body[0]]), Block("exit", []), body[1]);
    assert [] + [body[0]] + [body[1]] == body[..2];
  }

  /** `addr = arr + i`, `val = *addr` and `nsum = sum + val` (`add nsw`). */
  method EmitLoopSum(builder: IRBuilder, i: Value, sum: Value) returns (addr: Value, val: Value, nsum: Value)
    requires builder.Valid() && builder.curLoc == NoLoc && builder.insertBlock == Loop
    requires builder.fn.blocks == [CheckBlock(), Block("loop", LoopBody0()[..2]), Block("exit", [])]
    requires builder.fn.nextId == 4 && i == Reg(2) && sum == Reg(3)
    modifies builder.fn`blocks, builder.fn`nextId
    ensures builder.Valid()
    ensures builder.fn.blocks == [CheckBlock(), Block("loop", LoopBody0()[..5]), Block("exit", [])]
    ensures builder.fn.nextId == 7 && nsum == Reg(6)
  {
    var body := LoopBody0();
    addr := builder.CreateGEP(Arg(0), i, "addr");
    AppendInstrThree(CheckBlock(), Block("loop", body[..2]), Block("exit", []), body[2]);
    val := builder.CreateLoad(addr, "val");
    AppendInstrThree(CheckBlock(), Block("loop", body[..2] + [body[2]]), Block("exit", []), body[3]);
    nsum := builder.CreateAdd(sum, val, "nsum", true);
    AppendInstrThree(CheckBlock(), Block("loop", body[..2] + [body[2]] + [body[3]]), Block("exit", []), body[4]);
    assert body[..2] + [body[2]] + [body[3]] + [body[4]] == body[..5];
  }

  /** `ni = i + 1`, `cond = (ni == count)` and the branch to `exit` or
      back to `loop`. */
  method EmitLoopTest(builder: IRBuilder, i: Value) returns (ni: Value)
    requires builder.Valid() && builder.curLoc == NoLoc && builder.insertBlock == Loop
    requires builder.fn.blocks == [CheckBlock(), Block("loop", LoopBody0()[..5]), Block("exit", [])]
    requires builder.fn.nextId == 7 && i == Reg(2)
    modifies builder.fn`blocks, builder.fn`nextId
    ensures builder.Valid()
    ensures builder.fn.blocks == [CheckBlock(), Block("loop", LoopBody0()), Block("exit", [])]
    ensures builder.fn.nextId == 10 && ni == Reg(7)
  {
    var body := LoopBody0();
    ni := builder.CreateAdd(i, ConstInt(1), "ni", false);
    AppendInstrThree(CheckBlock(), Block("loop", body[..5]), Block("exit", []), body[5]);
    var cond := builder.CreateICmpEQ(ni, Arg(1), "cond");
    AppendInstrThree(CheckBlock(), Block("loop", body[..5] + [body[5]]), Block("exit", []), body[6]);
    builder.CreateCondBr(cond, Exit, Loop);
    AppendInstrThree(CheckBlock(), Block("loop", body[..5] + [body[5]] + [body[6]]), Block("exit", []), body[7]);
    assert body[..5] + [body[5]] + [body[6]] + [body[7]] == body;
  }

  /** The incoming edges of `i` and `sum`: the next value when looping,
      0 when coming from `check`. */
  method ConnectLoopPhis(jit: FunctionDef, phiI: PhiRef, phiSum: PhiRef, nsum: Value, ni: Value)
    requires jit.Valid() && jit.nextId == 10
    requires jit.blocks == [CheckBlock(), Block("loop", LoopBody0()), Block("exit", [])]
    requires phiI == PhiRef(Loop, 0, Reg(2)) && phiSum == PhiRef(Loop, 1, Reg(3))
    requires nsum == Reg(6) && ni == Reg(7)
    modifies jit`blocks
    ensures jit.Valid()
    ensures jit.blocks == [CheckBlock(), LoopBlock(), Block("exit", [])]
  {
    var check, loop := Check, Loop;
    var e0, e1, e2, e3 := Incoming(Reg(7), Loop), Incoming(ConstInt(0), Check), Incoming(Reg(6), Loop), Incoming(ConstInt(0), Check);
    ghost var l0 := Block("loop", LoopBody0());
    jit.AddIncoming(phiI, ni, loop);
    AddPhiIncomingThree(CheckBlock(), l0, Block("exit", []), 0, e0);
    ghost var l1 := AddBlockIncoming(l0, 0, e0);
    assert [] + [e0] == [e0];
    jit.AddIncoming(phiI, ConstInt(0), check);
    AddPhiIncomingThree(CheckBlock(), l1, Block("exit", []), 0, e1);
    ghost var l2 := AddBlockIncoming(l1, 0, e1);
    assert [e0] + [e1] == [e0, e1];
    assert l2.instrs[0] == LoopBlock().instrs[0];
    jit.AddIncoming(phiSum, nsum, loop);
    AddPhiIncomingThree(CheckBlock(), l2, Block("exit", []), 1, e2);
    ghost var l3 := AddBlockIncoming(l2, 1, e2);
    assert [] + [e2] == [e2];
    jit.AddIncoming(phiSum, ConstInt(0), check);
    AddPhiIncomingThree(CheckBlock(), l3, Block("exit", []), 1, e3);
    ghost var l4 := AddBlockIncoming(l3, 1, e3);
    assert [e2] + [e3] == [e2, e3];
    assert l4.instrs[1] == LoopBlock().instrs[1];
    assert l4.instrs == LoopBlock().instrs;
  }

  /** `exit`: the return value is a phi of 0 (from `check`) and `nsum`
      (from `loop`), and it is returned. */
  method EmitExit(builder: IRBuilder, nsum: Value)
    requires builder.Valid() && builder.curLoc == NoLoc && nsum == Reg(6)
    requires builder.fn.blocks == [CheckBlock(), LoopBlock(), Block("exit", [])]
    requires builder.fn.nextId == 10
    modifies builder, builder.fn`blocks, builder.fn`nextId
    ensures builder.Valid()
    ensures builder.fn.blocks == [CheckBlock(), LoopBlock(), ExitBlock()]
    ensures builder.fn.nextId == 12
  {
    builder.SetInsertPoint(Exit);
    var ret := EmitExitPhi(builder, nsum);
    builder.CreateRet(ret);
    AppendInstrThree(CheckBlock(), LoopBlock(), Block("exit", [ExitBlock().instrs[0]]), ExitBlock().instrs[1]);
    assert [ExitBlock().instrs[0]] + [ExitBlock().instrs[1]] == ExitBlock().instrs;
  }

  /** The phi `ret`, created empty and then given its two edges. */
  method EmitExitPhi(builder: IRBuilder, nsum: Value) returns (ret: Value)
    requires builder.Valid() && builder.curLoc == NoLoc && builder.insertBlock == Exit && nsum == Reg(6)
    requires builder.fn.blocks == [CheckBlock(), LoopBlock(), Block("exit", [])]
    requires builder.fn.nextId == 10
    modifies builder.fn`blocks, builder.fn`nextId
    ensures builder.Valid()
    ensures builder.fn.blocks == [CheckBlock(), LoopBlock(), Block("exit", [ExitBlock().instrs[0]])]
    ensures builder.fn.nextId == 11 && ret == Reg(10)
  {
    var jit, check, loop := builder.fn, Check, Loop;
    var e0, e1 := Incoming(ConstInt(0), Check), Incoming(Reg(6), Loop);
    var phiRet := builder.CreatePHI(I64, 2, "ret");
    var ret0 := Instr(10, "ret", Phi(I64, []), NoLoc);
    AppendInstrThree(CheckBlock(), LoopBlock(), Block("exit", []), ret0);
    assert [] + [ret0] == [ret0];
    jit.AddIncoming(phiRet, ConstInt(0), check);
    AddPhiIncomingThree(CheckBlock(), LoopBlock(), Block("exit", [ret0]), 0, e0);
    ghost var x1 := AddBlockIncoming(Block("exit", [ret0]), 0, e0);
    assert [] + [e0] == [e0];
    jit.AddIncoming(phiRet, nsum, loop);
    AddPhiIncomingThree(CheckBlock(), LoopBlock(), x1, 0, e1);
    ghost var x2 := AddBlockIncoming(x1, 0, e1);
    assert [e0] + [e1] == [e0, e1];
    assert x2.instrs == [ExitBlock().instrs[0]];
    ret := phiRet.value;
  }

  // ---------------------------------------------------------------------
  // Structure

  /** `check` and `loop` both end in a conditional branch to `exit` and
      `loop`; `exit` ends in `ret`. */
  lemma PhiKernelShape()
    ensures |PhiKernel().blocks| == 3
    ensures PhiKernel().blocks[Check].name == "check" && PhiKernel().blocks[Loop].name == "loop"
    ensures PhiKernel().blocks[Exit].name == "exit"
    ensures Successors(PhiKernel().blocks[Check]) == {Exit, Loop}
    ensures Successors(PhiKernel().blocks[Loop]) == {Exit, Loop}
    ensures Successors(PhiKernel().blocks[Exit]) == {}
  {
  }

  lemma PhiKernelPredecessors()
    ensures Predecessors(PhiKernel(), Check) == {}
    ensures Predecessors(PhiKernel(), Loop) == {Check, Loop}
    ensures Predecessors(PhiKernel(), Exit) == {Check, Loop}
  {
    var f := PhiKernel();
    PhiKernelShape();
    assert forall p :: p in Predecessors(f, Check) ==> p == Check || p == Loop || p == Exit;
    assert forall p :: p in Predecessors(f, Loop) ==> p == Check || p == Loop || p == Exit;
    assert forall p :: p in Predecessors(f, Exit) ==> p == Check || p == Loop || p == Exit;
    assert Check in Predecessors(f, Loop) && Loop in Predecessors(f, Loop);
    assert Check in Predecessors(f, Exit) && Loop in Predecessors(f, Exit);
  }

  /** Each block ends in exactly one terminator, and its phis come first. */
  lemma PhiKernelBlocks()
    ensures forall b :: 0 <= b < |PhiKernel().blocks| ==> EndsInOneTerminator(PhiKernel().blocks[b])
    ensures forall b :: 0 <= b < |PhiKernel().blocks| ==> PhisFirst(PhiKernel().blocks[b])
  {
    var loop := LoopBlock().instrs;
    assert |loop| == 8 && forall k :: 2 <= k < 8 ==> loop[k] == LoopBody0()[k];
    assert EndsInOneTerminator(CheckBlock()) && EndsInOneTerminator(LoopBlock()) && EndsInOneTerminator(ExitBlock());
    assert PhisFirst(CheckBlock()) && PhisFirst(LoopBlock()) && PhisFirst(ExitBlock());
  }

  /** Each phi (`i`, `sum`, `ret`) has exactly one entry per predecessor. */
  lemma PhiKernelPhis()
    ensures forall b, k :: 0 <= b < |PhiKernel().blocks| && 0 <= k < |PhiKernel().blocks[b].instrs| ==>
              PhiMatchesPredecessors(PhiKernel(), b, PhiKernel().blocks[b].instrs[k].op)
  {
    var f := PhiKernel();
    PhiKernelPredecessors();
    var loop := LoopBlock().instrs;
    assert IncomingBlocks(loop[0].op.incoming) == {Check, Loop};
    assert IncomingBlocks(loop[1].op.incoming) == {Check, Loop};
    assert IncomingBlocks(ExitBlock().instrs[0].op.incoming) == {Check, Loop};
    forall b, k | 0 <= b < |f.blocks| && 0 <= k < |f.blocks[b].instrs|
      ensures PhiMatchesPredecessors(f, b, f.blocks[b].instrs[k].op)
    {
      if b == Loop && k >= 2 {
        assert f.blocks[b].instrs[k] == LoopBody0()[k];
      }
    }
  }

  /** The kernel passes the structural checks: one terminator per block,
      branch targets exist, phis first, phis match the predecessors, and
      nothing branches back to the entry block. */
  lemma PhiKernelWellFormed()
    ensures WellFormed(PhiKernel())
  {
    PhiKernelShape();
    PhiKernelPredecessors();
    PhiKernelBlocks();
    PhiKernelPhis();
  }

  /** A phi that lost its incoming edge from `check` is rejected: the
      predicate catches the hand-corrupted function. */
  lemma MissingIncomingRejected()
    ensures !WellFormed(PhiKernel().(blocks := AddPhiIncoming(
              PhiKernel().blocks[Loop := Block("loop", PhiKernel().blocks[Loop].instrs[0 := Instr(2, "i", Phi(I64, []), NoLoc)])],
              Loop, 0, Incoming(Reg(7), Loop))))
  {
    var g := PhiKernel().(blocks := AddPhiIncoming(
              PhiKernel().blocks[Loop := Block("loop", PhiKernel().blocks[Loop].instrs[0 := Instr(2, "i", Phi(I64, []), NoLoc)])],
              Loop, 0, Incoming(Reg(7), Loop)));
    assert g.blocks[Loop].instrs[0].op.incoming == [Incoming(Reg(7), Loop)];
    assert IncomingBlocks([Incoming(Reg(7), Loop)]) == {Loop};
    assert Check in Predecessors(g, Loop);
    assert !PhiMatchesPredecessors(g, Loop, g.blocks[Loop].instrs[0].op);
  }

  // ---------------------------------------------------------------------
  // Semantics
  //
  // The interpreter only looks at handles and operations, so the lemmas below
  // are stated for any function with the kernel's code (`KernelCode`) and
  // then applied to `PhiKernel()`.

  predicate CheckCode(f: Function) {
    && |f.blocks| == 3 && |f.blocks[Check].instrs| == 2
    && Code(f, Check, 0, 0, ICmpEq(Arg(1), ConstInt(0)))
    && Code(f, Check, 1, 1, CondBr(Reg(0), Exit, Loop))
  }

  predicate LoopCode(f: Function) {
    && |f.blocks| == 3 && |f.blocks[Loop].instrs| == 8
    && Code(f, Loop, 0, 2, Phi(I64, [Incoming(Reg(7), Loop), Incoming(ConstInt(0), Check)]))
    && Code(f, Loop, 1, 3, Phi(I64, [Incoming(Reg(6), Loop), Incoming(ConstInt(0), Check)]))
    && Code(f, Loop, 2, 4, Gep(Arg(0), Reg(2)))
    && Code(f, Loop, 3, 5, Load(Reg(4)))
    && Code(f, Loop, 4, 6, Add(Reg(3), Reg(5), true))
    && Code(f, Loop, 5, 7, Add(Reg(2), ConstInt(1), false))
    && Code(f, Loop, 6, 8, ICmpEq(Reg(7), Arg(1)))
    && Code(f, Loop, 7, 9, CondBr(Reg(8), Exit, Loop))
  }

  predicate ExitCode(f: Function) {
    && |f.blocks| == 3 && |f.blocks[Exit].instrs| == 2
    && Code(f, Exit, 0, 10, Phi(I64, [Incoming(ConstInt(0), Check), Incoming(Reg(6), Loop)]))
    && Code(f, Exit, 1, 11, Ret(Reg(10)))
  }

  lemma PhiKernelCode()
    ensures CheckCode(PhiKernel()) && LoopCode(PhiKernel()) && ExitCode(PhiKernel())
  {
  }

  /** Entering `loop` evaluates `i` and `sum` together: `ni` and `nsum` of
      the previous iteration on the back edge, 0 and 0 from `check`. */
  lemma EnterLoop(f: Function, env: Env, st: State)
    requires LoopCode(f) && (st.block == Check || st.block == Loop)
    requires st.block == Loop ==> 6 in st.regs && 7 in st.regs
    ensures Branch(f, env, st, Loop) ==
              Next(st.(block := Loop, pc := 2,
                       regs := st.regs[2 := if st.block == Loop then st.regs[7] else IntV(0)]
                                      [3 := if st.block == Loop then st.regs[6] else IntV(0)]))
  {
    var inc0 := [Incoming(Reg(7), Loop), Incoming(ConstInt(0), Check)];
    var inc1 := [Incoming(Reg(6), Loop), Incoming(ConstInt(0), Check)];
    var x0 := if st.block == Loop then Reg(7) else ConstInt(0);
    var x1 := if st.block == Loop then Reg(6) else ConstInt(0);
    assert IncomingValue(inc0, st.block) == Some(x0);
    assert IncomingValue(inc1, st.block) == Some(x1);
    EnterTwoPhis(f, env, st, Loop, 2, inc0, x0, if st.block == Loop then st.regs[7] else IntV(0),
                 3, inc1, x1, if st.block == Loop then st.regs[6] else IntV(0), I64);
  }

  /** Entering `exit` defines `ret`: 0 from `check`, `nsum` from `loop`. */
  lemma EnterExit(f: Function, env: Env, st: State)
    requires ExitCode(f) && (st.block == Check || st.block == Loop)
    requires st.block == Loop ==> 6 in st.regs
    ensures Branch(f, env, st, Exit) ==
              Next(st.(block := Exit, pc := 1, regs := st.regs[10 := if st.block == Loop then st.regs[6] else IntV(0)]))
  {
    var inc := [Incoming(ConstInt(0), Check), Incoming(Reg(6), Loop)];
    var x := if st.block == Loop then Reg(6) else ConstInt(0);
    assert IncomingValue(inc, st.block) == Some(x);
    EnterOnePhi(f, env, st, Exit, 10, I64, inc, x, if st.block == Loop then st.regs[6] else IntV(0));
  }

  /** At the top of the loop body, right after the phis: `i = k`,
      `sum = s`, and `k` elements read so far. */
  predicate AtLoopBody(st: State, arr: seq<int>, k: nat, s: RVal) {
    && st.block == Loop && st.pc == 2
    && Holds(st, 2, IntV(k)) && Holds(st, 3, s)
    && st.mem == arr && st.arrayReads == k
  }

  /** Before `val = *addr`: `addr` points at element `k` of the array. */
  predicate AtLoad(st: State, arr: seq<int>, k: nat, s: RVal) {
    && st.block == Loop && st.pc == 3
    && Holds(st, 2, IntV(k)) && Holds(st, 3, s) && Holds(st, 4, PtrV(ArrayMem, k))
    && st.mem == arr && st.arrayReads == k
  }

  /** Before `nsum = sum + val`: `val = arr[k]` has been read. */
  predicate AtAdd(st: State, arr: seq<int>, k: nat, s: RVal) {
    && st.block == Loop && st.pc == 4 && k < |arr|
    && Holds(st, 2, IntV(k)) && Holds(st, 3, s) && Holds(st, 5, IntV(arr[k]))
    && st.mem == arr && st.arrayReads == k + 1
  }

  /** At the branch that ends `loop`: `nsum = s'`, `ni = k + 1` and
      `cond = (ni == count)`. */
  predicate AtBackBranch(st: State, arr: seq<int>, count: int, k: nat, s': RVal) {
    && st.block == Loop && st.pc == 7
    && Holds(st, 6, s') && Holds(st, 7, IntV(k + 1)) && Holds(st, 8, BoolV(k + 1 == count))
    && st.mem == arr && st.arrayReads == k + 1
  }

  /** `addr = arr + i`. */
  lemma LoopGep(f: Function, arr: seq<int>, count: int, k: nat, s: RVal, st: State, n: nat) returns (st': State)
    requires LoopCode(f) && AtLoopBody(st, arr, k, s)
    ensures AtLoad(st', arr, k, s)
    ensures Exec(f, CallEnv(count), st, n + 1) == Exec(f, CallEnv(count), st', n)
  {
    st' := st.(pc := 3, regs := st.regs[4 := PtrV(ArrayMem, k)]);
    StepCompute(f, CallEnv(count), st, 4, Gep(Arg(0), Reg(2)), PtrV(ArrayMem, k), n);
  }

  /** `val = *addr` inside the array reads `arr[k]`. */
  lemma LoopLoad(f: Function, arr: seq<int>, count: int, k: nat, s: RVal, st: State, n: nat) returns (st': State)
    requires LoopCode(f) && k < |arr| && AtLoad(st, arr, k, s)
    ensures AtAdd(st', arr, k, s)
    ensures Exec(f, CallEnv(count), st, n + 1) == Exec(f, CallEnv(count), st', n)
  {
    st' := st.(pc := 4, regs := st.regs[5 := IntV(arr[k])], arrayReads := k + 1);
    StepLoadArray(f, CallEnv(count), st, 5, Reg(4), k, n);
  }

  /** `nsum = sum + val` with `add nsw`. */
  lemma LoopAdd(f: Function, arr: seq<int>, count: int, k: nat, s: RVal, st: State, n: nat) returns (st': State)
    requires LoopCode(f) && ArrayOfI64(arr) && (s.IntV? || s.PoisonV?) && AtAdd(st, arr, k, s)
    ensures AddValues(s, IntV(arr[k]), true).Some?
    ensures st'.block == Loop && st'.pc == 5 && st'.mem == arr && st'.arrayReads == k + 1
    ensures Holds(st', 2, IntV(k)) && Holds(st', 6, AddValues(s, IntV(arr[k]), true).value)
    ensures Exec(f, CallEnv(count), st, n + 1) == Exec(f, CallEnv(count), st', n)
  {
    var sum := AddValues(s, IntV(arr[k]), true).value;
    st' := st.(pc := 5, regs := st.regs[6 := sum]);
    StepCompute(f, CallEnv(count), st, 6, Add(Reg(3), Reg(5), true), sum, n);
  }

  /** `ni = i + 1`, which does not wrap since `i < |arr| <= 2^63 - 1`. */
  lemma LoopInc(f: Function, arr: seq<int>, count: int, k: nat, s': RVal, st: State, n: nat) returns (st': State)
    requires LoopCode(f) && ArrayOfI64(arr) && k < |arr|
    requires st.block == Loop && st.pc == 5 && Holds(st, 2, IntV(k)) && Holds(st, 6, s')
    ensures st'.block == Loop && st'.pc == 6 && st'.mem == st.mem && st'.arrayReads == st.arrayReads
    ensures Holds(st', 6, s') && Holds(st', 7, IntV(k + 1))
    ensures Exec(f, CallEnv(count), st, n + 1) == Exec(f, CallEnv(count), st', n)
  {
    st' := st.(pc := 6, regs := st.regs[7 := IntV(k + 1)]);
    StepCompute(f, CallEnv(count), st, 7, Add(Reg(2), ConstInt(1), false), IntV(k + 1), n);
  }

  /** `cond = (ni == count)`. */
  lemma LoopCmp(f: Function, arr: seq<int>, count: int, k: nat, s': RVal, st: State, n: nat) returns (st': State)
    requires LoopCode(f)
    requires st.block == Loop && st.pc == 6 && Holds(st, 6, s') && Holds(st, 7, IntV(k + 1))
    requires st.mem == arr && st.arrayReads == k + 1
    ensures AtBackBranch(st', arr, count, k, s')
    ensures Exec(f, CallEnv(count), st, n + 1) == Exec(f, CallEnv(count), st', n)
  {
    st' := st.(pc := 7, regs := st.regs[8 := BoolV(k + 1 == count)]);
    StepCompute(f, CallEnv(count), st, 8, ICmpEq(Reg(7), Arg(1)), BoolV(k + 1 == count), n);
  }

  /** The loop body with `i = k < |arr|`: `addr`, `val`, `nsum = sum +
      arr[k]`, `ni = k + 1` and `cond = (ni == count)` in five steps, which
      bring the state to the branch at the end of `loop`. */
  lemma LoopBody(f: Function, arr: seq<int>, count: int, k: nat, s: RVal, st: State, n: nat) returns (st': State)
    requires LoopCode(f)
    requires ArrayOfI64(arr) && k < |arr| && AtLoopBody(st, arr, k, s)
    requires s.IntV? || s.PoisonV?
    ensures AddValues(s, IntV(arr[k]), true).Some?
    ensures AtBackBranch(st', arr, count, k, AddValues(s, IntV(arr[k]), true).value)
    ensures Exec(f, CallEnv(count), st, n + 5) == Exec(f, CallEnv(count), st', n)
  {
    var st1 := LoopGep(f, arr, count, k, s, st, n + 4);
    var st2 := LoopLoad(f, arr, count, k, s, st1, n + 3);
    var st3 := LoopAdd(f, arr, count, k, s, st2, n + 2);
    var st4 := LoopInc(f, arr, count, k, AddValues(s, IntV(arr[k]), true).value, st3, n + 1);
    st' := LoopCmp(f, arr, count, k, AddValues(s, IntV(arr[k]), true).value, st4, n);
  }

  /** The last iteration: `ni == count`, so `nsum` is returned. */
  lemma LastIteration(f: Function, arr: seq<int>, count: int, k: nat, s: RVal, st: State, n: nat)
    requires LoopCode(f) && ExitCode(f)
    requires ArrayOfI64(arr) && k < |arr| && AtLoopBody(st, arr, k, s) && k + 1 == count
    requires s.IntV? || s.PoisonV?
    ensures AddValues(s, IntV(arr[k]), true).Some?
    ensures Exec(f, CallEnv(count), st, n + 7) == Returned(AddValues(s, IntV(arr[k]), true).value, k + 1)
  {
    var st' := LoopBody(f, arr, count, k, s, st, n + 2);
    ExitFromLoop(f, arr, count, k, AddValues(s, IntV(arr[k]), true).value, st', n);
  }

  /** At the back branch with `cond` true: `exit` returns `nsum`. */
  lemma ExitFromLoop(f: Function, arr: seq<int>, count: int, k: nat, s': RVal, st: State, n: nat)
    requires LoopCode(f) && ExitCode(f)
    requires AtBackBranch(st, arr, count, k, s') && k + 1 == count
    ensures Exec(f, CallEnv(count), st, n + 2) == Returned(s', k + 1)
  {
    var env := CallEnv(count);
    EnterExit(f, env, st);
    var ex := st.(block := Exit, pc := 1, regs := st.regs[10 := s']);
    StepBranch(f, env, st, 9, Reg(8), Exit, Loop, true, ex, n + 1);
    StepRet(f, env, ex, 11, Reg(10), s', n);
  }

  /** Any other iteration: the back edge brings control to the top of the
      body again with `i = k + 1` and `sum = nsum`. */
  lemma NextIteration(f: Function, arr: seq<int>, count: int, k: nat, s: RVal, st: State, n: nat) returns (lp: State)
    requires LoopCode(f)
    requires ArrayOfI64(arr) && k < |arr| && AtLoopBody(st, arr, k, s) && k + 1 != count
    requires s.IntV? || s.PoisonV?
    ensures AddValues(s, IntV(arr[k]), true).Some?
    ensures AtLoopBody(lp, arr, k + 1, AddValues(s, IntV(arr[k]), true).value)
    ensures Exec(f, CallEnv(count), st, n + 6) == Exec(f, CallEnv(count), lp, n)
  {
    var st' := LoopBody(f, arr, count, k, s, st, n + 1);
    lp := BackEdge(f, arr, count, k, AddValues(s, IntV(arr[k]), true).value, st', n);
  }

  /** At the back branch with `cond` false: control returns to the top of
      the body with `i = ni` and `sum = nsum`. */
  lemma BackEdge(f: Function, arr: seq<int>, count: int, k: nat, s': RVal, st: State, n: nat) returns (lp: State)
    requires LoopCode(f)
    requires AtBackBranch(st, arr, count, k, s') && k + 1 != count
    ensures AtLoopBody(lp, arr, k + 1, s')
    ensures Exec(f, CallEnv(count), st, n + 1) == Exec(f, CallEnv(count), lp, n)
  {
    var env := CallEnv(count);
    EnterLoop(f, env, st);
    lp := st.(block := Loop, pc := 2, regs := st.regs[2 := IntV(k + 1)][3 := s']);
    StepBranch(f, env, st, 9, Reg(8), Exit, Loop, false, lp, n);
  }

  /** With `i = |arr|` the load of `arr[i]` is outside the array. */
  lemma ReadPastEnd(f: Function, arr: seq<int>, count: int, s: RVal, st: State, n: nat)
    requires LoopCode(f) && AtLoopBody(st, arr, |arr|, s)
    ensures Exec(f, CallEnv(count), st, n + 2) == Faulted(OutOfBounds)
  {
    var st1 := LoopGep(f, arr, count, |arr|, s, st, n + 1);
    StepLoadOutside(f, CallEnv(count), st1, 5, Reg(4), |arr|, n);
  }

  /** `ReadPastEnd`, `LastIteration` and `NextIteration` for a budget
      `fuel` given as a whole. */
  lemma ReadPastEndWith(f: Function, arr: seq<int>, count: int, s: RVal, st: State, fuel: nat, n: nat)
    requires LoopCode(f) && AtLoopBody(st, arr, |arr|, s) && fuel == n + 2
    ensures Exec(f, CallEnv(count), st, fuel) == Faulted(OutOfBounds)
  {
    ReadPastEnd(f, arr, count, s, st, n);
  }

  lemma LastIterationWith(f: Function, arr: seq<int>, count: int, k: nat, s: RVal, st: State, fuel: nat, n: nat)
    requires LoopCode(f) && ExitCode(f)
    requires ArrayOfI64(arr) && k < |arr| && AtLoopBody(st, arr, k, s) && k + 1 == count
    requires s.IntV? || s.PoisonV?
    requires fuel == n + 7
    ensures AddValues(s, IntV(arr[k]), true).Some?
    ensures Exec(f, CallEnv(count), st, fuel) == Returned(AddValues(s, IntV(arr[k]), true).value, k + 1)
  {
    LastIteration(f, arr, count, k, s, st, n);
  }

  lemma NextIterationWith(f: Function, arr: seq<int>, count: int, k: nat, s: RVal, st: State, fuel: nat, n: nat) returns (lp: State)
    requires LoopCode(f)
    requires ArrayOfI64(arr) && k < |arr| && AtLoopBody(st, arr, k, s) && k + 1 != count
    requires s.IntV? || s.PoisonV?
    requires fuel == n + 6
    ensures AddValues(s, IntV(arr[k]), true).Some?
    ensures AtLoopBody(lp, arr, k + 1, AddValues(s, IntV(arr[k]), true).value)
    ensures Exec(f, CallEnv(count), st, fuel) == Exec(f, CallEnv(count), lp, n)
  {
    lp := NextIteration(f, arr, count, k, s, st, n);
  }

  /** From the top of the loop body the kernel behaves as `LoopSpec` with
      `nsw` addition: six steps per iteration, two more to leave. */
  lemma {:induction false} LoopRuns(f: Function, arr: seq<int>, count: int, k: nat, s: RVal, st: State, fuel: nat)
    requires LoopCode(f) && ExitCode(f)
    requires ArrayOfI64(arr) && k <= |arr| && AtLoopBody(st, arr, k, s)
    requires s.IntV? || s.PoisonV?
    requires fuel >= 6 * (|arr| - k) + 2
    ensures Exec(f, CallEnv(count), st, fuel) == LoopSpec(arr, count, k, s, true)
    decreases |arr| - k
  {
    LoopSpecUnfold(arr, count, k, s, true);
    if k == |arr| {
      var n: nat := fuel - 2;
      ReadPastEndWith(f, arr, count, s, st, fuel, n);
    } else if k + 1 == count {
      var n: nat := fuel - 7;
      LastIterationWith(f, arr, count, k, s, st, fuel, n);
    } else {
      var n: nat := fuel - 6;
      var s' := AddValues(s, IntV(arr[k]), true).value;
      var lp := NextIterationWith(f, arr, count, k, s, st, fuel, n);
      LoopRuns(f, arr, count, k + 1, s', lp, n);
    }
  }

  /** At the branch that ends `check`: `nullcheck = (count == 0)`, nothing
      read yet. */
  predicate AtCheckBranch(st: State, arr: seq<int>, count: int) {
    && st.block == Check && st.pc == 1
    && Holds(st, 0, BoolV(count == 0))
    && st.mem == arr && st.arrayReads == 0
  }

  /** The first step of every call: `nullcheck = (count == 0)`. */
  lemma NullCheck(f: Function, arr: seq<int>, count: int, n: nat) returns (st1: State)
    requires CheckCode(f)
    ensures AtCheckBranch(st1, arr, count)
    ensures Call(f, arr, count, n + 1) == Exec(f, CallEnv(count), st1, n)
  {
    st1 := Initial(arr).(pc := 1, regs := Initial(arr).regs[0 := BoolV(count == 0)]);
    StepCompute(f, CallEnv(count), Initial(arr), 0, ICmpEq(Arg(1), ConstInt(0)), BoolV(count == 0), n);
  }

  /** `count == 0`: the branch from `check` goes straight to `exit`, whose
      phi gives 0. */
  lemma ZeroCount(f: Function, arr: seq<int>, n: nat)
    requires CheckCode(f) && ExitCode(f)
    ensures Call(f, arr, 0, n + 3) == Returned(IntV(0), 0)
  {
    var env := CallEnv(0);
    var st1 := NullCheck(f, arr, 0, n + 2);
    EnterExit(f, env, st1);
    var ex := st1.(block := Exit, pc := 1, regs := st1.regs[10 := IntV(0)]);
    StepBranch(f, env, st1, 1, Reg(0), Exit, Loop, true, ex, n + 1);
    StepRet(f, env, ex, 11, Reg(10), IntV(0), n);
  }

  /** `ZeroCount` for a budget `fuel` given as a whole. */
  lemma ZeroCountWith(f: Function, arr: seq<int>, fuel: nat, n: nat)
    requires CheckCode(f) && ExitCode(f) && fuel == n + 3
    ensures Call(f, arr, 0, fuel) == Returned(IntV(0), 0)
  {
    ZeroCount(f, arr, n);
  }

  /** `count != 0`: the branch from `check` enters `loop` with `i = 0` and
      `sum = 0` after two steps. */
  lemma StartLoop(f: Function, arr: seq<int>, count: int, n: nat) returns (st0: State)
    requires CheckCode(f) && LoopCode(f)
    requires count != 0
    ensures AtLoopBody(st0, arr, 0, IntV(0))
    ensures Call(f, arr, count, n + 2) == Exec(f, CallEnv(count), st0, n)
  {
    var st1 := NullCheck(f, arr, count, n + 1);
    st0 := EnterFromCheck(f, arr, count, st1, n);
  }

  /** The branch at the end of `check` with `nullcheck` false. */
  lemma EnterFromCheck(f: Function, arr: seq<int>, count: int, st1: State, n: nat) returns (st0: State)
    requires CheckCode(f) && LoopCode(f)
    requires count != 0 && AtCheckBranch(st1, arr, count)
    ensures AtLoopBody(st0, arr, 0, IntV(0))
    ensures Exec(f, CallEnv(count), st1, n + 1) == Exec(f, CallEnv(count), st0, n)
  {
    var env := CallEnv(count);
    EnterLoop(f, env, st1);
    st0 := st1.(block := Loop, pc := 2, regs := st1.regs[2 := IntV(0)][3 := IntV(0)]);
    StepBranch(f, env, st1, 1, Reg(0), Exit, Loop, false, st0, n);
  }

  /** `StartLoop` for a budget given as `fuel` with `fuel == n + 2`. */
  lemma StartLoopWith(f: Function, arr: seq<int>, count: int, fuel: nat, n: nat) returns (st0: State)
    requires CheckCode(f) && LoopCode(f)
    requires count != 0 && fuel == n + 2
    ensures AtLoopBody(st0, arr, 0, IntV(0))
    ensures Call(f, arr, count, fuel) == Exec(f, CallEnv(count), st0, n)
  {
    st0 := StartLoop(f, arr, count, n);
  }

  /** `count != 0`: the two steps of `check`, then the loop. */
  lemma NonZeroCount(f: Function, arr: seq<int>, count: int, fuel: nat)
    requires CheckCode(f) && LoopCode(f) && ExitCode(f)
    requires ArrayOfI64(arr) && count != 0
    requires fuel >= 6 * |arr| + 4
    ensures Call(f, arr, count, fuel) == LoopSpec(arr, count, 0, IntV(0), true)
  {
    var n: nat := fuel - 2;
    var st0 := StartLoopWith(f, arr, count, fuel, n);
    LoopRuns(f, arr, count, 0, IntV(0), st0, n);
  }

  /** Any function with the kernel's code behaves as `KernelSpec` with `nsw`
      addition, for every i64 array and every `count`, given enough steps. */
  lemma KernelMeetsSpec(f: Function, arr: seq<int>, count: int, fuel: nat)
    requires CheckCode(f) && LoopCode(f) && ExitCode(f)
    requires ArrayOfI64(arr)
    requires fuel >= 6 * |arr| + 4
    ensures Call(f, arr, count, fuel) == KernelSpec(arr, count, true)
  {
    if count == 0 {
      ZeroCountWith(f, arr, fuel, fuel - 3);
    } else {
      NonZeroCount(f, arr, count, fuel);
    }
  }

  /** The phi kernel behaves as `KernelSpec` with `nsw` addition. */
  lemma PhiKernelMeetsSpec(arr: seq<int>, count: int, fuel: nat)
    requires ArrayOfI64(arr)
    requires fuel >= 6 * |arr| + 4
    ensures Call(PhiKernel(), arr, count, fuel) == KernelSpec(arr, count, true)
  {
    PhiKernelCode();
    KernelMeetsSpec(PhiKernel(), arr, count, fuel);
  }

  /** For `0 <= count <= |arr|` the result is the sum of `arr[..count]` when
      no running sum overflows (`add nsw`), and poison when one does; exactly
      `count` elements are read. */
  lemma PhiKernelSum(arr: seq<int>, count: int, fuel: nat)
    requires ArrayOfI64(arr) && 0 <= count <= |arr|
    requires fuel >= 6 * |arr| + 4
    ensures PartialSumsFit(arr, count) ==> Call(PhiKernel(), arr, count, fuel) == Returned(IntV(Sum(arr[..count])), count)
    ensures !PartialSumsFit(arr, count) ==> Call(PhiKernel(), arr, count, fuel) == Returned(PoisonV, count)
  {
    PhiKernelMeetsSpec(arr, count, fuel);
    KernelSpecSum(arr, count, true);
  }

  /** `count == 0` takes the edge from `check` straight to `exit` and returns
      the constant 0 in three steps without a single array read, whatever
      `arr` is (even empty, even not of i64). */
  lemma PhiKernelZeroCount(arr: seq<int>, fuel: nat)
    requires fuel >= 3
    ensures Call(PhiKernel(), arr, 0, fuel) == Returned(IntV(0), 0)
  {
    PhiKernelCode();
    ZeroCountWith(PhiKernel(), arr, fuel, fuel - 3);
  }

  /** The exit test is `ni == count`, so a negative `count` or one beyond the
      array never stops the loop before it reads past the end. */
  lemma PhiKernelOutOfRange(arr: seq<int>, count: int, fuel: nat)
    requires ArrayOfI64(arr) && (count < 0 || count > |arr|)
    requires fuel >= 6 * |arr| + 4
    ensures Call(PhiKernel(), arr, count, fuel) == Faulted(OutOfBounds)
  {
    PhiKernelMeetsSpec(arr, count, fuel);
    KernelSpecOutOfRange(arr, count, true);
  }

  /** What `main` computes: on 0, 1, ..., n-1 (n up to 2^31) the kernel
      returns n(n-1)/2. */
  lemma PhiKernelIota(arr: seq<int>, fuel: nat)
    requires ArrayOfI64(arr) && |arr| <= 0x8000_0000
    requires forall k :: 0 <= k < |arr| ==> arr[k] == k
    requires fuel >= 6 * |arr| + 4
    ensures Call(PhiKernel(), arr, |arr|, fuel) == Returned(IntV(|arr| * (|arr| - 1) / 2), |arr|)
  {
    IotaFits(arr, |arr|);
    assert arr[..|arr|] == arr;
    PhiKernelSum(arr, |arr|, fuel);
  }
}
