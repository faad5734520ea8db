/** Symbolic execution of the interpreter, one instruction at a time: for
    each kind of instruction, what `Exec` does with one more unit of budget
    when the instruction at the program counter has that kind and its
    operands have the given values. Proofs about a concrete function chain
    these lemmas instead of unfolding `Step` on the whole function. */
module Steps {
  import opened Ir
  import opened Interp

  /** Register `r` holds `v`. */
  predicate Holds(st: State, r: nat, v: RVal) {
    r in st.regs && st.regs[r] == v
  }

  /** Instruction `pc` of block `b` has handle `id` and operation `op`. */
  predicate Code(f: Function, b: nat, pc: nat, id: nat, op: Op) {
    && b < |f.blocks| && pc < |f.blocks[b].instrs|
    && f.blocks[b].instrs[pc].id == id && f.blocks[b].instrs[pc].op == op
  }

  /** `icmp eq`, `add` or `getelementptr` with defined operands defines
      register `id`. */
  lemma StepCompute(f: Function, env: Env, st: State, id: nat, op: Op, v: RVal, n: nat)
    requires Code(f, st.block, st.pc, id, op)
    requires op.ICmpEq? || op.Add? || op.Gep?
    requires Compute(env, st.regs, op) == Some(v)
    ensures Exec(f, env, st, n + 1) == Exec(f, env, st.(pc := st.pc + 1, regs := st.regs[id := v]), n)
  {
  }

  /** A load inside the caller's array reads the element and counts the read. */
  lemma StepLoadArray(f: Function, env: Env, st: State, id: nat, x: Value, off: int, n: nat)
    requires Code(f, st.block, st.pc, id, Load(x))
    requires Eval(env, st.regs, x) == Some(PtrV(ArrayMem, off)) && 0 <= off < |st.mem|
    ensures Exec(f, env, st, n + 1) ==
              Exec(f, env, st.(pc := st.pc + 1, regs := st.regs[id := IntV(st.mem[off])], arrayReads := st.arrayReads + 1), n)
  {
  }

  /** A load outside the caller's array faults. */
  lemma StepLoadOutside(f: Function, env: Env, st: State, id: nat, x: Value, off: int, n: nat)
    requires Code(f, st.block, st.pc, id, Load(x))
    requires Eval(env, st.regs, x) == Some(PtrV(ArrayMem, off)) && !(0 <= off < |st.mem|)
    ensures Exec(f, env, st, n + 1) == Faulted(OutOfBounds)
  {
  }

  /** A load from a stack slot holding `v`. */
  lemma StepLoadSlot(f: Function, env: Env, st: State, id: nat, x: Value, s: nat, v: RVal, n: nat)
    requires Code(f, st.block, st.pc, id, Load(x))
    requires Eval(env, st.regs, x) == Some(PtrV(Slot(s), 0)) && s in st.slots && st.slots[s] == Some(v)
    ensures Exec(f, env, st, n + 1) == Exec(f, env, st.(pc := st.pc + 1, regs := st.regs[id := v]), n)
  {
  }

  /** A store of `v` into a stack slot. */
  lemma StepStoreSlot(f: Function, env: Env, st: State, id: nat, x: Value, y: Value, v: RVal, s: nat, n: nat)
    requires Code(f, st.block, st.pc, id, Store(x, y))
    requires Eval(env, st.regs, x) == Some(v) && Eval(env, st.regs, y) == Some(PtrV(Slot(s), 0)) && s in st.slots
    ensures Exec(f, env, st, n + 1) == Exec(f, env, st.(pc := st.pc + 1, slots := st.slots[s := Some(v)]), n)
  {
  }

  /** An `alloca` creates an uninitialised slot named by its handle. */
  lemma StepAlloca(f: Function, env: Env, st: State, id: nat, ty: Type, n: nat)
    requires Code(f, st.block, st.pc, id, Alloca(ty))
    ensures Exec(f, env, st, n + 1) ==
              Exec(f, env, st.(pc := st.pc + 1, regs := st.regs[id := PtrV(Slot(id), 0)], slots := st.slots[id := None]), n)
  {
  }

  /** `llvm.dbg.declare` has no effect on the computation. */
  lemma StepDeclare(f: Function, env: Env, st: State, id: nat, x: Value, d: nat, n: nat)
    requires Code(f, st.block, st.pc, id, DbgDeclare(x, d))
    ensures Exec(f, env, st, n + 1) == Exec(f, env, st.(pc := st.pc + 1), n)
  {
  }

  /** A conditional branch on a defined boolean enters the chosen block. */
  lemma StepBranch(f: Function, env: Env, st: State, id: nat, c: Value, t: nat, e: nat, b: bool, st': State, n: nat)
    requires Code(f, st.block, st.pc, id, CondBr(c, t, e))
    requires Eval(env, st.regs, c) == Some(BoolV(b))
    requires Branch(f, env, st, if b then t else e) == Next(st')
    ensures Exec(f, env, st, n + 1) == Exec(f, env, st', n)
  {
  }

  /** `ret` of a defined value ends the call. */
  lemma StepRet(f: Function, env: Env, st: State, id: nat, x: Value, v: RVal, n: nat)
    requires Code(f, st.block, st.pc, id, Ret(x))
    requires Eval(env, st.regs, x) == Some(v)
    ensures Exec(f, env, st, n + 1) == Returned(v, st.arrayReads)
  {
  }

  // ---------------------------------------------------------------------
  // Entering a block

  /** A block that starts with no phi is entered at its first instruction. */
  lemma EnterNoPhi(f: Function, env: Env, st: State, target: nat)
    requires target < |f.blocks| && |f.blocks[target].instrs| > 0
    requires !f.blocks[target].instrs[0].op.Phi?
    ensures Branch(f, env, st, target) == Next(st.(block := target, pc := 0))
  {
  }

  /** A block that starts with one phi: the phi takes its value on the edge
      from the current block. */
  lemma EnterOnePhi(f: Function, env: Env, st: State, target: nat, id: nat, ty: Type, inc: seq<Incoming>, x: Value, v: RVal)
    requires Code(f, target, 0, id, Phi(ty, inc)) && |f.blocks[target].instrs| > 1
    requires !f.blocks[target].instrs[1].op.Phi?
    requires IncomingValue(inc, st.block) == Some(x) && Eval(env, st.regs, x) == Some(v)
    ensures Branch(f, env, st, target) == Next(st.(block := target, pc := 1, regs := st.regs[id := v]))
  {
    var instrs := f.blocks[target].instrs;
    assert EnterPhis(instrs, 1, st.block, env, st.regs, st.regs[id := v]) == Some((1, st.regs[id := v]));
  }

  /** A block that starts with two phis: both read the register file as it
      was before the branch. */
  lemma EnterTwoPhis(f: Function, env: Env, st: State, target: nat,
                     id0: nat, inc0: seq<Incoming>, x0: Value, v0: RVal,
                     id1: nat, inc1: seq<Incoming>, x1: Value, v1: RVal, ty: Type)
    requires Code(f, target, 0, id0, Phi(ty, inc0)) && Code(f, target, 1, id1, Phi(ty, inc1))
    requires |f.blocks[target].instrs| > 2 && !f.blocks[target].instrs[2].op.Phi?
    requires IncomingValue(inc0, st.block) == Some(x0) && Eval(env, st.regs, x0) == Some(v0)
    requires IncomingValue(inc1, st.block) == Some(x1) && Eval(env, st.regs, x1) == Some(v1)
    ensures Branch(f, env, st, target) ==
              Next(st.(block := target, pc := 2, regs := st.regs[id0 := v0][id1 := v1]))
  {
    var instrs, regs := f.blocks[target].instrs, st.regs;
    assert EnterPhis(instrs, 2, st.block, env, regs, regs[id0 := v0][id1 := v1]) == Some((2, regs[id0 := v0][id1 := v1]));
    assert EnterPhis(instrs, 1, st.block, env, regs, regs[id0 := v0]) == Some((2, regs[id0 := v0][id1 := v1]));
  }
}
