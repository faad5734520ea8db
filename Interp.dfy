/** A small-step interpreter for the IR graph model, following the LLVM
    Language Reference Manual for the instructions the kernels use: `phi`
    (all phis of a block are evaluated together on the incoming edge), `br`,
    `icmp eq`, `add` with and without `nsw` (signed overflow under `nsw`
    yields poison, a plain `add` wraps), `getelementptr`, `load`, `store` and
    `alloca`. Memory is the caller's array of i64 plus one stack slot per
    executed `alloca`; a load outside the array is undefined behaviour and is
    reported as a fault. */
module Interp {
  import opened Ir
  import I64

  /** Where a pointer points: into the caller's array or into a stack slot
      (named by the id of the alloca that created it). */
  datatype Base = ArrayMem | Slot(id: nat)

  datatype RVal = IntV(i: int) | BoolV(b: bool) | PtrV(base: Base, offset: int) | PoisonV

  datatype Fault =
    | OutOfBounds        // load or store outside the caller's array, or off a slot
    | UninitializedRead  // load from a slot never stored to (undef in LLVM)
    | PoisonUse          // branch on poison or dereference of a poison address
    | Malformed          // missing operand, operand of the wrong kind, bad target

  /** How a call ends. `arrayReads` counts the loads from the caller's array. */
  datatype Outcome = Returned(value: RVal, arrayReads: nat) | Faulted(fault: Fault) | OutOfFuel

  /** The call's arguments. */
  datatype Env = Env(args: seq<RVal>)

  datatype State = State(
    block: nat,
    pc: nat,
    regs: map<nat, RVal>,
    slots: map<nat, Option<RVal>>,
    mem: seq<int>,
    arrayReads: nat)

  datatype StepResult = Next(st: State) | Stop(outcome: Outcome)

  function Eval(env: Env, regs: map<nat, RVal>, v: Value): Option<RVal> {
    match v
    case Arg(n) => if n < |env.args| then Some(env.args[n]) else None
    case ConstInt(c) => Some(IntV(c))
    case Reg(id) => if id in regs then Some(regs[id]) else None
  }

  /** `add` on i64 operands. With `nsw` an exact sum outside i64 is poison;
      without it the sum wraps. Poison operands give poison. */
  function AddValues(a: RVal, b: RVal, nsw: bool): (r: Option<RVal>)
    ensures r.Some? <==> (a.IntV? || a.PoisonV?) && (b.IntV? || b.PoisonV?)
    ensures r.Some? ==> r.value.IntV? || r.value.PoisonV?
    ensures r.Some? && r.value.IntV? ==>
              && a.IntV? && b.IntV? && I64.InRange(r.value.i)
              && (a.i + b.i - r.value.i) % I64.Modulus == 0
              && (nsw ==> r.value.i == a.i + b.i)
    ensures r.Some? && (a.PoisonV? || b.PoisonV?) ==> r.value.PoisonV?
    ensures a.IntV? && b.IntV? && (!nsw || I64.InRange(a.i + b.i)) ==> r.Some? && r.value.IntV?
  {
    match (a, b)
    case (IntV(x), IntV(y)) =>
      if nsw && !I64.InRange(x + y) then Some(PoisonV) else Some(IntV(I64.Wrap(x + y)))
    case (PoisonV, IntV(_)) => Some(PoisonV)
    case (IntV(_), PoisonV) => Some(PoisonV)
    case (PoisonV, PoisonV) => Some(PoisonV)
    case _ => None
  }

  /** `icmp eq` on i64 operands. */
  function CmpEqValues(a: RVal, b: RVal): (r: Option<RVal>)
    ensures a.IntV? && b.IntV? ==> r == Some(BoolV(a.i == b.i))
    ensures r.Some? ==> r.value.BoolV? || r.value.PoisonV?
  {
    match (a, b)
    case (IntV(x), IntV(y)) => Some(BoolV(x == y))
    case (PoisonV, IntV(_)) => Some(PoisonV)
    case (IntV(_), PoisonV) => Some(PoisonV)
    case (PoisonV, PoisonV) => Some(PoisonV)
    case _ => None
  }

  /** `getelementptr` over i64 elements: offsets count elements. */
  function GepValues(base: RVal, index: RVal): (r: Option<RVal>)
    ensures base.PtrV? && index.IntV? ==> r == Some(PtrV(base.base, base.offset + index.i))
  {
    match (base, index)
    case (PtrV(b, off), IntV(k)) => Some(PtrV(b, off + k))
    case (PtrV(_, _), PoisonV) => Some(PoisonV)
    case (PoisonV, IntV(_)) => Some(PoisonV)
    case (PoisonV, PoisonV) => Some(PoisonV)
    case _ => None
  }

  /** The first incoming value of a phi for edges from block `from`. */
  function IncomingValue(inc: seq<Incoming>, from: nat): (r: Option<Value>)
    ensures r.Some? <==> from in IncomingBlocks(inc)
    ensures r.Some? ==> Incoming(r.value, from) in inc
  {
    if |inc| == 0 then None
    else if inc[0].block == from then Some(inc[0].value)
    else
      var r := IncomingValue(inc[1..], from);
      assert IncomingBlocks(inc) == {inc[0].block} + IncomingBlocks(inc[1..]) by {
        assert forall e :: e in inc <==> e == inc[0] || e in inc[1..];
      }
      r
  }

  /** The leading phis of a block, from position `k` on, evaluated together
      on the edge from `from`: every incoming value is read in `pre`, the
      register file before the branch. Returns the first non-phi position and
      the register file with the phis defined. */
  function EnterPhis(instrs: seq<Instr>, k: nat, from: nat, env: Env, pre: map<nat, RVal>, acc: map<nat, RVal>)
    : (r: Option<(nat, map<nat, RVal>)>)
    requires k <= |instrs|
    ensures r.Some? ==> k <= r.value.0 <= |instrs|
    ensures r.Some? ==> forall j :: k <= j < r.value.0 ==> instrs[j].op.Phi?
    decreases |instrs| - k
  {
    if k < |instrs| && instrs[k].op.Phi? then
      match IncomingValue(instrs[k].op.incoming, from)
      case None => None
      case Some(v) =>
        (match Eval(env, pre, v)
         case None => None
         case Some(x) => EnterPhis(instrs, k + 1, from, env, pre, acc[instrs[k].id := x]))
    else
      Some((k, acc))
  }

  /** Control arrives at `target` from the current block. */
  function Branch(f: Function, env: Env, st: State, target: nat): StepResult {
    if target >= |f.blocks| then Stop(Faulted(Malformed))
    else
      match EnterPhis(f.blocks[target].instrs, 0, st.block, env, st.regs, st.regs)
      case None => Stop(Faulted(Malformed))
      case Some((k, regs)) => Next(st.(block := target, pc := k, regs := regs))
  }

  /** Define register `id` and go on with the next instruction. */
  function Define(st: State, id: nat, v: Option<RVal>): StepResult {
    match v
    case None => Stop(Faulted(Malformed))
    case Some(x) => Next(st.(pc := st.pc + 1, regs := st.regs[id := x]))
  }

  function LoadStep(st: State, id: nat, addr: RVal): (r: StepResult)
    ensures r.Next? ==> r.st.mem == st.mem && r.st.slots == st.slots
    ensures r.Next? && addr.PtrV? && addr.base.ArrayMem? ==> r.st.arrayReads == st.arrayReads + 1
    ensures r.Next? && !(addr.PtrV? && addr.base.ArrayMem?) ==> r.st.arrayReads == st.arrayReads
  {
    match addr
    case PtrV(ArrayMem, off) =>
      if 0 <= off < |st.mem| then
        Next(st.(pc := st.pc + 1, regs := st.regs[id := IntV(st.mem[off])], arrayReads := st.arrayReads + 1))
      else Stop(Faulted(OutOfBounds))
    case PtrV(Slot(s), off) =>
      if off != 0 || s !in st.slots then Stop(Faulted(OutOfBounds))
      else if st.slots[s].None? then Stop(Faulted(UninitializedRead))
      else Next(st.(pc := st.pc + 1, regs := st.regs[id := st.slots[s].value]))
    case PoisonV => Stop(Faulted(PoisonUse))
    case _ => Stop(Faulted(Malformed))
  }

  function StoreStep(st: State, val: RVal, addr: RVal): (r: StepResult)
    ensures r.Next? ==> |r.st.mem| == |st.mem| && r.st.arrayReads == st.arrayReads
  {
    match addr
    case PtrV(ArrayMem, off) =>
      if !(0 <= off < |st.mem|) then Stop(Faulted(OutOfBounds))
      else if !val.IntV? then Stop(Faulted(Malformed))
      else Next(st.(pc := st.pc + 1, mem := st.mem[off := val.i]))
    case PtrV(Slot(s), off) =>
      if off != 0 || s !in st.slots then Stop(Faulted(OutOfBounds))
      else Next(st.(pc := st.pc + 1, slots := st.slots[s := Some(val)]))
    case PoisonV => Stop(Faulted(PoisonUse))
    case _ => Stop(Faulted(Malformed))
  }

  /** The value an `icmp eq`, `add` or `getelementptr` defines: both
      operands evaluated, then the operation applied; `None` when an operand
      is missing or of the wrong kind, and for every other operation. */
  function Compute(env: Env, regs: map<nat, RVal>, op: Op): Option<RVal> {
    match op
    case ICmpEq(x, y) =>
      (match (Eval(env, regs, x), Eval(env, regs, y))
       case (Some(a), Some(b)) => CmpEqValues(a, b)
       case _ => None)
    case Add(x, y, nsw) =>
      (match (Eval(env, regs, x), Eval(env, regs, y))
       case (Some(a), Some(b)) => AddValues(a, b, nsw)
       case _ => None)
    case Gep(x, y) =>
      (match (Eval(env, regs, x), Eval(env, regs, y))
       case (Some(a), Some(b)) => GepValues(a, b)
       case _ => None)
    case _ => None
  }

  function LoadInstr(env: Env, st: State, id: nat, x: Value): (r: StepResult)
    ensures r.Next? ==> r.st.mem == st.mem && st.arrayReads <= r.st.arrayReads <= st.arrayReads + 1
  {
    match Eval(env, st.regs, x)
    case Some(a) => LoadStep(st, id, a)
    case None => Stop(Faulted(Malformed))
  }

  function StoreInstr(env: Env, st: State, x: Value, y: Value): (r: StepResult)
    ensures r.Next? ==> |r.st.mem| == |st.mem| && r.st.arrayReads == st.arrayReads
  {
    match (Eval(env, st.regs, x), Eval(env, st.regs, y))
    case (Some(v), Some(a)) => StoreStep(st, v, a)
    case _ => Stop(Faulted(Malformed))
  }

  /** `br i1 c, t, e`: branching on poison is undefined behaviour. */
  function CondBrStep(f: Function, env: Env, st: State, c: Value, t: nat, e: nat): (r: StepResult)
    ensures r.Next? ==> r.st.mem == st.mem && r.st.arrayReads == st.arrayReads
  {
    match Eval(env, st.regs, c)
    case Some(BoolV(b)) => Branch(f, env, st, if b then t else e)
    case Some(PoisonV) => Stop(Faulted(PoisonUse))
    case _ => Stop(Faulted(Malformed))
  }

  function RetStep(env: Env, st: State, x: Value): (r: StepResult)
    ensures r.Stop? && r.outcome.Returned? ==> r.outcome.arrayReads == st.arrayReads
    ensures r.Stop?
  {
    match Eval(env, st.regs, x)
    case Some(v) => Stop(Returned(v, st.arrayReads))
    case None => Stop(Faulted(Malformed))
  }

  /** Execute the instruction with handle `id` and operation `op` of the
      current block. A phi reached by straight-line execution is malformed:
      phis are only evaluated on block entry. */
  function ExecOp(f: Function, env: Env, st: State, id: nat, op: Op): StepResult {
    match op
    case Phi(_, _) => Stop(Faulted(Malformed))
    case ICmpEq(_, _) => Define(st, id, Compute(env, st.regs, op))
    case Add(_, _, _) => Define(st, id, Compute(env, st.regs, op))
    case Gep(_, _) => Define(st, id, Compute(env, st.regs, op))
    case Load(x) => LoadInstr(env, st, id, x)
    case Store(x, y) => StoreInstr(env, st, x, y)
    case Alloca(_) =>
      Next(st.(pc := st.pc + 1, regs := st.regs[id := PtrV(Slot(id), 0)], slots := st.slots[id := None]))
    case DbgDeclare(_, _) =>
      Next(st.(pc := st.pc + 1))
    case CondBr(c, t, e) => CondBrStep(f, env, st, c, t, e)
    case Ret(x) => RetStep(env, st, x)
  }

  /** One instruction: the one at the program counter. */
  function Step(f: Function, env: Env, st: State): StepResult {
    if st.block >= |f.blocks| || st.pc >= |f.blocks[st.block].instrs| then Stop(Faulted(Malformed))
    else
      var ins := f.blocks[st.block].instrs[st.pc];
      ExecOp(f, env, st, ins.id, ins.op)
  }

  /** Run for at most `fuel` steps. */
  function Exec(f: Function, env: Env, st: State, fuel: nat): Outcome
    decreases fuel
  {
    if fuel == 0 then OutOfFuel
    else
      match Step(f, env, st)
      case Next(st') => Exec(f, env, st', fuel - 1)
      case Stop(o) => o
  }

  /** A step never changes the size of memory and reads the caller's array
      at most once; a `ret` reports the reads made so far. */
  lemma StepReads(f: Function, env: Env, st: State)
    ensures Step(f, env, st).Next? ==> |Step(f, env, st).st.mem| == |st.mem|
    ensures Step(f, env, st).Next? ==>
              st.arrayReads <= Step(f, env, st).st.arrayReads <= st.arrayReads + 1
    ensures Step(f, env, st).Stop? && Step(f, env, st).outcome.Returned? ==>
              Step(f, env, st).outcome.arrayReads == st.arrayReads
  {
  }

  /** A run of at most `fuel` steps reads at most `fuel` elements. */
  lemma {:induction false} ExecReads(f: Function, env: Env, st: State, fuel: nat)
    ensures Exec(f, env, st, fuel).Returned? ==>
              st.arrayReads <= Exec(f, env, st, fuel).arrayReads <= st.arrayReads + fuel
    decreases fuel
  {
    if fuel > 0 {
      StepReads(f, env, st);
      match Step(f, env, st)
      case Next(st') => ExecReads(f, env, st', fuel - 1);
      case Stop(_) =>
    }
  }

  /** The state at the start of a call: the entry block, nothing defined,
      no stack slots, the caller's array as memory. */
  function Initial(arr: seq<int>): State {
    State(0, 0, map[], map[], arr, 0)
  }

  /** The environment of a call `f(arr, count)` with signature `(i64*, i64) -> i64`. */
  function CallEnv(count: int): Env {
    Env([PtrV(ArrayMem, 0), IntV(count)])
  }

  /** Calling `f(arr, count)` with a step budget. */
  function Call(f: Function, arr: seq<int>, count: int, fuel: nat): Outcome {
    Exec(f, CallEnv(count), Initial(arr), fuel)
  }

  /** The interpreter's driver loop: step until the function returns,
      faults or the budget is spent. */
  method Run(f: Function, arr: seq<int>, count: int, fuel: nat) returns (o: Outcome)
    ensures o == Call(f, arr, count, fuel)
    ensures o.Returned? ==> o.arrayReads <= fuel
  {
    var env := CallEnv(count);
    var st := Initial(arr);
    var n: nat := fuel;
    while n > 0
      invariant n <= fuel
      invariant Exec(f, env, st, n) == Call(f, arr, count, fuel)
      invariant st.arrayReads <= fuel - n
      decreases n
    {
      StepReads(f, env, st);
      match Step(f, env, st)
      case Next(st') =>
        st := st';
        n := n - 1;
      case Stop(out) =>
        return out;
    }
    o := OutOfFuel;
  }
}
