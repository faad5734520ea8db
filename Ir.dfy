/** The IR graph model: a typed LLVM-style function is an arena of named
    basic blocks, each an ordered sequence of instructions. Values refer to
    earlier instructions by handle (the instruction's id), never by address;
    blocks refer to each other by their index in the arena. */
module Ir {

  datatype Option<+T> = None | Some(value: T)

  datatype Type = I1 | I64 | Ptr(pointee: Type)

  datatype Linkage = ExternalLinkage | InternalLinkage

  /** An operand: a function argument, an integer constant or the result of
      the instruction with the given id. */
  datatype Value = Arg(index: nat) | ConstInt(n: int) | Reg(id: nat)

  /** A debug location is either explicitly unset or a column inside the
      lexical scope of a subprogram descriptor (its index). Source lines are
      not part of the model. */
  datatype DebugLoc = NoLoc | DILocation(column: nat, scope: nat)

  /** One incoming edge of a phi node: the value to take when control
      arrives from `block`. */
  datatype Incoming = Incoming(value: Value, block: nat)

  datatype Op =
    | Phi(ty: Type, incoming: seq<Incoming>)
    | ICmpEq(lhs: Value, rhs: Value)
    | Add(lhs: Value, rhs: Value, nsw: bool)
    | Gep(base: Value, index: Value)
    | Load(addr: Value)
    | Store(val: Value, addr: Value)
    | Alloca(ty: Type)
    | DbgDeclare(slot: Value, variable: nat)
    | CondBr(cond: Value, ifTrue: nat, ifFalse: nat)
    | Ret(val: Value)

  datatype Instr = Instr(id: nat, name: string, op: Op, loc: DebugLoc)

  datatype Block = Block(name: string, instrs: seq<Instr>)

  datatype Param = Param(name: string, ty: Type)

  datatype Function = Function(
    name: string,
    linkage: Linkage,
    params: seq<Param>,
    retType: Type,
    blocks: seq<Block>,
    subprogram: Option<nat>)

  // ---------------------------------------------------------------------
  // Debug metadata: the descriptors a `DIBuilder` leaves in the module

  /** A debug type: a base type with its DWARF encoding, or a pointer to a
      debug type with its size and alignment in bits. */
  datatype DIType =
    | DIBasicType(name: string, sizeInBits: nat, encoding: nat)
    | DIPointerType(pointee: DIType, sizeInBits: nat, alignInBits: nat)

  /** A source-level variable of a subprogram (`scope` is its index).
      `arg` is the 1-based position of a parameter; 0 marks a variable that
      is not a parameter. `preserve` is the AlwaysPreserve flag it was
      created with: only such variables are kept in their subprogram's
      retained nodes, so that they survive optimisation. */
  datatype DILocalVariable = DILocalVariable(scope: nat, name: string, arg: nat, ty: DIType, preserve: bool)

  /** A function descriptor: its names, its subroutine type (the return
      type first, then the parameters) and the variables retained by it. */
  datatype DISubprogram = DISubprogram(name: string, linkageName: string, signature: seq<DIType>, retained: seq<nat>)

  /** The descriptors of one finalized `DIBuilder`; scopes and variable
      numbers index into these sequences. */
  datatype DebugInfo = DebugInfo(subprograms: seq<DISubprogram>, variables: seq<DILocalVariable>)

  /** A named module owning the functions defined in it and the debug
      information committed to it. */
  class Module {
    const name: string
    var functions: seq<Function>
    var debugInfo: seq<DebugInfo>

    constructor (name: string)
      ensures this.name == name && functions == [] && debugInfo == []
    {
      this.name := name;
      functions := [];
      debugInfo := [];
    }

    method AddFunction(f: Function)
      modifies this`functions
      ensures functions == old(functions) + [f]
    {
      functions := functions + [f];
    }

    method AddDebugInfo(info: DebugInfo)
      modifies this`debugInfo
      ensures debugInfo == old(debugInfo) + [info]
    {
      debugInfo := debugInfo + [info];
    }
  }

  // ---------------------------------------------------------------------
  // Building blocks of the arena, as pure updates

  /** The arena after appending `ins` at the end of block `b`. */
  function AppendInstr(blocks: seq<Block>, b: nat, ins: Instr): (r: seq<Block>)
    requires b < |blocks|
    ensures |r| == |blocks|
    ensures r[b].name == blocks[b].name && r[b].instrs == blocks[b].instrs + [ins]
    ensures forall c :: 0 <= c < |blocks| && c != b ==> r[c] == blocks[c]
  {
    blocks[b := Block(blocks[b].name, blocks[b].instrs + [ins])]
  }

  /** Block `b` after adding one incoming edge to its phi at position `k`. */
  function AddBlockIncoming(b: Block, k: nat, e: Incoming): (r: Block)
    requires k < |b.instrs| && b.instrs[k].op.Phi?
    ensures r.name == b.name && |r.instrs| == |b.instrs|
    ensures r.instrs[k] == b.instrs[k].(op := Phi(b.instrs[k].op.ty, b.instrs[k].op.incoming + [e]))
    ensures forall j :: 0 <= j < |b.instrs| && j != k ==> r.instrs[j] == b.instrs[j]
  {
    var ins := b.instrs[k];
    Block(b.name, b.instrs[k := ins.(op := ins.op.(incoming := ins.op.incoming + [e]))])
  }

  /** The arena after adding one incoming edge to the phi at position `k`
      of block `b`. */
  function AddPhiIncoming(blocks: seq<Block>, b: nat, k: nat, e: Incoming): (r: seq<Block>)
    requires b < |blocks| && k < |blocks[b].instrs| && blocks[b].instrs[k].op.Phi?
    ensures |r| == |blocks| && |r[b].instrs| == |blocks[b].instrs|
    ensures r[b].instrs[k] == blocks[b].instrs[k].(op := Phi(blocks[b].instrs[k].op.ty, blocks[b].instrs[k].op.incoming + [e]))
    ensures forall c :: 0 <= c < |blocks| && c != b ==> r[c] == blocks[c]
    ensures forall j :: 0 <= j < |blocks[b].instrs| && j != k ==> r[b].instrs[j] == blocks[b].instrs[j]
  {
    blocks[b := AddBlockIncoming(blocks[b], k, e)]
  }

  /** `AppendInstr` on a three-block arena, block by block. */
  lemma AppendInstrThree(a: Block, b: Block, c: Block, ins: Instr)
    ensures AppendInstr([a, b, c], 0, ins) == [Block(a.name, a.instrs + [ins]), b, c]
    ensures AppendInstr([a, b, c], 1, ins) == [a, Block(b.name, b.instrs + [ins]), c]
    ensures AppendInstr([a, b, c], 2, ins) == [a, b, Block(c.name, c.instrs + [ins])]
  {
  }

  /** One more element of a sequence's prefix. */
  lemma TakeOneMore<T>(s: seq<T>, k: nat)
    requires k < |s|
    ensures s[..k] + [s[k]] == s[..k + 1]
  {
  }

  /** `AddPhiIncoming` on the second and third block of a three-block arena. */
  lemma AddPhiIncomingThree(a: Block, b: Block, c: Block, k: nat, e: Incoming)
    ensures k < |b.instrs| && b.instrs[k].op.Phi? ==>
              AddPhiIncoming([a, b, c], 1, k, e) == [a, AddBlockIncoming(b, k, e), c]
    ensures k < |c.instrs| && c.instrs[k].op.Phi? ==>
              AddPhiIncoming([a, b, c], 2, k, e) == [a, b, AddBlockIncoming(c, k, e)]
  {
  }

  // ---------------------------------------------------------------------
  // Structural well-formedness (the part of LLVM's verifier the model states)

  predicate IsTerminator(op: Op) {
    op.CondBr? || op.Ret?
  }

  /** The blocks the terminator of `b` can transfer control to. */
  function Successors(b: Block): (s: set<nat>)
    ensures |b.instrs| > 0 && b.instrs[|b.instrs| - 1].op.Ret? ==> s == {}
  {
    if |b.instrs| == 0 then {}
    else
      match b.instrs[|b.instrs| - 1].op
      case CondBr(_, t, e) => {t, e}
      case _ => {}
  }

  /** The blocks whose terminator can branch to block `b`. */
  function Predecessors(f: Function, b: nat): set<nat> {
    set p | 0 <= p < |f.blocks| && b in Successors(f.blocks[p])
  }

  /** The blocks named by the incoming entries of a phi. */
  function IncomingBlocks(inc: seq<Incoming>): set<nat> {
    set e | e in inc :: e.block
  }

  /** The block ends in a terminator and holds no other. */
  predicate EndsInOneTerminator(b: Block) {
    && |b.instrs| > 0
    && IsTerminator(b.instrs[|b.instrs| - 1].op)
    && forall k :: 0 <= k < |b.instrs| - 1 ==> !IsTerminator(b.instrs[k].op)
  }

  /** Phi nodes are grouped at the start of the block. */
  predicate PhisFirst(b: Block) {
    forall j, k :: 0 <= j < k < |b.instrs| && b.instrs[k].op.Phi? ==> b.instrs[j].op.Phi?
  }

  /** A phi of block `b` has one incoming entry per predecessor of `b`,
      and its incoming blocks are exactly those predecessors. */
  predicate PhiMatchesPredecessors(f: Function, b: nat, op: Op) {
    op.Phi? ==>
      && IncomingBlocks(op.incoming) == Predecessors(f, b)
      && |op.incoming| == |Predecessors(f, b)|
  }

  predicate BranchTargetsExist(f: Function, b: Block) {
    forall t :: t in Successors(b) ==> t < |f.blocks|
  }

  predicate WellFormed(f: Function) {
    && |f.blocks| > 0
    && Predecessors(f, 0) == {}
    && (forall b :: 0 <= b < |f.blocks| ==> EndsInOneTerminator(f.blocks[b]))
    && (forall b :: 0 <= b < |f.blocks| ==> BranchTargetsExist(f, f.blocks[b]))
    && (forall b :: 0 <= b < |f.blocks| ==> PhisFirst(f.blocks[b]))
    && (forall b, k :: 0 <= b < |f.blocks| && 0 <= k < |f.blocks[b].instrs| ==>
          PhiMatchesPredecessors(f, b, f.blocks[b].instrs[k].op))
  }
}
