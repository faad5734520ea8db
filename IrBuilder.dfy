/** The construction side of the IR: a function under construction that
    owns its block arena (`llvm::Function` with `BasicBlock::Create`), and an
    instruction builder with an insertion point and a current debug location
    (`llvm::IRBuilder`). Every emitted instruction gets a fresh handle. */
module IrBuilder {
  import opened Ir

  /** A handle on a phi node in the arena, the stand-in for a `PHINode *`:
      where it sits and the value it defines. */
  datatype PhiRef = PhiRef(block: nat, index: nat, value: Value)

  class FunctionDef {
    const name: string
    const linkage: Linkage
    var params: seq<Param>
    const retType: Type
    var blocks: seq<Block>
    var subprogram: Option<nat>
    var nextId: nat

    /** Every handle in use is below `nextId`, so the next one is fresh. */
    ghost predicate Valid()
      reads this
    {
      forall b, k :: 0 <= b < |blocks| && 0 <= k < |blocks[b].instrs| ==> blocks[b].instrs[k].id < nextId
    }

    /** The function as a value of the IR graph model. */
    function Snapshot(): Function
      reads this
    {
      Function(name, linkage, params, retType, blocks, subprogram)
    }

    predicate IsPhi(p: PhiRef)
      reads this
    {
      && p.block < |blocks|
      && p.index < |blocks[p.block].instrs|
      && blocks[p.block].instrs[p.index].op.Phi?
      && p.value == Reg(blocks[p.block].instrs[p.index].id)
    }

    /** `Function::Create`: a new function with no blocks. */
    constructor Create(name: string, linkage: Linkage, params: seq<Param>, retType: Type)
      ensures Valid()
      ensures Snapshot() == Function(name, linkage, params, retType, [], None)
      ensures nextId == 0
    {
      this.name := name;
      this.linkage := linkage;
      this.params := params;
      this.retType := retType;
      blocks := [];
      subprogram := None;
      nextId := 0;
    }

    /** `Argument::setName`. */
    method SetArgName(i: nat, n: string)
      requires i < |params|
      modifies this`params
      ensures params == old(params)[i := Param(n, old(params)[i].ty)]
    {
      params := params[i := Param(n, params[i].ty)];
    }

    /** `Function::setSubprogram`. */
    method SetSubprogram(sp: nat)
      modifies this`subprogram
      ensures subprogram == Some(sp)
    {
      subprogram := Some(sp);
    }

    /** `BasicBlock::Create(context, name, function)`: an empty block
        appended at the end of the function. */
    method AppendBlock(n: string) returns (b: nat)
      requires Valid()
      modifies this`blocks
      ensures Valid()
      ensures b == |old(blocks)| && blocks == old(blocks) + [Block(n, [])]
    {
      b := |blocks|;
      blocks := blocks + [Block(n, [])];
    }

    /** Insert a new instruction at the end of block `b` under a fresh handle. */
    method Append(b: nat, n: string, op: Op, loc: DebugLoc) returns (v: Value)
      requires Valid() && b < |blocks|
      modifies this`blocks, this`nextId
      ensures Valid()
      ensures blocks == AppendInstr(old(blocks), b, Instr(old(nextId), n, op, loc))
      ensures nextId == old(nextId) + 1 && v == Reg(old(nextId))
    {
      v := Reg(nextId);
      blocks := AppendInstr(blocks, b, Instr(nextId, n, op, loc));
      nextId := nextId + 1;
    }

    /** `PHINode::addIncoming`: the phi grows in place by one edge. */
    method AddIncoming(p: PhiRef, v: Value, from: nat)
      requires Valid() && IsPhi(p)
      modifies this`blocks
      ensures Valid() && IsPhi(p)
      ensures blocks == AddPhiIncoming(old(blocks), p.block, p.index, Incoming(v, from))
    {
      blocks := AddPhiIncoming(blocks, p.block, p.index, Incoming(v, from));
    }
  }

  class IRBuilder {
    const fn: FunctionDef
    var insertBlock: nat
    var curLoc: DebugLoc

    ghost predicate Valid()
      reads this, fn
    {
      fn.Valid() && insertBlock < |fn.blocks|
    }

    /** The arena grew by exactly one instruction, `name = op`, at the end of
        the insertion block, carrying the current debug location. */
    ghost predicate Emitted(oldBlocks: seq<Block>, oldNext: nat, name: string, op: Op)
      reads this, fn
    {
      && insertBlock < |oldBlocks|
      && fn.blocks == AppendInstr(oldBlocks, insertBlock, Instr(oldNext, name, op, curLoc))
      && fn.nextId == oldNext + 1
    }

    /** `IRBuilder<> builder(block)`: insertion at the end of `b`, no
        debug location. */
    constructor (fn: FunctionDef, b: nat)
      requires fn.Valid() && b < |fn.blocks|
      ensures this.fn == fn && insertBlock == b && curLoc == NoLoc
      ensures Valid()
    {
      this.fn := fn;
      insertBlock := b;
      curLoc := NoLoc;
    }

    method SetInsertPoint(b: nat)
      requires fn.Valid() && b < |fn.blocks|
      modifies this`insertBlock
      ensures Valid() && insertBlock == b
    {
      insertBlock := b;
    }

    /** The location every following instruction carries. */
    method SetCurrentDebugLocation(loc: DebugLoc)
      requires Valid()
      modifies this`curLoc
      ensures Valid() && curLoc == loc
    {
      curLoc := loc;
    }

    method Emit(name: string, op: Op) returns (v: Value)
      requires Valid()
      modifies fn`blocks, fn`nextId
      ensures Valid() && Emitted(old(fn.blocks), old(fn.nextId), name, op)
      ensures v == Reg(old(fn.nextId))
    {
      v := fn.Append(insertBlock, name, op, curLoc);
    }

    method CreateICmpEQ(lhs: Value, rhs: Value, name: string) returns (v: Value)
      requires Valid()
      modifies fn`blocks, fn`nextId
      ensures Valid() && Emitted(old(fn.blocks), old(fn.nextId), name, ICmpEq(lhs, rhs))
      ensures v == Reg(old(fn.nextId))
    {
      v := Emit(name, ICmpEq(lhs, rhs));
    }

    /** `CreateAdd(lhs, rhs, name, HasNUW = false, HasNSW = nsw)`. */
    method CreateAdd(lhs: Value, rhs: Value, name: string, nsw: bool) returns (v: Value)
      requires Valid()
      modifies fn`blocks, fn`nextId
      ensures Valid() && Emitted(old(fn.blocks), old(fn.nextId), name, Add(lhs, rhs, nsw))
      ensures v == Reg(old(fn.nextId))
    {
      v := Emit(name, Add(lhs, rhs, nsw));
    }

    method CreateGEP(base: Value, index: Value, name: string) returns (v: Value)
      requires Valid()
      modifies fn`blocks, fn`nextId
      ensures Valid() && Emitted(old(fn.blocks), old(fn.nextId), name, Gep(base, index))
      ensures v == Reg(old(fn.nextId))
    {
      v := Emit(name, Gep(base, index));
    }

    method CreateLoad(addr: Value, name: string) returns (v: Value)
      requires Valid()
      modifies fn`blocks, fn`nextId
      ensures Valid() && Emitted(old(fn.blocks), old(fn.nextId), name, Load(addr))
      ensures v == Reg(old(fn.nextId))
    {
      v := Emit(name, Load(addr));
    }

    method CreateStore(val: Value, addr: Value)
      requires Valid()
      modifies fn`blocks, fn`nextId
      ensures Valid() && Emitted(old(fn.blocks), old(fn.nextId), "", Store(val, addr))
    {
      var _ := Emit("", Store(val, addr));
    }

    method CreateAlloca(ty: Type, name: string) returns (v: Value)
      requires Valid()
      modifies fn`blocks, fn`nextId
      ensures Valid() && Emitted(old(fn.blocks), old(fn.nextId), name, Alloca(ty))
      ensures v == Reg(old(fn.nextId))
    {
      v := Emit(name, Alloca(ty));
    }

    method CreateCondBr(cond: Value, ifTrue: nat, ifFalse: nat)
      requires Valid()
      modifies fn`blocks, fn`nextId
      ensures Valid() && Emitted(old(fn.blocks), old(fn.nextId), "", CondBr(cond, ifTrue, ifFalse))
    {
      var _ := Emit("", CondBr(cond, ifTrue, ifFalse));
    }

    method CreateRet(val: Value)
      requires Valid()
      modifies fn`blocks, fn`nextId
      ensures Valid() && Emitted(old(fn.blocks), old(fn.nextId), "", Ret(val))
    {
      var _ := Emit("", Ret(val));
    }

    /** `CreatePHI(type, reserved, name)`: an empty phi; its incoming edges
        are added later through the returned handle. The reserved capacity is
        an allocation hint with no effect on the graph. */
    method CreatePHI(ty: Type, reserved: nat, name: string) returns (p: PhiRef)
      requires Valid()
      modifies fn`blocks, fn`nextId
      ensures Valid() && Emitted(old(fn.blocks), old(fn.nextId), name, Phi(ty, []))
      ensures p == PhiRef(insertBlock, |old(fn.blocks)[insertBlock].instrs|, Reg(old(fn.nextId)))
      ensures fn.IsPhi(p)
    {
      p := PhiRef(insertBlock, |fn.blocks[insertBlock].instrs|, Reg(fn.nextId));
      var _ := Emit(name, Phi(ty, []));
    }
  }
}
