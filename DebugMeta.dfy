/** The debug-information builder (`llvm::DIBuilder`): it accumulates
    subprogram and local-variable descriptors, inserts `llvm.dbg.declare`
    calls that bind a variable to its storage, and on `finalize` resolves
    each subprogram's retained variables and commits the descriptors to the
    module it was created for. */
module DebugMeta {
  import opened Ir
  import opened IrBuilder

  /** `dwarf::DW_ATE_signed`, the DWARF encoding of a signed integer. */
  const DW_ATE_signed: nat := 5

  /** The variables `finalize` makes subprogram `sp` retain: those scoped to
      it and created with AlwaysPreserve, each once, in creation order. */
  function Preserved(vars: seq<DILocalVariable>, sp: nat): (r: seq<nat>)
    ensures forall j :: 0 <= j < |r| ==> r[j] < |vars| && vars[r[j]].scope == sp && vars[r[j]].preserve
    ensures forall v :: 0 <= v < |vars| && vars[v].scope == sp && vars[v].preserve ==> v in r
    ensures forall i, j :: 0 <= i < j < |r| ==> r[i] < r[j]
  {
    if |vars| == 0 then []
    else
      var last := |vars| - 1;
      var front := Preserved(vars[..last], sp);
      assert forall v :: 0 <= v < last ==> vars[..last][v] == vars[v];
      front + (if vars[last].scope == sp && vars[last].preserve then [last] else [])
  }

  /** When the first `p` variables of `sp` are preserved and no later one
      is, `sp` retains exactly the first `p`. */
  lemma {:induction false} PreservedPrefix(vars: seq<DILocalVariable>, sp: nat, p: nat)
    requires p <= |vars|
    requires forall v :: 0 <= v < p ==> vars[v].scope == sp && vars[v].preserve
    requires forall v :: p <= v < |vars| ==> !vars[v].preserve
    ensures Preserved(vars, sp) == seq(p, i => i)
  {
    if |vars| > 0 {
      var last := |vars| - 1;
      assert forall v :: 0 <= v < last ==> vars[..last][v] == vars[v];
      if p == |vars| {
        PreservedPrefix(vars[..last], sp, last);
        assert seq(last, i => i) + [last] == seq(p, i => i);
      } else {
        PreservedPrefix(vars[..last], sp, p);
      }
    }
  }

  /** The subprograms after `finalize`: each retains its preserved variables. */
  function Retained(sps: seq<DISubprogram>, vars: seq<DILocalVariable>): seq<DISubprogram> {
    seq(|sps|, i requires 0 <= i < |sps| => sps[i].(retained := Preserved(vars, i)))
  }

  class DIBuilder {
    const m: Module
    var subprograms: seq<DISubprogram>
    var variables: seq<DILocalVariable>

    /** `DIBuilder(M)`: no descriptors yet. */
    constructor (m: Module)
      ensures this.m == m && subprograms == [] && variables == []
    {
      this.m := m;
      subprograms := [];
      variables := [];
    }

    /** `createFunction`: a new subprogram descriptor, retaining nothing
        until `finalize`. */
    method CreateFunction(name: string, linkageName: string, signature: seq<DIType>) returns (sp: nat)
      modifies this`subprograms
      ensures sp == |old(subprograms)|
      ensures subprograms == old(subprograms) + [DISubprogram(name, linkageName, signature, [])]
    {
      sp := |subprograms|;
      subprograms := subprograms + [DISubprogram(name, linkageName, signature, [])];
    }

    /** `createParameterVariable`: the argument number is recorded as given;
        AlwaysPreserve is false unless the caller passes it. */
    method CreateParameterVariable(scope: nat, name: string, argNo: nat, ty: DIType, alwaysPreserve: bool := false) returns (v: nat)
      modifies this`variables
      ensures v == |old(variables)|
      ensures variables == old(variables) + [DILocalVariable(scope, name, argNo, ty, alwaysPreserve)]
    {
      v := |variables|;
      variables := variables + [DILocalVariable(scope, name, argNo, ty, alwaysPreserve)];
    }

    /** `createAutoVariable`: a local variable, argument number 0;
        AlwaysPreserve is false unless the caller passes it. */
    method CreateAutoVariable(scope: nat, name: string, ty: DIType, alwaysPreserve: bool := false) returns (v: nat)
      modifies this`variables
      ensures v == |old(variables)|
      ensures variables == old(variables) + [DILocalVariable(scope, name, 0, ty, alwaysPreserve)]
    {
      v := |variables|;
      variables := variables + [DILocalVariable(scope, name, 0, ty, alwaysPreserve)];
    }

    /** `insertDeclare(storage, variable, expr, loc, block)`: a call to
        `llvm.dbg.declare` at the end of `block`, carrying its own location
        whatever the instruction builder's current one is. */
    method InsertDeclare(fn: FunctionDef, storage: Value, v: nat, loc: DebugLoc, block: nat)
      requires fn.Valid() && block < |fn.blocks| && v < |variables|
      modifies fn`blocks, fn`nextId
      ensures fn.Valid()
      ensures fn.blocks == AppendInstr(old(fn.blocks), block, Instr(old(fn.nextId), "", DbgDeclare(storage, v), loc))
      ensures fn.nextId == old(fn.nextId) + 1
    {
      var _ := fn.Append(block, "", DbgDeclare(storage, v), loc);
    }

    /** `finalize`: every subprogram retains the variables scoped to it that
        were created with AlwaysPreserve, and the descriptors are committed
        to the module. */
    method Finalize()
      modifies this`subprograms, m`debugInfo
      ensures subprograms == Retained(old(subprograms), variables)
      ensures m.debugInfo == old(m.debugInfo) + [DebugInfo(subprograms, variables)]
    {
      subprograms := Retained(subprograms, variables);
      m.AddDebugInfo(DebugInfo(subprograms, variables));
    }
  }

  // ---------------------------------------------------------------------
  // How a function's debug information fits its descriptors

  /** Every located instruction of `f` lies in `f`'s own subprogram, every
      variable a declare of `f` binds is scoped to that subprogram, and the
      subprogram retains exactly its variables created with AlwaysPreserve. */
  predicate DebugInfoAgrees(f: Function, info: DebugInfo) {
    && f.subprogram.Some? && f.subprogram.value < |info.subprograms|
    && (forall b, j :: 0 <= b < |f.blocks| && 0 <= j < |f.blocks[b].instrs| && f.blocks[b].instrs[j].loc.DILocation? ==>
          f.blocks[b].instrs[j].loc.scope == f.subprogram.value)
    && (forall b, j :: 0 <= b < |f.blocks| && 0 <= j < |f.blocks[b].instrs| && f.blocks[b].instrs[j].op.DbgDeclare? ==>
          && f.blocks[b].instrs[j].op.variable < |info.variables|
          && info.variables[f.blocks[b].instrs[j].op.variable].scope == f.subprogram.value)
    && (forall v :: v in info.subprograms[f.subprogram.value].retained ==>
          0 <= v < |info.variables| && info.variables[v].scope == f.subprogram.value && info.variables[v].preserve)
    && (forall v :: 0 <= v < |info.variables| && info.variables[v].scope == f.subprogram.value && info.variables[v].preserve ==>
          v in info.subprograms[f.subprogram.value].retained)
  }

  /** In `instrs`, the declare at `kd` binds variable `v` to a slot, and the
      store at `ks` writes argument `j` into that same slot: `v` describes
      parameter `j` (0-based). */
  predicate BindsArgument(instrs: seq<Instr>, vars: seq<DILocalVariable>, kd: nat, ks: nat, v: nat, j: nat) {
    && kd < |instrs| && ks < |instrs| && v < |vars|
    && instrs[kd].op.DbgDeclare? && instrs[kd].op.variable == v
    && instrs[ks].op == Store(Arg(j), instrs[kd].op.slot)
  }

  /** Descriptor argument numbers follow LLVM's convention: a variable that
      describes parameter `j` carries the 1-based number `j + 1` (0 is
      reserved for variables that are not parameters). */
  ghost predicate ParametersNumbered(instrs: seq<Instr>, vars: seq<DILocalVariable>) {
    forall kd: nat, ks: nat, v: nat, j: nat :: BindsArgument(instrs, vars, kd, ks, v, j) ==> vars[v].arg == j + 1
  }

  /** Alignments in a debug type are whole bytes (a multiple of 8 bits; 0
      means unspecified). */
  predicate WholeByteAlignment(t: DIType) {
    match t
    case DIBasicType(_, _, _) => true
    case DIPointerType(pointee, _, align) => align % 8 == 0 && WholeByteAlignment(pointee)
  }
}
