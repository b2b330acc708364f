/** The read-only validation context the barrier validator consults, and the
    decoded instruction it is given. The queries answered by type tracking,
    capability bookkeeping, target-environment tables and the scope
    validators are not part of this model; they appear here as values and
    total functions fixed for one validation run. */
module ValidationContext {
  import opened Spirv

  /** Success, or the diagnostic that stopped validation. */
  datatype Outcome<+E> = Pass | Fail(error: E)

  /** A decoded instruction: `words[0]` holds the word count and opcode,
      operand `k` of the barrier instructions is `words[k + 1]`. */
  datatype Instruction = Instruction(
    opcode: Opcode,
    resultType: Id,     // 0 when the instruction has no result type
    words: seq<Word>,
    enclosingFunction: Id)
  {
    /** The word at `index`. */
    function WordAt(index: nat): (w: Word)
      requires index < |words|
    {
      words[index]
    }
  }

  /** What constant evaluation reports about an id: whether its type is a
      32-bit integer, whether it is a constant, and the constant's value. */
  datatype ConstEval = ConstEval(isInt32: bool, isConstInt32: bool, value: bv32)

  /** A diagnostic produced by a scope validator (not part of this model). */
  datatype ScopeDiagnostic = ScopeDiagnostic(message: string)

  datatype Context = Context(
    capabilities: set<Capability>,
    memoryModel: MemoryModel,
    /** whether the target environment is a Vulkan environment */
    vulkanEnv: bool,
    /** the SPIR-V version word the target environment supports */
    targetVersion: nat,
    evalInt32IfConst: Id -> ConstEval,
    idOpcode: Id -> Opcode,
    /** the type id of the instruction that defines an id */
    typeOf: Id -> Id,
    isIntScalarType: Id -> bool,
    bitWidth: Id -> nat,
    validateExecutionScope: (Instruction, Id) -> Outcome<ScopeDiagnostic>,
    validateMemoryScope: (Instruction, Id) -> Outcome<ScopeDiagnostic>)
  {
    predicate HasCapability(c: Capability) {
      c in capabilities
    }

    /** The type of operand `k` of `inst`: the type of the id in word `k + 1`. */
    function GetOperandTypeId(inst: Instruction, k: nat): (t: Id)
      requires k + 1 < |inst.words|
    {
      typeOf(inst.WordAt(k + 1))
    }
  }
}
