/** The barrier-instruction pass of validate_barriers.cpp: a dispatch on the
    four barrier opcodes that runs the scope validators and the Memory
    Semantics validator in a fixed order, reports the first error, and, for
    OpControlBarrier on targets older than SPIR-V 1.3, registers an
    execution-model limitation on the enclosing function. */
module Barriers {
  import opened Spirv
  import opened ValidationContext
  import opened MemorySemantics

  /** The diagnostics the pass can return. */
  datatype BarrierError =
    | ExecutionScopeError(scope: ScopeDiagnostic)
    | MemoryScopeError(scope: ScopeDiagnostic)
    | Semantics(kind: SemanticsError)
    | ResultTypeNotNamedBarrier          // OpNamedBarrierInitialize: Result Type is not OpTypeNamedBarrier
    | SubgroupCountNotInt32              // OpNamedBarrierInitialize: Subgroup Count is not a 32-bit int
    | NamedBarrierOperandWrongType       // OpMemoryNamedBarrier: Named Barrier is not of type OpTypeNamedBarrier

  // ---------------------------------------------------------------------
  // Execution-model limitations
  // ---------------------------------------------------------------------

  /** A restriction on the execution models that may reach a function,
      checked once those are known: the models it accepts, and the message
      reported for any other. */
  datatype ExecutionModelLimitation = ExecutionModelLimitation(allowed: set<ExecutionModel>, message: string)
  {
    /** Pass when `model` is acceptable, otherwise the limitation's message. */
    function Evaluate(model: ExecutionModel): (r: Outcome<string>)
    {
      if model in allowed then Pass else Fail(message)
    }
  }

  const ControlBarrierMessage: string :=
    "OpControlBarrier requires one of the following Execution Models: TessellationControl, GLCompute or Kernel"

  /** The limitation OpControlBarrier registers before SPIR-V 1.3. */
  const ControlBarrierLimitation: ExecutionModelLimitation :=
    ExecutionModelLimitation({TessellationControl, GLCompute, Kernel, TaskNV, MeshNV}, ControlBarrierMessage)

  /** The OpControlBarrier limitation accepts exactly TessellationControl,
      GLCompute, Kernel, TaskNV and MeshNV, and reports its message for
      every other model; so Vertex is refused and GLCompute accepted. */
  lemma ControlBarrierLimitationAccepts(model: ExecutionModel)
    ensures ControlBarrierLimitation.Evaluate(model) == Pass
            <==> model == TessellationControl || model == GLCompute || model == Kernel
                 || model == TaskNV || model == MeshNV
    ensures ControlBarrierLimitation.Evaluate(model) != Pass ==>
              ControlBarrierLimitation.Evaluate(model) == Fail(ControlBarrierMessage)
    ensures ControlBarrierLimitation.Evaluate(Vertex) == Fail(ControlBarrierMessage)
    ensures ControlBarrierLimitation.Evaluate(GLCompute) == Pass
  {
  }

  /** A function of the module, holding the execution-model limitations
      registered on it while its instructions are validated. */
  class Function {
    const id: Id
    var limitations: seq<ExecutionModelLimitation>

    constructor (id: Id)
      ensures this.id == id && limitations == []
    {
      this.id := id;
      limitations := [];
    }

    /** Appends `limitation` to the function's list. */
    method RegisterExecutionModelLimitation(limitation: ExecutionModelLimitation)
      modifies this
      ensures limitations == old(limitations) + [limitation]
    {
      limitations := limitations + [limitation];
    }
  }

  // ---------------------------------------------------------------------
  // The pass
  // ---------------------------------------------------------------------

  /** The number of words each barrier opcode is read at: operand words up
      to this count are present in every instruction the binary parser
      accepts. */
  function MinWordCount(opcode: Opcode): (n: nat)
  {
    if opcode == OpControlBarrier || opcode == OpNamedBarrierInitialize || opcode == OpMemoryNamedBarrier then 4
    else if opcode == OpMemoryBarrier then 3
    else 0
  }

  predicate WellFormed(inst: Instruction) {
    |inst.words| >= MinWordCount(inst.opcode)
  }

  /** Lifts the execution-scope validator's verdict into the pass's diagnostics. */
  function ExecutionScopeOutcome(o: Outcome<ScopeDiagnostic>): (r: Outcome<BarrierError>)
  {
    match o
    case Pass => Pass
    case Fail(d) => Fail(ExecutionScopeError(d))
  }

  /** Lifts the memory-scope validator's verdict into the pass's diagnostics. */
  function MemoryScopeOutcome(o: Outcome<ScopeDiagnostic>): (r: Outcome<BarrierError>)
  {
    match o
    case Pass => Pass
    case Fail(d) => Fail(MemoryScopeError(d))
  }

  /** Lifts the Memory Semantics validator's verdict into the pass's diagnostics. */
  function SemanticsOutcome(o: Outcome<SemanticsError>): (r: Outcome<BarrierError>)
  {
    match o
    case Pass => Pass
    case Fail(k) => Fail(Semantics(k))
  }

  /** The verdict of the pass on `inst`. Each diagnostic comes from a check
      that only its own opcodes make, and a Memory Semantics error is always
      about the last operand word the opcode is read at. */
  function BarrierCheck(ctx: Context, inst: Instruction): (r: Outcome<BarrierError>)
    requires WellFormed(inst)
    ensures inst.opcode !in {OpControlBarrier, OpMemoryBarrier, OpNamedBarrierInitialize, OpMemoryNamedBarrier} ==> r == Pass
    ensures r.Fail? && r.error.ExecutionScopeError? ==> inst.opcode == OpControlBarrier
    ensures r.Fail? && r.error.MemoryScopeError? ==> inst.opcode in {OpControlBarrier, OpMemoryBarrier, OpMemoryNamedBarrier}
    ensures r.Fail? && (r.error.ResultTypeNotNamedBarrier? || r.error.SubgroupCountNotInt32?) ==> inst.opcode == OpNamedBarrierInitialize
    ensures r.Fail? && r.error.NamedBarrierOperandWrongType? ==> inst.opcode == OpMemoryNamedBarrier
    ensures r.Fail? && r.error.Semantics? ==>
              inst.opcode in {OpControlBarrier, OpMemoryBarrier, OpMemoryNamedBarrier}
              && ValidateMemorySemantics(ctx, inst, inst.words[MinWordCount(inst.opcode) - 1]) == Fail(r.error.kind)
  {
    var opcode := inst.opcode;
    if opcode == OpControlBarrier then
      var executionScope := inst.WordAt(1);
      var memoryScope := inst.WordAt(2);
      var memorySemantics := inst.WordAt(3);
      if ctx.validateExecutionScope(inst, executionScope).Fail? then
        ExecutionScopeOutcome(ctx.validateExecutionScope(inst, executionScope))
      else if ctx.validateMemoryScope(inst, memoryScope).Fail? then
        MemoryScopeOutcome(ctx.validateMemoryScope(inst, memoryScope))
      else SemanticsOutcome(ValidateMemorySemantics(ctx, inst, memorySemantics))
    else if opcode == OpMemoryBarrier then
      var memoryScope := inst.WordAt(1);
      var memorySemantics := inst.WordAt(2);
      if ctx.validateMemoryScope(inst, memoryScope).Fail? then
        MemoryScopeOutcome(ctx.validateMemoryScope(inst, memoryScope))
      else SemanticsOutcome(ValidateMemorySemantics(ctx, inst, memorySemantics))
    else if opcode == OpNamedBarrierInitialize then
      if ctx.idOpcode(inst.resultType) != OpTypeNamedBarrier then Fail(ResultTypeNotNamedBarrier)
      else
        var subgroupCountType := ctx.GetOperandTypeId(inst, 2);
        if !ctx.isIntScalarType(subgroupCountType) || ctx.bitWidth(subgroupCountType) != 32 then
          Fail(SubgroupCountNotInt32)
        else Pass
    else if opcode == OpMemoryNamedBarrier then
      var namedBarrierType := ctx.GetOperandTypeId(inst, 0);
      if ctx.idOpcode(namedBarrierType) != OpTypeNamedBarrier then Fail(NamedBarrierOperandWrongType)
      else
        var memoryScope := inst.WordAt(2);
        var memorySemantics := inst.WordAt(3);
        if ctx.validateMemoryScope(inst, memoryScope).Fail? then
          MemoryScopeOutcome(ctx.validateMemoryScope(inst, memoryScope))
        else SemanticsOutcome(ValidateMemorySemantics(ctx, inst, memorySemantics))
    else Pass
  }

  /** The limitations the pass appends to the enclosing function of `inst`. */
  function RegisteredLimitations(ctx: Context, inst: Instruction): (lims: seq<ExecutionModelLimitation>)
    ensures |lims| <= 1
    ensures forall l | l in lims :: l == ControlBarrierLimitation
    ensures lims != [] <==> inst.opcode == OpControlBarrier && ctx.targetVersion < 0x10300
  {
    if inst.opcode == OpControlBarrier && ctx.targetVersion < VersionWord(1, 3) then [ControlBarrierLimitation]
    else []
  }

  /** Validates one barrier instruction. For OpControlBarrier on a target
      older than SPIR-V 1.3 the limitation is registered first, so it is
      registered whatever the operand checks then report. */
  method BarriersPass(ctx: Context, inst: Instruction, enclosing: Function) returns (r: Outcome<BarrierError>)
    requires WellFormed(inst) && enclosing.id == inst.enclosingFunction
    modifies enclosing
    ensures r == BarrierCheck(ctx, inst)
    ensures enclosing.limitations == old(enclosing.limitations) + RegisteredLimitations(ctx, inst)
  {
    var opcode := inst.opcode;
    if opcode == OpControlBarrier {
      if ctx.targetVersion < VersionWord(1, 3) {
        enclosing.RegisterExecutionModelLimitation(ControlBarrierLimitation);
      }
      var executionScope := inst.WordAt(1);
      var memoryScope := inst.WordAt(2);
      var memorySemantics := inst.WordAt(3);
      var scope := ctx.validateExecutionScope(inst, executionScope);
      if scope.Fail? {
        return Fail(ExecutionScopeError(scope.error));
      }
      scope := ctx.validateMemoryScope(inst, memoryScope);
      if scope.Fail? {
        return Fail(MemoryScopeError(scope.error));
      }
      var semantics := ValidateMemorySemantics(ctx, inst, memorySemantics);
      if semantics.Fail? {
        return Fail(Semantics(semantics.error));
      }
    } else if opcode == OpMemoryBarrier {
      var memoryScope := inst.WordAt(1);
      var memorySemantics := inst.WordAt(2);
      var scope := ctx.validateMemoryScope(inst, memoryScope);
      if scope.Fail? {
        return Fail(MemoryScopeError(scope.error));
      }
      var semantics := ValidateMemorySemantics(ctx, inst, memorySemantics);
      if semantics.Fail? {
        return Fail(Semantics(semantics.error));
      }
    } else if opcode == OpNamedBarrierInitialize {
      if ctx.idOpcode(inst.resultType) != OpTypeNamedBarrier {
        return Fail(ResultTypeNotNamedBarrier);
      }
      var subgroupCountType := ctx.GetOperandTypeId(inst, 2);
      if !ctx.isIntScalarType(subgroupCountType) || ctx.bitWidth(subgroupCountType) != 32 {
        return Fail(SubgroupCountNotInt32);
      }
    } else if opcode == OpMemoryNamedBarrier {
      var namedBarrierType := ctx.GetOperandTypeId(inst, 0);
      if ctx.idOpcode(namedBarrierType) != OpTypeNamedBarrier {
        return Fail(NamedBarrierOperandWrongType);
      }
      var memoryScope := inst.WordAt(2);
      var memorySemantics := inst.WordAt(3);
      var scope := ctx.validateMemoryScope(inst, memoryScope);
      if scope.Fail? {
        return Fail(MemoryScopeError(scope.error));
      }
      var semantics := ValidateMemorySemantics(ctx, inst, memorySemantics);
      if semantics.Fail? {
        return Fail(Semantics(semantics.error));
      }
    }
    return Pass;
  }

  // ---------------------------------------------------------------------
  // The same dispatch as a table: per opcode, the checks in order.
  // ---------------------------------------------------------------------

  /** One operand check of the pass. */
  datatype Check =
    | ExecutionScopeAt(word: nat)       // the execution scope id in `word`
    | MemoryScopeAt(word: nat)          // the memory scope id in `word`
    | SemanticsAt(word: nat)            // the Memory Semantics id in `word`
    | ResultTypeIsNamedBarrier          // the result type is OpTypeNamedBarrier
    | SubgroupCountIsInt32(operand: nat)  // the type of `operand` is a 32-bit int
    | OperandIsNamedBarrier(operand: nat) // the type of `operand` is OpTypeNamedBarrier

  /** The checks the pass makes on each opcode, in the order it makes them. */
  function Plan(opcode: Opcode): (checks: seq<Check>)
    ensures forall i | 0 <= i < |checks| :: WordsRead(checks[i]) <= MinWordCount(opcode)
  {
    if opcode == OpControlBarrier then [ExecutionScopeAt(1), MemoryScopeAt(2), SemanticsAt(3)]
    else if opcode == OpMemoryBarrier then [MemoryScopeAt(1), SemanticsAt(2)]
    else if opcode == OpNamedBarrierInitialize then [ResultTypeIsNamedBarrier, SubgroupCountIsInt32(2)]
    else if opcode == OpMemoryNamedBarrier then [OperandIsNamedBarrier(0), MemoryScopeAt(2), SemanticsAt(3)]
    else []
  }

  /** How many leading words of the instruction a check reads. */
  function WordsRead(c: Check): (n: nat) {
    match c
    case ExecutionScopeAt(w) => w + 1
    case MemoryScopeAt(w) => w + 1
    case SemanticsAt(w) => w + 1
    case ResultTypeIsNamedBarrier => 0
    case SubgroupCountIsInt32(k) => k + 2
    case OperandIsNamedBarrier(k) => k + 2
  }

  /** The words a check reads are present in `inst`. */
  predicate Reads(inst: Instruction, c: Check) {
    WordsRead(c) <= |inst.words|
  }

  /** The verdict of a single check. */
  function RunCheck(ctx: Context, inst: Instruction, c: Check): (r: Outcome<BarrierError>)
    requires Reads(inst, c)
  {
    match c
    case ExecutionScopeAt(w) => ExecutionScopeOutcome(ctx.validateExecutionScope(inst, inst.words[w]))
    case MemoryScopeAt(w) => MemoryScopeOutcome(ctx.validateMemoryScope(inst, inst.words[w]))
    case SemanticsAt(w) => SemanticsOutcome(ValidateMemorySemantics(ctx, inst, inst.words[w]))
    case ResultTypeIsNamedBarrier =>
      if ctx.idOpcode(inst.resultType) == OpTypeNamedBarrier then Pass else Fail(ResultTypeNotNamedBarrier)
    case SubgroupCountIsInt32(k) =>
      var t := ctx.typeOf(inst.words[k + 1]);
      if ctx.isIntScalarType(t) && ctx.bitWidth(t) == 32 then Pass else Fail(SubgroupCountNotInt32)
    case OperandIsNamedBarrier(k) =>
      if ctx.idOpcode(ctx.typeOf(inst.words[k + 1])) == OpTypeNamedBarrier then Pass else Fail(NamedBarrierOperandWrongType)
  }

  /** The first failing check of `checks`, or Pass when all pass. */
  function FirstFailure(ctx: Context, inst: Instruction, checks: seq<Check>): (r: Outcome<BarrierError>)
    requires forall i | 0 <= i < |checks| :: Reads(inst, checks[i])
    ensures r.Pass? <==> forall i | 0 <= i < |checks| :: RunCheck(ctx, inst, checks[i]).Pass?
    ensures r.Fail? ==> exists i | 0 <= i < |checks| :: RunCheck(ctx, inst, checks[i]) == r
                          && forall j | 0 <= j < i :: RunCheck(ctx, inst, checks[j]).Pass?
    decreases |checks|
  {
    if checks == [] then Pass
    else if RunCheck(ctx, inst, checks[0]).Fail? then RunCheck(ctx, inst, checks[0])
    else
      var rest := FirstFailure(ctx, inst, checks[1..]);
      assert forall i | 1 <= i < |checks| :: checks[i] == checks[1..][i - 1];
      rest
  }

  /** The pass reports exactly the first failing check of its opcode's plan. */
  lemma DispatchFollowsPlan(ctx: Context, inst: Instruction)
    requires WellFormed(inst)
    ensures BarrierCheck(ctx, inst) == FirstFailure(ctx, inst, Plan(inst.opcode))
  {
    var plan := Plan(inst.opcode);
    if |plan| == 3 {
      assert plan[1..][1..] == [plan[2]];
      assert plan[1..][1..][1..] == [];
    } else if |plan| == 2 {
      assert plan[1..] == [plan[1]];
      assert plan[1..][1..] == [];
    }
  }

  /** The pass accepts an instruction exactly when every check planned for
      its opcode passes; otherwise it reports the first failing one. */
  lemma ReportsFirstFailingCheck(ctx: Context, inst: Instruction)
    requires WellFormed(inst)
    ensures var plan := Plan(inst.opcode);
            && (BarrierCheck(ctx, inst) == Pass <==> forall i | 0 <= i < |plan| :: RunCheck(ctx, inst, plan[i]).Pass?)
            && (BarrierCheck(ctx, inst).Fail? ==>
                  exists i | 0 <= i < |plan| :: RunCheck(ctx, inst, plan[i]) == BarrierCheck(ctx, inst)
                    && forall j | 0 <= j < i :: RunCheck(ctx, inst, plan[j]).Pass?)
  {
    DispatchFollowsPlan(ctx, inst);
  }

  /** OpControlBarrier: an execution-scope error wins over everything, a
      memory-scope error over the Memory Semantics verdict, and a semantics
      error is reported only when both scopes pass. */
  lemma ControlBarrierCheckOrder(ctx: Context, inst: Instruction)
    requires WellFormed(inst) && inst.opcode == OpControlBarrier
    ensures var r := BarrierCheck(ctx, inst);
            var execution := ctx.validateExecutionScope(inst, inst.words[1]);
            var memory := ctx.validateMemoryScope(inst, inst.words[2]);
            && (execution.Fail? ==> r == Fail(ExecutionScopeError(execution.error)))
            && (execution.Pass? && memory.Fail? ==> r == Fail(MemoryScopeError(memory.error)))
            && (r.Fail? && r.error.Semantics? ==> execution.Pass? && memory.Pass?)
            && (execution.Pass? && memory.Pass? ==>
                  (r == Pass <==> ValidateMemorySemantics(ctx, inst, inst.words[3]) == Pass))
  {
  }

  /** OpMemoryBarrier: the memory scope is checked before the semantics. */
  lemma MemoryBarrierCheckOrder(ctx: Context, inst: Instruction)
    requires WellFormed(inst) && inst.opcode == OpMemoryBarrier
    ensures var r := BarrierCheck(ctx, inst);
            var memory := ctx.validateMemoryScope(inst, inst.words[1]);
            && (memory.Fail? ==> r == Fail(MemoryScopeError(memory.error)))
            && (memory.Pass? ==> (r == Pass <==> ValidateMemorySemantics(ctx, inst, inst.words[2]) == Pass))
            && (forall k :: r == Fail(Semantics(k)) <==> memory.Pass? && ValidateMemorySemantics(ctx, inst, inst.words[2]) == Fail(k))
  {
  }

  /** OpNamedBarrierInitialize: a wrong result type is reported before the
      Subgroup Count's type is looked at; a 32-bit integer Subgroup Count
      type with a named-barrier result type passes. */
  lemma NamedBarrierInitializeCheckOrder(ctx: Context, inst: Instruction)
    requires WellFormed(inst) && inst.opcode == OpNamedBarrierInitialize
    ensures ctx.idOpcode(inst.resultType) != OpTypeNamedBarrier ==> BarrierCheck(ctx, inst) == Fail(ResultTypeNotNamedBarrier)
    ensures var t := ctx.typeOf(inst.words[3]);
            ctx.idOpcode(inst.resultType) == OpTypeNamedBarrier ==>
              (BarrierCheck(ctx, inst) == Pass <==> ctx.isIntScalarType(t) && ctx.bitWidth(t) == 32)
    ensures BarrierCheck(ctx, inst) in {Pass, Fail(ResultTypeNotNamedBarrier), Fail(SubgroupCountNotInt32)}
  {
  }

  /** OpMemoryNamedBarrier: the type of the Named Barrier operand is checked
      before the memory scope, and the memory scope before the semantics. */
  lemma MemoryNamedBarrierCheckOrder(ctx: Context, inst: Instruction)
    requires WellFormed(inst) && inst.opcode == OpMemoryNamedBarrier
    ensures var r := BarrierCheck(ctx, inst);
            var memory := ctx.validateMemoryScope(inst, inst.words[2]);
            var namedBarrier := ctx.idOpcode(ctx.typeOf(inst.words[1])) == OpTypeNamedBarrier;
            && (!namedBarrier ==> r == Fail(NamedBarrierOperandWrongType))
            && (namedBarrier && memory.Fail? ==> r == Fail(MemoryScopeError(memory.error)))
            && (namedBarrier && memory.Pass? ==>
                  (r == Pass <==> ValidateMemorySemantics(ctx, inst, inst.words[3]) == Pass))
  {
  }

  /** Any opcode outside the barrier family passes and registers nothing. */
  lemma OtherOpcodesPass(ctx: Context, inst: Instruction)
    requires inst.opcode !in {OpControlBarrier, OpMemoryBarrier, OpNamedBarrierInitialize, OpMemoryNamedBarrier}
    ensures WellFormed(inst) && BarrierCheck(ctx, inst) == Pass && RegisteredLimitations(ctx, inst) == []
  {
  }

  /** Exactly one limitation is registered for OpControlBarrier on a target
      older than SPIR-V 1.3, none otherwise, whatever the operand checks
      report; a registered limitation accepts exactly TessellationControl,
      GLCompute, Kernel, TaskNV and MeshNV. */
  lemma ControlBarrierRegistration(ctx: Context, inst: Instruction, model: ExecutionModel)
    ensures var lims := RegisteredLimitations(ctx, inst);
            && (|lims| == 1 <==> inst.opcode == OpControlBarrier && ctx.targetVersion < 0x10300)
            && |lims| <= 1
            && (forall l | l in lims :: l.Evaluate(model) == Pass <==> model in {TessellationControl, GLCompute, Kernel, TaskNV, MeshNV})
            && (forall l | l in lims :: l.Evaluate(model).Fail? ==> l.Evaluate(model).error == ControlBarrierMessage)
  {
  }

  /** Memory Semantics 0 on OpMemoryBarrier, outside a Vulkan environment and
      with a valid memory scope, passes the whole pass. */
  lemma MemoryBarrierNonePasses(ctx: Context, inst: Instruction)
    requires WellFormed(inst) && inst.opcode == OpMemoryBarrier && !ctx.vulkanEnv
    requires ctx.validateMemoryScope(inst, inst.words[1]).Pass?
    requires IsConstantInt32(ctx, inst.words[2]) && ctx.evalInt32IfConst(inst.words[2]).value == 0
    ensures BarrierCheck(ctx, inst) == Pass
  {
    NoneSemantics(ctx, inst, inst.words[2]);
  }
}
