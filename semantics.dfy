/** The Memory Semantics operand validator of validate_barriers.cpp: a fixed
    chain of early-return rules over one 32-bit flag set, and the same rules
    as a precedence table, with the properties the chain promises. */
module MemorySemantics {
  import opened Spirv
  import opened ValidationContext

  /** One kind of diagnostic per rule of the chain. */
  datatype SemanticsError =
    | NotInt32                        // the operand is not a 32-bit int
    | NotConstantUnderShader          // not an OpConstant while Shader is declared
    | SeqCstWithVulkanModel           // SequentiallyConsistent under the VulkanKHR memory model
    | OutputMemoryNeedsCapability     // OutputMemoryKHR without VulkanMemoryModelKHR
    | MakeAvailableNeedsCapability    // MakeAvailableKHR without VulkanMemoryModelKHR
    | MakeVisibleNeedsCapability      // MakeVisibleKHR without VulkanMemoryModelKHR
    | MultipleOrderingBits            // more than one ordering bit
    | MakeAvailableNeedsRelease       // MakeAvailableKHR without Release or AcquireRelease
    | MakeVisibleNeedsAcquire         // MakeVisibleKHR without Acquire or AcquireRelease
    | VulkanBarrierNeedsOrdering      // Vulkan OpMemoryBarrier without an ordering bit
    | VulkanBarrierNeedsStorageClass  // Vulkan OpMemoryBarrier without a Vulkan storage class
    | NeedsStorageClass               // MakeAvailableKHR or MakeVisibleKHR without a storage class

  /** Validates the Memory Semantics operand `id` of `inst`. Only the first
      violated rule is reported. A non-constant operand is checked only
      against the Shader capability. The storage-class check for
      OpControlBarrier in Vulkan environments is disabled in the source and
      is not part of this chain. */
  function ValidateMemorySemantics(ctx: Context, inst: Instruction, id: Id): (r: Outcome<SemanticsError>)
    ensures r.Fail? ==> Violates(ctx, inst.opcode, ctx.evalInt32IfConst(id), r.error)
  {
    var e := ctx.evalInt32IfConst(id);
    var value := e.value;
    if !e.isInt32 then Fail(NotInt32)
    else if !e.isConstInt32 then
      (if ctx.HasCapability(Shader) then Fail(NotConstantUnderShader) else Pass)
    else if ctx.memoryModel == VulkanKHR && HasAny(value, SequentiallyConsistent) then
      Fail(SeqCstWithVulkanModel)
    else if HasAny(value, OutputMemoryKHR) && !ctx.HasCapability(VulkanMemoryModelKHR) then
      Fail(OutputMemoryNeedsCapability)
    else if HasAny(value, MakeAvailableKHR) && !ctx.HasCapability(VulkanMemoryModelKHR) then
      Fail(MakeAvailableNeedsCapability)
    else if HasAny(value, MakeVisibleKHR) && !ctx.HasCapability(VulkanMemoryModelKHR) then
      Fail(MakeVisibleNeedsCapability)
    else
      var orderingBits := CountOrderingBits(value);
      if orderingBits > 1 then Fail(MultipleOrderingBits)
      else if HasAny(value, MakeAvailableKHR) && !HasAny(value, Release | AcquireRelease) then
        Fail(MakeAvailableNeedsRelease)
      else if HasAny(value, MakeVisibleKHR) && !HasAny(value, Acquire | AcquireRelease) then
        Fail(MakeVisibleNeedsAcquire)
      else if ctx.vulkanEnv && inst.opcode == OpMemoryBarrier && orderingBits == 0 then
        Fail(VulkanBarrierNeedsOrdering)
      else if ctx.vulkanEnv && inst.opcode == OpMemoryBarrier && !HasAny(value, VulkanStorageClassMask) then
        Fail(VulkanBarrierNeedsStorageClass)
      else if HasAny(value, MakeAvailableKHR | MakeVisibleKHR) && !HasAny(value, StorageClassMask) then
        Fail(NeedsStorageClass)
      else Pass
  }

  // ---------------------------------------------------------------------
  // The same rules as a table: each rule stated on its own, and an order.
  // ---------------------------------------------------------------------

  /** True when the operand described by `e`, on an instruction with `opcode`,
      breaks `rule` taken by itself. Every rule past the second concerns
      constant operands only. */
  predicate Violates(ctx: Context, opcode: Opcode, e: ConstEval, rule: SemanticsError)
    ensures Violates(ctx, opcode, e, rule) && Rank(rule) >= 2 ==> e.isConstInt32
  {
    var v := e.value;
    var vmm := ctx.HasCapability(VulkanMemoryModelKHR);
    var constant := e.isConstInt32;
    var vulkanMemoryBarrier := ctx.vulkanEnv && opcode == OpMemoryBarrier;
    match rule
    case NotInt32 => !e.isInt32
    case NotConstantUnderShader => !constant && ctx.HasCapability(Shader)
    case SeqCstWithVulkanModel => constant && ctx.memoryModel == VulkanKHR && HasAny(v, SequentiallyConsistent)
    case OutputMemoryNeedsCapability => constant && !vmm && HasAny(v, OutputMemoryKHR)
    case MakeAvailableNeedsCapability => constant && !vmm && HasAny(v, MakeAvailableKHR)
    case MakeVisibleNeedsCapability => constant && !vmm && HasAny(v, MakeVisibleKHR)
    case MultipleOrderingBits => constant && CountOrderingBits(v) > 1
    case MakeAvailableNeedsRelease => constant && HasAny(v, MakeAvailableKHR) && !HasAny(v, Release | AcquireRelease)
    case MakeVisibleNeedsAcquire => constant && HasAny(v, MakeVisibleKHR) && !HasAny(v, Acquire | AcquireRelease)
    case VulkanBarrierNeedsOrdering => constant && vulkanMemoryBarrier && !HasAny(v, OrderingMask)
    case VulkanBarrierNeedsStorageClass => constant && vulkanMemoryBarrier && !HasAny(v, VulkanStorageClassMask)
    case NeedsStorageClass => constant && HasAny(v, MakeAvailableKHR | MakeVisibleKHR) && !HasAny(v, StorageClassMask)
  }

  /** The position of each rule in the order the chain consults them. */
  function Rank(rule: SemanticsError): (n: nat)
  {
    match rule
    case NotInt32 => 0
    case NotConstantUnderShader => 1
    case SeqCstWithVulkanModel => 2
    case OutputMemoryNeedsCapability => 3
    case MakeAvailableNeedsCapability => 4
    case MakeVisibleNeedsCapability => 5
    case MultipleOrderingBits => 6
    case MakeAvailableNeedsRelease => 7
    case MakeVisibleNeedsAcquire => 8
    case VulkanBarrierNeedsOrdering => 9
    case VulkanBarrierNeedsStorageClass => 10
    case NeedsStorageClass => 11
  }

  /** The order is strict: no two rules share a rank. */
  lemma RankIsInjective(a: SemanticsError, b: SemanticsError)
    ensures Rank(a) == Rank(b) ==> a == b
  {
  }

  /** A violated rule makes the chain fail, at that rule or at one ranked
      before it. */
  lemma ViolationIsReported(ctx: Context, inst: Instruction, id: Id, rule: SemanticsError)
    requires Violates(ctx, inst.opcode, ctx.evalInt32IfConst(id), rule)
    ensures ValidateMemorySemantics(ctx, inst, id).Fail?
    ensures Rank(ValidateMemorySemantics(ctx, inst, id).error) <= Rank(rule)
  {
    var r := ValidateMemorySemantics(ctx, inst, id);
    match rule
    case NotInt32 => assert r.Fail? && Rank(r.error) <= 0;
    case NotConstantUnderShader => assert r.Fail? && Rank(r.error) <= 1;
    case SeqCstWithVulkanModel => assert r.Fail? && Rank(r.error) <= 2;
    case OutputMemoryNeedsCapability => assert r.Fail? && Rank(r.error) <= 3;
    case MakeAvailableNeedsCapability => assert r.Fail? && Rank(r.error) <= 4;
    case MakeVisibleNeedsCapability => assert r.Fail? && Rank(r.error) <= 5;
    case MultipleOrderingBits => assert r.Fail? && Rank(r.error) <= 6;
    case MakeAvailableNeedsRelease => assert r.Fail? && Rank(r.error) <= 7;
    case MakeVisibleNeedsAcquire => assert r.Fail? && Rank(r.error) <= 8;
    case VulkanBarrierNeedsOrdering => assert r.Fail? && Rank(r.error) <= 9;
    case VulkanBarrierNeedsStorageClass => assert r.Fail? && Rank(r.error) <= 10;
    case NeedsStorageClass => assert r.Fail? && Rank(r.error) <= 11;
  }

  /** The chain agrees with the rule table: the operand is accepted exactly
      when it violates no rule; when it is rejected, the reported rule is
      violated and no rule ranked before it is. */
  lemma ReportsHighestPrecedenceViolation(ctx: Context, inst: Instruction, id: Id)
    ensures var r := ValidateMemorySemantics(ctx, inst, id);
            var e := ctx.evalInt32IfConst(id);
            && (r == Pass <==> forall rule :: !Violates(ctx, inst.opcode, e, rule))
            && (r.Fail? ==> Violates(ctx, inst.opcode, e, r.error))
            && (r.Fail? ==> forall rule | Rank(rule) < Rank(r.error) :: !Violates(ctx, inst.opcode, e, rule))
  {
    var r := ValidateMemorySemantics(ctx, inst, id);
    if r == Pass {
      forall rule ensures !Violates(ctx, inst.opcode, ctx.evalInt32IfConst(id), rule) {
        if Violates(ctx, inst.opcode, ctx.evalInt32IfConst(id), rule) {
          ViolationIsReported(ctx, inst, id, rule);
        }
      }
    } else {
      forall rule ensures Rank(rule) < Rank(r.error) ==> !Violates(ctx, inst.opcode, ctx.evalInt32IfConst(id), rule) {
        if Violates(ctx, inst.opcode, ctx.evalInt32IfConst(id), rule) {
          ViolationIsReported(ctx, inst, id, rule);
        }
      }
    }
  }

  // ---------------------------------------------------------------------
  // Properties of the chain.
  // ---------------------------------------------------------------------

  /** The operand `id` is a 32-bit integer constant. */
  predicate IsConstantInt32(ctx: Context, id: Id) {
    ctx.evalInt32IfConst(id).isInt32 && ctx.evalInt32IfConst(id).isConstInt32
  }

  /** An operand that is not a 32-bit int is rejected for that reason, before
      any other rule is looked at. */
  lemma NotInt32IsReportedFirst(ctx: Context, inst: Instruction, id: Id)
    requires !ctx.evalInt32IfConst(id).isInt32
    ensures ValidateMemorySemantics(ctx, inst, id) == Fail(NotInt32)
  {
  }

  /** A non-constant 32-bit operand is accepted exactly when the Shader
      capability is absent, and otherwise rejected as non-constant. */
  lemma NonConstantOperand(ctx: Context, inst: Instruction, id: Id)
    requires ctx.evalInt32IfConst(id).isInt32 && !ctx.evalInt32IfConst(id).isConstInt32
    ensures ValidateMemorySemantics(ctx, inst, id) == Pass <==> !ctx.HasCapability(Shader)
    ensures ValidateMemorySemantics(ctx, inst, id) != Pass ==>
              ValidateMemorySemantics(ctx, inst, id) == Fail(NotConstantUnderShader)
  {
  }

  /** No bit rule applies to a non-constant operand: two non-constant
      operands of the same instruction get the same verdict whatever
      values their evaluation carries. */
  lemma NonConstantValueIsIgnored(ctx: Context, inst: Instruction, id1: Id, id2: Id)
    requires ctx.evalInt32IfConst(id1).isInt32 && !ctx.evalInt32IfConst(id1).isConstInt32
    requires ctx.evalInt32IfConst(id2).isInt32 && !ctx.evalInt32IfConst(id2).isConstInt32
    ensures ValidateMemorySemantics(ctx, inst, id1) == ValidateMemorySemantics(ctx, inst, id2)
  {
  }

  /** Under the VulkanKHR memory model a constant with SequentiallyConsistent
      set is rejected for that reason, whatever its other bits. */
  lemma SeqCstRejectedUnderVulkanModel(ctx: Context, inst: Instruction, id: Id)
    requires IsConstantInt32(ctx, id)
    requires ctx.memoryModel == VulkanKHR && HasAny(ctx.evalInt32IfConst(id).value, SequentiallyConsistent)
    ensures ValidateMemorySemantics(ctx, inst, id) == Fail(SeqCstWithVulkanModel)
  {
  }

  /** Without the VulkanMemoryModelKHR capability, a constant carrying
      OutputMemoryKHR, MakeAvailableKHR or MakeVisibleKHR is rejected with the
      capability error of the first of them in that order, before the
      ordering bits are counted. */
  lemma KhrBitsNeedCapability(ctx: Context, inst: Instruction, id: Id)
    requires IsConstantInt32(ctx, id) && !ctx.HasCapability(VulkanMemoryModelKHR)
    requires !Violates(ctx, inst.opcode, ctx.evalInt32IfConst(id), SeqCstWithVulkanModel)
    requires HasAny(ctx.evalInt32IfConst(id).value, OutputMemoryKHR | MakeAvailableKHR | MakeVisibleKHR)
    ensures var v := ctx.evalInt32IfConst(id).value;
            ValidateMemorySemantics(ctx, inst, id)
            == Fail(if HasAny(v, OutputMemoryKHR) then OutputMemoryNeedsCapability
                    else if HasAny(v, MakeAvailableKHR) then MakeAvailableNeedsCapability
                    else MakeVisibleNeedsCapability)
  {
  }

  /** MakeAvailableKHR | Acquire | Release without the VulkanMemoryModelKHR
      capability reports the capability error, not the ordering conflict. */
  lemma MakeAvailableConflictReportsCapability(ctx: Context, inst: Instruction, id: Id)
    requires IsConstantInt32(ctx, id) && !ctx.HasCapability(VulkanMemoryModelKHR)
    requires ctx.evalInt32IfConst(id).value == MakeAvailableKHR | Acquire | Release
    ensures ValidateMemorySemantics(ctx, inst, id) == Fail(MakeAvailableNeedsCapability)
    ensures Violates(ctx, inst.opcode, ctx.evalInt32IfConst(id), MultipleOrderingBits)
  {
  }

  /** A constant with more than one ordering bit is always rejected: with
      the ordering conflict, or with a rule that comes before it. */
  lemma MultipleOrderingBitsRejected(ctx: Context, inst: Instruction, id: Id)
    requires IsConstantInt32(ctx, id) && CountOrderingBits(ctx.evalInt32IfConst(id).value) > 1
    ensures ValidateMemorySemantics(ctx, inst, id).Fail?
    ensures Rank(ValidateMemorySemantics(ctx, inst, id).error) <= Rank(MultipleOrderingBits)
  {
    ReportsHighestPrecedenceViolation(ctx, inst, id);
  }

  /** MakeAvailableKHR without Release or AcquireRelease, and MakeVisibleKHR
      without Acquire or AcquireRelease, are always rejected. */
  lemma UnpairedMakeBitsRejected(ctx: Context, inst: Instruction, id: Id)
    requires IsConstantInt32(ctx, id)
    requires var v := ctx.evalInt32IfConst(id).value;
             || (HasAny(v, MakeAvailableKHR) && !HasAny(v, Release | AcquireRelease))
             || (HasAny(v, MakeVisibleKHR) && !HasAny(v, Acquire | AcquireRelease))
    ensures ValidateMemorySemantics(ctx, inst, id).Fail?
  {
    ReportsHighestPrecedenceViolation(ctx, inst, id);
  }

  /** AcquireRelease satisfies the pairing requirement of both MakeAvailableKHR
      and MakeVisibleKHR. */
  lemma AcquireReleasePairsBoth(ctx: Context, inst: Instruction, id: Id)
    requires HasAny(ctx.evalInt32IfConst(id).value, AcquireRelease)
    ensures ValidateMemorySemantics(ctx, inst, id) != Fail(MakeAvailableNeedsRelease)
    ensures ValidateMemorySemantics(ctx, inst, id) != Fail(MakeVisibleNeedsAcquire)
  {
    ReportsHighestPrecedenceViolation(ctx, inst, id);
  }

  /** In a Vulkan environment a constant on OpMemoryBarrier is rejected when
      it has no ordering bit, and when it has none of the storage classes
      Uniform, Workgroup, Image or OutputMemoryKHR. */
  lemma VulkanMemoryBarrierRequirements(ctx: Context, inst: Instruction, id: Id)
    requires IsConstantInt32(ctx, id) && ctx.vulkanEnv && inst.opcode == OpMemoryBarrier
    requires var v := ctx.evalInt32IfConst(id).value;
             !HasAny(v, OrderingMask) || !HasAny(v, VulkanStorageClassMask)
    ensures ValidateMemorySemantics(ctx, inst, id).Fail?
  {
    ReportsHighestPrecedenceViolation(ctx, inst, id);
  }

  /** The Vulkan ordering and storage-class requirements are made only of
      OpMemoryBarrier in a Vulkan environment; in particular OpControlBarrier
      is never rejected by them. */
  lemma VulkanRulesOnlyForMemoryBarrier(ctx: Context, inst: Instruction, id: Id)
    requires !ctx.vulkanEnv || inst.opcode != OpMemoryBarrier
    ensures ValidateMemorySemantics(ctx, inst, id) != Fail(VulkanBarrierNeedsOrdering)
    ensures ValidateMemorySemantics(ctx, inst, id) != Fail(VulkanBarrierNeedsStorageClass)
  {
  }

  /** MakeAvailableKHR or MakeVisibleKHR without any storage-class bit is
      rejected in every environment. */
  lemma MakeBitsNeedStorageClass(ctx: Context, inst: Instruction, id: Id)
    requires IsConstantInt32(ctx, id)
    requires var v := ctx.evalInt32IfConst(id).value;
             HasAny(v, MakeAvailableKHR | MakeVisibleKHR) && !HasAny(v, StorageClassMask)
    ensures ValidateMemorySemantics(ctx, inst, id).Fail?
  {
    ReportsHighestPrecedenceViolation(ctx, inst, id);
  }

  /** The constant 0 (None) passes, except on OpMemoryBarrier in a Vulkan
      environment, where the missing ordering bit is reported. */
  lemma NoneSemantics(ctx: Context, inst: Instruction, id: Id)
    requires IsConstantInt32(ctx, id) && ctx.evalInt32IfConst(id).value == 0
    ensures ValidateMemorySemantics(ctx, inst, id)
            == if ctx.vulkanEnv && inst.opcode == OpMemoryBarrier then Fail(VulkanBarrierNeedsOrdering) else Pass
  {
  }

  /** What an accepted constant satisfies: at most one ordering bit, the KHR
      bits only with their capability, each Make bit with its paired ordering
      bit and a storage class, and no SequentiallyConsistent under VulkanKHR. */
  lemma AcceptedConstantIsWellFormed(ctx: Context, inst: Instruction, id: Id)
    requires IsConstantInt32(ctx, id) && ValidateMemorySemantics(ctx, inst, id) == Pass
    ensures var v := ctx.evalInt32IfConst(id).value;
            && CountOrderingBits(v) <= 1
            && (ctx.memoryModel == VulkanKHR ==> !HasAny(v, SequentiallyConsistent))
            && (HasAny(v, OutputMemoryKHR | MakeAvailableKHR | MakeVisibleKHR) ==> ctx.HasCapability(VulkanMemoryModelKHR))
            && (HasAny(v, MakeAvailableKHR) ==> HasAny(v, Release | AcquireRelease))
            && (HasAny(v, MakeVisibleKHR) ==> HasAny(v, Acquire | AcquireRelease))
            && (HasAny(v, MakeAvailableKHR | MakeVisibleKHR) ==> HasAny(v, StorageClassMask))
            && (ctx.vulkanEnv && inst.opcode == OpMemoryBarrier ==>
                  HasAny(v, OrderingMask) && HasAny(v, VulkanStorageClassMask))
  {
    ReportsHighestPrecedenceViolation(ctx, inst, id);
  }

  /** Acquire | UniformMemory passes; Acquire | Release is rejected as an
      ordering conflict; MakeAvailableKHR alone, without the
      VulkanMemoryModelKHR capability, is rejected for the capability. */
  lemma ConcreteValues(ctx: Context, inst: Instruction, id: Id)
    requires IsConstantInt32(ctx, id)
    ensures var v := ctx.evalInt32IfConst(id).value;
            && (v == Acquire | UniformMemory ==> ValidateMemorySemantics(ctx, inst, id) == Pass)
            && (v == Acquire | Release ==> ValidateMemorySemantics(ctx, inst, id) == Fail(MultipleOrderingBits))
            && (v == MakeAvailableKHR && !ctx.HasCapability(VulkanMemoryModelKHR) ==>
                  ValidateMemorySemantics(ctx, inst, id) == Fail(MakeAvailableNeedsCapability))
  {
  }
}
