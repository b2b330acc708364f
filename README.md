# SPIR-V barrier validation, modelled in Dafny

This project models the barrier-instruction validation of SPIR-V Tools'
validator (`source/val/validate_barriers.cpp`):

- **`ValidateMemorySemantics`**: the check of the Memory Semantics operand.
  This operand is a 32-bit flag set, defined in section 3.25 of the SPIR-V
  specification. The check is a fixed chain of early-return rules. It reads
  the operand's constant evaluation, the Shader and VulkanMemoryModelKHR
  capabilities, the memory model, whether the target is a Vulkan
  environment, and the opcode. Only the first violated rule is reported.
- **`BarriersPass`**: the dispatch on the barrier opcodes of section
  3.32.20 of the SPIR-V specification. These are OpControlBarrier,
  OpMemoryBarrier, OpNamedBarrierInitialize and OpMemoryNamedBarrier. The
  pass runs the scope validators and the semantics check in a fixed order
  and returns the first error. For OpControlBarrier on a target older than
  SPIR-V 1.3, it first appends an execution-model limitation to the
  enclosing function.

Files:

- `spirv.dfy` (module `Spirv`): enumerant values and Memory Semantics masks.
  It also holds the ordering-bit count and the version word.
- `context.dfy` (module `ValidationContext`): the decoded instruction and the
  read-only validation context. The context's queries are values and total
  functions, so they are parameters of the model.
- `semantics.dfy` (module `MemorySemantics`): the rule chain, as the function
  `ValidateMemorySemantics`. Beside it is an independent rule table:
  `Violates` states each rule on its own, and `Rank` gives the order. Lemmas
  prove that the chain reports exactly the highest-ranked violated rule, and
  prove the individual properties of the chain.
- `barriers.dfy` (module `Barriers`): the diagnostics of the pass and the
  limitation as data (an allowed set plus a message). The `Function` class
  holds the list of limitations. `BarrierCheck` and `RegisteredLimitations`
  specify the pass. The method `BarriersPass` updates the function in place.
  A per-opcode check plan (`Plan`, `FirstFailure`) is the table that the
  dispatch is proved against.

The 32-bit operand value is a `bv32`. The masks are the values of section
3.25: Acquire 0x2, Release 0x4, AcquireRelease 0x8, SequentiallyConsistent
0x10, Uniform 0x40, Subgroup 0x80, Workgroup 0x100, CrossWorkgroup 0x200,
AtomicCounter 0x400, Image 0x800, OutputMemoryKHR 0x1000, MakeAvailableKHR
0x2000, MakeVisibleKHR 0x4000.

## Model

| member | source | states |
|---|---|---|
| Spirv.CountOrderingBits | source/val/validate_barriers.cpp:89-92 | the count of Acquire, Release, AcquireRelease and SequentiallyConsistent bits is at most 4; it is 0 exactly when no ordering bit is set; it is at most 1 exactly when the ordering bits are none or a single one of the four masks |
| Spirv.VersionWord | source/val/validate_barriers.cpp:184-185 | the version word holds the major version in its third byte, the minor version in its second byte, and 0 in its low byte |
| MemorySemantics.ReportsHighestPrecedenceViolation | source/val/validate_barriers.cpp:35-173 | the chain accepts the operand exactly when no rule of the table is violated; when it rejects, the reported rule is violated and no rule ranked before it is |
| MemorySemantics.ViolationIsReported | source/val/validate_barriers.cpp:35-173 | any violated rule makes the chain fail, with that rule or one ranked before it |
| MemorySemantics.ValidateMemorySemantics | source/val/validate_barriers.cpp:35-173 | the rule the chain reports is violated by the operand; the chain is characterised fully by ReportsHighestPrecedenceViolation and ViolationIsReported |
| MemorySemantics.Violates | source/val/validate_barriers.cpp:35-173 | the rule table, one rule at a time; every rule after the first two (not a 32-bit int, not a constant under Shader) can be violated only by a constant operand |
| MemorySemantics.RankIsInjective | source/val/validate_barriers.cpp:35-173 | `Rank`, the order in which the chain consults its rules, gives distinct rules distinct positions, so "the violated rule of lowest rank" names one rule |
| MemorySemantics.NotInt32IsReportedFirst | source/val/validate_barriers.cpp:40-46 | an operand that is not a 32-bit int gets the "not a 32-bit int" error, before any other rule |
| MemorySemantics.NonConstantOperand | source/val/validate_barriers.cpp:48-55 | a non-constant 32-bit operand passes exactly when Shader is absent; otherwise it gets the must-be-OpConstant error |
| MemorySemantics.NonConstantValueIsIgnored | source/val/validate_barriers.cpp:48-55 | no bit rule applies to a non-constant operand: any two such operands get the same verdict |
| MemorySemantics.SeqCstRejectedUnderVulkanModel | source/val/validate_barriers.cpp:57-63 | under the VulkanKHR memory model, a constant with SequentiallyConsistent set fails with the memory-model error, whatever its other bits |
| MemorySemantics.KhrBitsNeedCapability | source/val/validate_barriers.cpp:65-87 | for a constant without VulkanMemoryModelKHR, OutputMemoryKHR, MakeAvailableKHR or MakeVisibleKHR gives the capability error of the first one set, in that order, unless SequentiallyConsistent under the VulkanKHR memory model is reported first |
| MemorySemantics.MakeAvailableConflictReportsCapability | source/val/validate_barriers.cpp:65-99 | MakeAvailableKHR, Acquire and Release together, without the capability, report the capability error and not the ordering conflict, although the conflict rule is also violated |
| MemorySemantics.MultipleOrderingBitsRejected | source/val/validate_barriers.cpp:89-99 | a constant with more than one ordering bit always fails, with the conflict error or with an error ranked before it |
| MemorySemantics.UnpairedMakeBitsRejected | source/val/validate_barriers.cpp:101-117 | MakeAvailableKHR without Release or AcquireRelease fails; MakeVisibleKHR without Acquire or AcquireRelease fails |
| MemorySemantics.AcquireReleasePairsBoth | source/val/validate_barriers.cpp:101-117 | with AcquireRelease set, neither pairing error is ever reported |
| MemorySemantics.VulkanMemoryBarrierRequirements | source/val/validate_barriers.cpp:119-139 | in a Vulkan environment, OpMemoryBarrier with a constant operand fails with no ordering bit, and fails with none of Uniform, Workgroup, Image or OutputMemoryKHR (a non-constant operand without Shader passes) |
| MemorySemantics.VulkanRulesOnlyForMemoryBarrier | source/val/validate_barriers.cpp:119-149 | the two Vulkan errors are never reported outside a Vulkan environment or for any opcode other than OpMemoryBarrier; OpControlBarrier never gets them |
| MemorySemantics.MakeBitsNeedStorageClass | source/val/validate_barriers.cpp:152-168 | MakeAvailableKHR or MakeVisibleKHR without any storage-class bit fails in every environment |
| MemorySemantics.NoneSemantics | source/val/validate_barriers.cpp:119-172 | the constant 0 passes, except on OpMemoryBarrier in a Vulkan environment, where the missing-ordering error is reported |
| MemorySemantics.AcceptedConstantIsWellFormed | source/val/validate_barriers.cpp:57-172 | an accepted constant has at most one ordering bit; its KHR bits come with their capability; each Make bit has its paired ordering bit and a storage class; it has no SequentiallyConsistent under VulkanKHR; on a Vulkan OpMemoryBarrier it has an ordering bit and a Vulkan storage class |
| MemorySemantics.ConcreteValues | source/val/validate_barriers.cpp:57-172 | Acquire with UniformMemory passes; Acquire with Release fails with the conflict error; MakeAvailableKHR alone without the capability fails with the capability error |
| Barriers.ControlBarrierLimitationAccepts | source/val/validate_barriers.cpp:188-203 | specifies `ExecutionModelLimitation.Evaluate` on the registered limitation: the OpControlBarrier limitation accepts exactly TessellationControl, GLCompute, Kernel, TaskNV and MeshNV, and gives its message for any other model (Vertex is refused, GLCompute accepted) |
| Barriers.Function.RegisterExecutionModelLimitation | source/val/validate_barriers.cpp:186-203 | registration appends the limitation to the end of the function's list and keeps the earlier ones |
| Barriers.BarrierCheck | source/val/validate_barriers.cpp:178-281 | opcodes outside the barrier family pass; an execution-scope error comes only from OpControlBarrier, a memory-scope error only from the three opcodes with a memory scope, the result-type and Subgroup Count errors only from OpNamedBarrierInitialize, the named-barrier type error only from OpMemoryNamedBarrier; a Memory Semantics error is the semantics verdict on the opcode's last operand word; DispatchFollowsPlan and ReportsFirstFailingCheck give the full order |
| Barriers.RegisteredLimitations | source/val/validate_barriers.cpp:183-204 | at most one limitation is registered, it is the OpControlBarrier limitation, and one is registered exactly for OpControlBarrier on a target whose version word is below 0x10300 (SPIR-V 1.3) |
| Barriers.BarriersPass | source/val/validate_barriers.cpp:178-281 | returns the verdict `BarrierCheck` specifies; the function's new limitation list is the old list followed by `RegisteredLimitations`, whatever the verdict |
| Barriers.Plan | source/val/validate_barriers.cpp:206-264 | every check planned for an opcode reads only words that a well-formed instruction of that opcode has |
| Barriers.FirstFailure | source/val/validate_barriers.cpp:206-273 | the result passes exactly when every check passes; a failure is the verdict of some check all of whose predecessors pass |
| Barriers.DispatchFollowsPlan | source/val/validate_barriers.cpp:182-280 | the dispatch's verdict equals the first failing check of the opcode's plan |
| Barriers.ReportsFirstFailingCheck | source/val/validate_barriers.cpp:182-280 | an instruction passes exactly when every planned check passes; otherwise the first failing planned check is reported |
| Barriers.ControlBarrierCheckOrder | source/val/validate_barriers.cpp:206-220 | OpControlBarrier checks the execution scope (word 1), then the memory scope (word 2), then the semantics (word 3); the first error wins, and a semantics error means both scopes passed |
| Barriers.MemoryBarrierCheckOrder | source/val/validate_barriers.cpp:224-235 | OpMemoryBarrier checks the memory scope (word 1) before the semantics (word 2); a semantics error is reported exactly when the scope passes and the semantics fail |
| Barriers.NamedBarrierInitializeCheckOrder | source/val/validate_barriers.cpp:238-252 | a result type that is not OpTypeNamedBarrier is reported before the Subgroup Count's type is looked at; otherwise the instruction passes exactly when that type is a 32-bit integer scalar |
| Barriers.MemoryNamedBarrierCheckOrder | source/val/validate_barriers.cpp:255-273 | the operand-0 type check comes before the memory scope (word 2), and the memory scope before the semantics (word 3) |
| Barriers.OtherOpcodesPass | source/val/validate_barriers.cpp:276-280 | any other opcode passes and registers nothing |
| Barriers.ControlBarrierRegistration | source/val/validate_barriers.cpp:183-204 | exactly one limitation is registered, for OpControlBarrier on a target below version 1.3, and none otherwise, whatever the operand checks report; it accepts exactly the five models and gives its message for any other |
| Barriers.MemoryBarrierNonePasses | source/val/validate_barriers.cpp:224-235 | OpMemoryBarrier with a valid memory scope and constant semantics 0 passes outside a Vulkan environment |

## Left out

- Diagnostic text and streaming: errors are kinds (`SemanticsError`, `BarrierError`). The message and the opcode name are not modelled. The one exception is the limitation's message, which is data.
- ValidateExecutionScope and ValidateMemoryScope: validate_scopes.cpp is not part of this model. They are the context functions `validateExecutionScope` and `validateMemoryScope`, which return a scope diagnostic or success. They are assumed to have no side effects, in particular to register nothing on the enclosing function; `BarriersPass`'s statement of the new limitation list rests on that assumption.
- The ValidationState_t lookups (EvalInt32IfConst, GetIdOpcode, GetOperandTypeId, IsIntScalarType, GetBitWidth, HasCapability, memory_model) are fields of the immutable `Context`. So are spvIsVulkanEnv and spvVersionForTargetEnv, as `vulkanEnv` and `targetVersion`. Their own tables and type tracking are not modelled.
- `_.function(inst->function()->id())`: the lookup of the enclosing function is not modelled. The caller passes that `Function` object, and the id it carries must be the instruction's.
- Finalization: the later pass that walks the execution models reaching each function and evaluates its limitations is not part of this model. Only what a limitation accepts (`Evaluate`) is modelled.
- The OpControlBarrier storage-class check at lines 141-149 is compiled out (`#if 0`). It is not modelled as behaviour. `VulkanRulesOnlyForMemoryBarrier` proves that OpControlBarrier never gets a Vulkan storage-class error.
- utils::CountSetBits is modelled as a popcount over the four ordering masks only, which is the only way the pass uses it.
- Instruction word access past the end: the source relies on the binary parser's word counts. The model requires them (`WellFormed`, from `MinWordCount`) instead of modelling an out-of-range read. `MinWordCount` stands for the parser's guarantee and is kept apart from the check plan, so that `Plan`'s contract proves that the plan reads only words the guarantee covers.
- The limitation's message names only TessellationControl, GLCompute and Kernel, although TaskNV and MeshNV are accepted too. The model keeps the message as written.
