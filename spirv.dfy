/** Enumerant values of the SPIR-V specification that the barrier validator
    refers to: opcodes (section 3.32), execution models (section 3.3),
    memory models (section 3.5), Memory Semantics masks (section 3.25) and
    capabilities (section 3.31). */
module Spirv {

  /** A 32-bit word of the instruction stream. */
  newtype Word = x: int | 0 <= x < 0x1_0000_0000

  /** A result id. */
  type Id = Word

  /** The 16-bit opcode held in the low half of an instruction's first word. */
  newtype Opcode = x: int | 0 <= x < 0x1_0000

  newtype ExecutionModel = x: int | 0 <= x < 0x1_0000_0000
  newtype MemoryModel = x: int | 0 <= x < 0x1_0000_0000
  newtype Capability = x: int | 0 <= x < 0x1_0000_0000

  // Opcodes (section 3.32.20 for the barrier instructions).
  const OpTypeNamedBarrier: Opcode := 327
  const OpControlBarrier: Opcode := 224
  const OpMemoryBarrier: Opcode := 225
  const OpNamedBarrierInitialize: Opcode := 328
  const OpMemoryNamedBarrier: Opcode := 329

  // Execution models the barrier validator names.
  const Vertex: ExecutionModel := 0
  const TessellationControl: ExecutionModel := 1
  const GLCompute: ExecutionModel := 5
  const Kernel: ExecutionModel := 6
  const TaskNV: ExecutionModel := 5267
  const MeshNV: ExecutionModel := 5268

  // Memory models the barrier validator names.
  const VulkanKHR: MemoryModel := 3

  // Capabilities.
  const Shader: Capability := 1
  const VulkanMemoryModelKHR: Capability := 5345

  // Memory Semantics masks.
  const Acquire: bv32 := 0x2
  const Release: bv32 := 0x4
  const AcquireRelease: bv32 := 0x8
  const SequentiallyConsistent: bv32 := 0x10
  const UniformMemory: bv32 := 0x40
  const SubgroupMemory: bv32 := 0x80
  const WorkgroupMemory: bv32 := 0x100
  const CrossWorkgroupMemory: bv32 := 0x200
  const AtomicCounterMemory: bv32 := 0x400
  const ImageMemory: bv32 := 0x800
  const OutputMemoryKHR: bv32 := 0x1000
  const MakeAvailableKHR: bv32 := 0x2000
  const MakeVisibleKHR: bv32 := 0x4000

  /** The ordering axis: at most one of these may be set. */
  const OrderingMask: bv32 := Acquire | Release | AcquireRelease | SequentiallyConsistent

  /** Every storage-class bit. */
  const StorageClassMask: bv32 :=
    UniformMemory | SubgroupMemory | WorkgroupMemory | CrossWorkgroupMemory
    | AtomicCounterMemory | ImageMemory | OutputMemoryKHR

  /** The storage classes a Vulkan environment supports on a memory barrier. */
  const VulkanStorageClassMask: bv32 := UniformMemory | WorkgroupMemory | ImageMemory | OutputMemoryKHR

  /** True when any bit of `mask` is set in `value`. */
  predicate HasAny(value: bv32, mask: bv32) {
    value & mask != 0
  }

  /** The version word of SPIR-V `major`.`minor`: 0 | major | minor | 0, one byte each. */
  function VersionWord(major: nat, minor: nat): (w: nat)
    requires major < 0x100 && minor < 0x100
    ensures w / 0x10000 == major && (w / 0x100) % 0x100 == minor && w % 0x100 == 0
  {
    major * 0x10000 + minor * 0x100
  }

  /** Number of ordering-axis bits set in `value` (a popcount restricted to
      Acquire, Release, AcquireRelease and SequentiallyConsistent). */
  function CountOrderingBits(value: bv32): (n: nat)
    ensures n <= 4
    ensures n == 0 <==> value & OrderingMask == 0
    ensures n <= 1 <==> value & OrderingMask in {0, Acquire, Release, AcquireRelease, SequentiallyConsistent}
  {
    (if HasAny(value, Acquire) then 1 else 0)
    + (if HasAny(value, Release) then 1 else 0)
    + (if HasAny(value, AcquireRelease) then 1 else 0)
    + (if HasAny(value, SequentiallyConsistent) then 1 else 0)
  }
}
