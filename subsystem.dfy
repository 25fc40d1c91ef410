/**
 * cgroups/subsystems/subsystem.go: the resource settings handed to every
 * subsystem, and the fixed chain of subsystems a container is run through.
 */
module Subsystems {

  /**
   * ResourceConfig: three independent settings, passed by value, so no
   * subsystem can change what the next one sees. "" means "do not constrain".
   */
  datatype ResourceConfig = ResourceConfig(memoryLimit: string, cpuShare: string, cpuSet: string)

  /**
   * The implementations of the Subsystem interface (Name, Set, Apply,
   * Remove). Only the memory one is modelled (Memory.MemorySubSystem);
   * the cpuset and cpu implementations appear here as tags only.
   */
  datatype SubsystemKind = CpusetSubSystem | MemorySubSystem | CpuSubSystem

  /** SubsystemsIns: every subsystem exactly once, in the order cpuset, memory, cpu. */
  function SubsystemsIns(): (chain: seq<SubsystemKind>)
    ensures |chain| == 3
    ensures chain[0] == CpusetSubSystem && chain[1] == MemorySubSystem && chain[2] == CpuSubSystem
    ensures forall i, j :: 0 <= i < j < |chain| ==> chain[i] != chain[j]
  {
    [CpusetSubSystem, MemorySubSystem, CpuSubSystem]
  }
}
