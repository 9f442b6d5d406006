/**
 * The two records the simulator works on. Both are plain value records in
 * the original program, stored in arrays that the algorithms update in place.
 */
module Records {

  /** A process of the scheduling scenario. The four inputs come first; the
      other four are written by the schedulers. `priority` is carried along
      but no algorithm reads it. */
  datatype Process = Process(
    pid: int,
    arrivalTime: int,
    burstTime: int,
    priority: int,
    remainingTime: int,
    completionTime: int,
    waitingTime: int,
    turnaroundTime: int)

  /** A memory block of the allocation scenario: a fixed capacity and the
      number (1-based) of the request it was bound to, meaningful only when
      `isAllocated` holds. */
  datatype MemoryBlock = MemoryBlock(
    id: int,
    size: int,
    allocatedProcess: int,
    isAllocated: bool)

  datatype Option<+T> = None | Some(value: T)

  function Max(a: int, b: int): int {
    if a < b then b else a
  }

  function Min(a: int, b: int): int {
    if a < b then a else b
  }
}
