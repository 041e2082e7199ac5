/** The loop of trapExceptionHandler over the printer and terminal mutexes, and initSysStructs.
    Each mutex is used as module SwapMutex describes. */
module Traps {
  import opened BinarySemaphore
  import SwapMutex

  const DEVICES: nat := 8
  const NOPROC: int := SwapMutex.NOPROC

  datatype Semaphore = Semaphore(cell: Cell, owner: int)  // semaphore_t and its queue

  const FREE: Semaphore := Semaphore(Cell(1, []), NOPROC)

  /** What the dying process does to one mutex. */
  function Released(x: Semaphore, asid: int, caller: nat): Semaphore {
    if x.owner == asid then Semaphore(Call(x.cell, OpV, caller), NOPROC) else x
  }

  class DeviceMutexes {
    var printer: seq<Semaphore>
    var terminal: seq<Semaphore>

    /** initSysStructs. */
    method InitSysStructs()
      requires |printer| == |terminal| == DEVICES
      modifies this
      ensures |printer| == |terminal| == DEVICES
      ensures forall i :: 0 <= i < DEVICES ==> printer[i] == terminal[i] == FREE
    {
      for i := 0 to DEVICES
        invariant |printer| == |terminal| == DEVICES
        invariant forall j :: 0 <= j < i ==> printer[j] == terminal[j] == FREE
      {
        printer := printer[i := FREE];
        terminal := terminal[i := FREE];
      }
    }

    /** The wrapper V on a printer mutex, and on a terminal mutex. */
    method VPrinter(i: nat, caller: nat)
      requires i < |printer|
      modifies `printer
      ensures printer == old(printer)[i := Semaphore(Call(old(printer[i]).cell, OpV, caller), NOPROC)]
    {
      printer := printer[i := printer[i].(owner := NOPROC)];
      printer := printer[i := printer[i].(cell := Call(printer[i].cell, OpV, caller))];
    }

    method VTerminal(i: nat, caller: nat)
      requires i < |terminal|
      modifies `terminal
      ensures terminal == old(terminal)[i := Semaphore(Call(old(terminal[i]).cell, OpV, caller), NOPROC)]
    {
      terminal := terminal[i := terminal[i].(owner := NOPROC)];
      terminal := terminal[i := terminal[i].(cell := Call(terminal[i].cell, OpV, caller))];
    }

    /** trapExceptionHandler up to releaseSwapPoolSem. */
    method ReleaseHeld(asid: int, caller: nat)
      requires |printer| == |terminal| == DEVICES
      modifies this
      ensures |printer| == |terminal| == DEVICES
      ensures forall i :: 0 <= i < DEVICES ==>
        printer[i] == Released(old(printer[i]), asid, caller) && terminal[i] == Released(old(terminal[i]), asid, caller)
    {
      for i := 0 to DEVICES
        invariant |printer| == |terminal| == DEVICES
        invariant forall j :: 0 <= j < i ==>
          printer[j] == Released(old(printer[j]), asid, caller)
          && terminal[j] == Released(old(terminal[j]), asid, caller)
        invariant forall j :: i <= j < DEVICES ==> printer[j] == old(printer[j]) && terminal[j] == old(terminal[j])
      {
        if printer[i].owner == asid { VPrinter(i, caller); }
        if terminal[i].owner == asid { VTerminal(i, caller); }
      }
    }
  }

  /** In a state the protocol of SwapMutex reaches, the V of the release does not block, no process
      that has released is left as owner, and the first of those who wait gets the mutex. */
  lemma ReleaseHandsOver(m: SwapMutex.Mutex, asid: nat, caller: nat)
    requires SwapMutex.Inv(m)
    ensures var x := Semaphore(m.cell, m.owner);
      var y := Released(x, asid, caller);
      && y.owner != asid
      && (m.owner != asid ==> y == x)
      && (m.owner == asid ==>
            && asid in m.pc && SwapMutex.Inside(m.pc[asid]) && !Blocks(m.cell, OpV)
            && y == if m.cell.queue == [] then FREE else Semaphore(Cell(0, m.cell.queue[1..]), NOPROC))
  {
    if m.owner == asid {
      assert SwapMutex.Marked(m.pc[asid]);
    }
  }

  /** The same along every run of the protocol, with other processes in every window: from the test
      of the trap path on, a process that has released, or had nothing to release, is not the owner. */
  lemma NotOwnerAfterRelease(s: SwapMutex.Mutex, es: seq<SwapMutex.Event>, asid: nat)
    requires SwapMutex.Boot(s) && SwapMutex.IsRun(s, es) && asid in SwapMutex.Exec(s, es).pc
    requires SwapMutex.Exec(s, es).pc[asid] == SwapMutex.Cleared(SwapMutex.Undo)
          || SwapMutex.Exec(s, es).pc[asid] == SwapMutex.Asking(SwapMutex.ForDeath)
    ensures SwapMutex.Exec(s, es).owner != asid
    ensures SwapMutex.Exec(s, es).pc[asid].Cleared? ==> !Blocks(SwapMutex.Exec(s, es).cell, OpV)
  {
    SwapMutex.RunKeeps(s, es);
  }
}
