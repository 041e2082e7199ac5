/** From the address of a command field to the semaphore of the device: getIODeviceSemaphore of
    phase2/initial.c.  The register layout is that of uMPS3: lines 3 to 7 with eight registers of
    16 bytes each, line 7 the terminals, which have two command fields. */
module Devices {
  const DEV_REG_START: nat := 0x10000054
  const DEV_REG_SIZE: nat := 0x10
  const TERM0ADDR: nat := 0x10000254
  const PER_LINE: nat := 8
  const DEVICES: nat := 48

  datatype Field = Command(line: nat, device: nat) | Receive(device: nat) | Transmit(device: nat)

  predicate Exists(x: Field) {
    x.device < PER_LINE && (x.Command? ==> 3 <= x.line < 7)
  }

  function Register(line: nat, device: nat): nat
    requires 3 <= line
  {
    DEV_REG_START + ((line - 3) * PER_LINE + device) * DEV_REG_SIZE
  }

  /** Where a command field lies. */
  function AddressOf(x: Field): nat
    requires Exists(x)
  {
    match x
    case Command(line, device) => Register(line, device) + 4
    case Receive(device) => Register(7, device) + 4
    case Transmit(device) => Register(7, device) + 12
  }

  /** getIODeviceSemaphore: an index into semaphore_devices. */
  function SemaphoreIndex(address: int): int {
    if address >= TERM0ADDR then
      if address / 8 % 2 == 1 then (address - 4 - DEV_REG_START) / DEV_REG_SIZE
      else (address - 12 - DEV_REG_START) / DEV_REG_SIZE + 8
    else (address - 4 - DEV_REG_START) / DEV_REG_SIZE
  }

  /** The field a semaphore belongs to. */
  function FieldOf(i: nat): Field {
    if i < 32 then Command(3 + i / 8, i % 8)
    else if i < 40 then Receive(i - 32)
    else Transmit(if i < 48 then i - 40 else 0)
  }

  /** The place of the field of a register among the semaphores. */
  lemma CommandIndex(line: nat, device: nat)
    requires 3 <= line < 7 && device < PER_LINE
    ensures SemaphoreIndex(Register(line, device) + 4) == (line - 3) * 8 + device
  {
    assert Register(line, device) - DEV_REG_START == ((line - 3) * 8 + device) * 16;
  }

  lemma TerminalIndex(device: nat)
    requires device < PER_LINE
    ensures SemaphoreIndex(Register(7, device) + 4) == 32 + device
    ensures SemaphoreIndex(Register(7, device) + 12) == 40 + device
  {
  }

  lemma FieldIndex(x: Field)
    requires Exists(x)
    ensures 0 <= SemaphoreIndex(AddressOf(x)) < DEVICES && FieldOf(SemaphoreIndex(AddressOf(x))) == x
  {
    match x
    case Command(line, device) => CommandIndex(line, device);
    case Receive(device) => TerminalIndex(device);
    case Transmit(device) => TerminalIndex(device);
  }

  lemma IndexField(i: nat)
    requires i < DEVICES
    ensures Exists(FieldOf(i)) && SemaphoreIndex(AddressOf(FieldOf(i))) == i
  {
    if i < 32 { CommandIndex(3 + i / 8, i % 8); } else { TerminalIndex(if i < 40 then i - 32 else i - 40); }
  }

  /** Fields and semaphores correspond one to one: no two waits of different devices, nor the two
      directions of a terminal, share a semaphore. */
  lemma OneSemaphoreEach(x: Field, i: nat)
    requires Exists(x) && i < DEVICES
    ensures 0 <= SemaphoreIndex(AddressOf(x)) < DEVICES && FieldOf(SemaphoreIndex(AddressOf(x))) == x
    ensures Exists(FieldOf(i)) && SemaphoreIndex(AddressOf(FieldOf(i))) == i
  {
    FieldIndex(x);
    IndexField(i);
  }
}
