/**
  The D2XX driver and the chip behind it, as far as the adapter can tell: bytes written
  reach the engine in order, and answers come back in order, in pieces of any size and
  at any time. Any call may fail;
  a ghost log keeps count, so that a failure can be blamed on the device.
*/
module Driver {
  import opened Bytes
  import opened Probe
  import opened Chip

  /** How often a driver call failed or fell short, and how often the answer queue was found empty. */
  datatype Log = Log(faults: nat, idle: nat)

  /** The empty polls after which the host gives up on an answer: 500 ms in steps of 10 us. */
  const PATIENCE: nat := 50000

  /** From one log to a later one; a failure is put down to a failed call or to waiting too long. */
  predicate Accounts(before: Log, after: Log, failed: bool) {
    && before.faults <= after.faults && before.idle <= after.idle
    && (failed ==> before.faults < after.faults || before.idle + PATIENCE <= after.idle)
  }

  lemma AccountsNothing(a: Log)
    ensures Accounts(a, a, false)
  {
  }

  lemma AccountsOnward(a: Log, b: Log, c: Log, failed: bool)
    requires Accounts(a, b, false) && Accounts(b, c, failed)
    ensures Accounts(a, c, failed)
  {
  }

  class Device {
    const board: Board
    var chip: Chip
    /** How many answer bytes the host has already been given. */
    var taken: nat
    ghost var log: Log

    constructor (board: Board, chip: Chip)
      ensures this.board == board && this.chip == chip && taken == |chip.answers|
    {
      this.board := board;
      this.chip := chip;
      taken := |chip.answers|;
      log := Log(0, 0);
    }

    ghost predicate Valid()
      reads this
    {
      taken <= |chip.answers|
    }

    /** FT_Write: some prefix of the buffer reaches the chip. */
    method Write(buf: array<byte>, n: nat) returns (ok: bool, written: nat)
      requires Valid() && n <= buf.Length
      modifies this`chip, this`log
      ensures Valid() && written <= n && Accounts(old(log), log, !ok || written < n)
      ensures chip == Run(board, old(chip), buf[..written])
    {
      ok := *;
      written :| 0 <= written <= n;
      RunGrows(board, chip, buf[..written]);
      chip := Run(board, chip, buf[..written]);
      if !ok || written < n {
        log := log.(faults := log.faults + 1);
      }
    }

    /** FT_GetQueueStatus: how many answer bytes have arrived so far. */
    method GetQueueStatus() returns (ok: bool, queued: nat)
      requires Valid()
      modifies this`log
      ensures Valid() && taken + queued <= |chip.answers|
      ensures Accounts(old(log), log, !ok) && (ok && queued == 0 ==> log.idle > old(log).idle)
    {
      ok := *;
      queued :| 0 <= queued <= |chip.answers| - taken;
      if !ok {
        log := log.(faults := log.faults + 1);
      } else if queued == 0 {
        log := log.(idle := log.idle + 1);
      }
    }

    /** FT_Read of at most n of the queued bytes; it succeeds with at least one. */
    method Read(buf: array<byte>, at: nat, n: nat) returns (ok: bool, actual: nat)
      requires Valid() && at + n <= buf.Length && taken + n <= |chip.answers|
      modifies this`taken, this`log, buf
      ensures Accounts(old(log), log, !ok)
      ensures Valid() && actual <= n && (ok && n > 0 ==> actual > 0)
      ensures taken == old(taken) + actual
      ensures buf[..at] == old(buf[..at])
      ensures buf[at..at + actual] == chip.answers[old(taken)..taken]
    {
      ok := *;
      actual :| 0 <= actual <= n && (ok && n > 0 ==> actual > 0);
      forall i | 0 <= i < actual {
        buf[at + i] := chip.answers[taken + i];
      }
      taken := taken + actual;
      if !ok {
        log := log.(faults := log.faults + 1);
      }
    }
  }
}
