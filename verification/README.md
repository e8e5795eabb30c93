# A verified model of the XVC-to-MPSSE path

The program serves the Xilinx Virtual Cable (XVC) protocol and drives a JTAG chain through the MPSSE
engine of an FTDI chip. This project models that path from the client's bytes to the JTAG pins, and
the configuration file beside it, and proves that the optimised code means what a one-clock-at-a-time
JTAG probe means.

The reference is `Probe.Play`: for each bit, drive one (TMS, TDI) pair, sample TDO, keep the sample
while the TAP is shifting. Outside the Shift states the TDI vector is ignored and TDI keeps the last
level shifted: that is what the code does (`src/mpsse_adapter.c:605`), and the reference says so. The
board is arbitrary: any function from the history of cycles to the next TDO value, and any values for
the bits of answer bytes that the chip leaves undefined.

## How it is organised

| layer | modules |
|---|---|
| bits and bytes | `Bytes`, `BitBuffers`, `BitCopy` |
| reference machine | `Jtag` (TAP controller), `Probe` (one clock at a time) |
| hardware | `Chip` (MPSSE engine, one byte at a time; FTDI AN_108, sections 3.4, 3.5 and 3.8), `Driver` (D2XX calls) |
| compiler | `Commands`, `ShiftRun`, `LongRuns`, `Segments` (what a scan sends and takes, before it is sent), `Observers`, `MpsseBuffer`, `MpsseAdapter` |
| adapter layer | `Frequency`, `FtdiAdapter` |
| XVC server | `XvcTap`, `XvcWire`, `Sockets`, `XvcSession` (what a connection means), `XvcProtocol` (the handler) |
| configuration | `Text`, `ConfigFile` (what each line means), `ConfigStore` (the code), `ConfigRoundTrip`, `ConfigKeys` (each key, on the text of the file) |

Code that changes state is modelled by classes and loops: `MpsseBuffer.Context`, `Driver.Device`,
`FtdiAdapter.FtdiContext`, `Sockets.Socket`, `XvcProtocol.XvcContext` and `ConfigStore.Store`. Their
methods are proved against the functions of `Probe`, `Chip`, `Observers`, `XvcSession` and `ConfigFile`.

## Main results

- **Compiling preserves meaning.** `MpsseAdapter.Scan`: for every vector, start state, board, buffer
  capacity and driver behaviour, a successful scan clocks exactly the reference wave, ends in the
  reference TAP state with the reference level on TDI, leaves exactly the reference TDO vector in memory,
  and leaves the clock setting alone. `Probe.ScanCycle` and `Probe.HeldCycle` spell the reference out
  cycle by cycle in terms of the TAP controller alone: the Shift states are the two that follow a Capture state
  on a low TMS (`Jtag.ShiftFollowsCapture`), there the cycle drives its TDI bit and fills its TDO bit, elsewhere
  the pin holds the last bit shifted and TDO stays.
- **Flushes are invisible.** The device is sent one stream of bytes, `Segments.ScanBytes`, a function of the
  vectors and the start state alone: buffer capacities and driver behaviour have no part in it. Two ghost
  fields of `Context`, the engine and the TDO vector as they will be once everything queued is done, are left
  alone by `Flush`, even between the header and the payload of a byte command.
- **Failures have a cause.** A scan of valid arguments fails only when a driver call failed or fell
  short, when 50000 polls found the answer queue empty, or when the observer pool runs out: exactly when
  `Segments.PoolUse` exceeds it, which takes a vector of more than 65536 bytes. Buffers never overflow. Given
  well-formed commands, the handler returns 1 only when the client is gone or a read failed, and -1 only when
  a write or the device failed.
- **Long Shift runs.** The loop is meant to send runs of more than `chip_buffer_size` whole bytes in
  several commands. It does not work: the test for trailing bits fires after the first command
  (`src/mpsse_adapter.c:704`), and the bulk observer copies the whole run out of the last command's
  answer. `LongRuns.FaithfulIffFits` settles it for every run and every schedule of flushes within it: it is
  compiled faithfully, for all data, all boards and all earlier contents of the RX buffer, if and only if its
  whole bytes fit one command.
- **Splitting a scan is invisible.** `FtdiAdapter.ScanChunked` equals one reference run over the whole
  vectors, for every chunk size, whenever the Shift runs within each chunk fit.
- **XVC sessions.** `XvcProtocol.XvcContext.Handle` consumes and answers exactly the commands it
  should, however reads and writes are fragmented, for every vector limit the handler accepts, and stops
  after a shift only where the client may safely be switched (`XvcSession.SafePoint`: the real TAP in
  Run-Test/Idle, a Test-Logic-Reset boundary behind it and no Capture boundary since), and never runs past such
  a point; `ServeClient` repeats it until every command is answered. `XvcSession` proves what that means: reply
  contents, true totals, the clock in force, the two TAP trackers, and the history behind the client-switch test.
  A shift is withheld from the device exactly when it is one of two detours through Capture back to its own start
  (`WithheldIff`, `DetourReturns`), so trackers and answer are what clocking it would give.
- **Configuration.** `ConfigRoundTrip.RoundTrip`: loading a saved file restores exactly the fields the
  file carries; `RoundTripIdentity` says, field by field, when that is everything.
  `ConfigKeys` says for each key, saved or not, what a section header and a line with that key do when they are
  appended to a file.

Where the code and its own comments disagree, the model follows the code. The comment at
`src/xvc_protocol.c:253` says that the old spelling `shifte:` is supported; the test at line 265 looks
at the wrong byte. `XvcWire.OldSpellingReadIff` shows which one length would survive, and
`XvcWire.OldSpellingNeverRead` that no shift the handler accepts has it. A new connection
resets only the handler's TAP tracker; `XvcSession.ReconnectSafeIff` says exactly when the client-switch
test can still be trusted then. A reported period need not settle when it is requested again
(`Frequency.PeriodSettlesIff`, `Frequency.PeriodNeedNotSettle`).

## Model

| member | source | states |
|---|---|---|
| BitBuffers.SetBitAt | src/mpsse_adapter.c:165-170 | exactly bit idx of the buffer changes, to the given value |
| BitBuffers.CopyBits | src/mpsse_adapter.c:173-181 | the bits [toIdx, toIdx + n) become the source bits, the optional duplicate of the last bit follows them, all others stay |
| Bytes.BitIsShifted | src/mpsse_adapter.c:160-163 | bit i of a byte is what shifting it right by i leaves in bit 0: bits are numbered from the least significant |
| Jtag.FiveOnesReset | src/mpsse_adapter.c:284-305 | five TMS ones lead to Test-Logic-Reset from every state |
| Jtag.ShiftFollowsCapture | src/mpsse_adapter.c:1034-1035 | the TAP is shifting exactly in the two states that follow a Capture state on a low TMS |
| Jtag.ColumnsMirror | src/mpsse_adapter.c:284-305 | the instruction column moves exactly as the data column does |
| Jtag.DataScanPath | src/mpsse_adapter.c:284-305 | the walks of a data scan, spelled out: in from Run-Test/Idle, through Pause and back, and out again |
| Jtag.ShiftSegmentTms | src/mpsse_adapter.c:1024-1063 | inside a Shift segment TMS is low except possibly at its last bit |
| Jtag.ToShiftWalk | src/mpsse_adapter.c:284-305 | the distance to the next Shift state drops by at most one a clock, so two Shift runs are at least three clocks apart |
| Probe.PlayCycle | src/mpsse_adapter.c:588-758 | cycle i of a scan drives TMS bit i, TDI bit i while shifting and the last level shifted otherwise, and samples the board after exactly the cycles before it |
| Probe.PlayTdo | src/mpsse_adapter.c:618-758 | TDO bit i is the sample of cycle i when that cycle shifted, every other bit keeps its old value |
| Probe.ScanCycle | src/mpsse_adapter.c:1033-1060 | with "shifting" read as "after Capture on a low TMS": in such a cycle the TDI bit is driven and the sample lands in its TDO bit, in every other cycle the TDO bit stays |
| Probe.HeldCycle | src/mpsse_adapter.c:605 | outside those states TDI is the last bit shifted, or the level held before the scan when none was |
| Probe.HeldIsLastShifted | src/mpsse_adapter.c:602-606 | the level the compiler holds is the TDI bit of the last shifting cycle |
| Probe.PlayTracksTarget | src/mpsse_adapter.c:1025-1088 | a target whose TAP is in the tracked state before a scan is in it afterwards |
| Commands.TmsCommandPlays | src/mpsse_adapter.c:602-606 | a TMS command clocks exactly the reference cycles of a stretch outside Shift and collects nothing |
| Commands.DataCommandPlays | src/mpsse_adapter.c:648-670 | a bit-wise data command clocks the reference cycles, and the top n bits of its answer are the TDO bits the reference collects |
| Commands.LastCommandPlays | src/mpsse_adapter.c:729-751 | the one-bit TMS-and-read command is the reference cycle of a run's last bit, and bit 7 of its answer is its TDO |
| Commands.PayloadPlays | src/mpsse_adapter.c:672-699 | payload bytes, in however many writes, clock the reference cycles, and their answers are the reference TDO bits |
| Chip.RunConcat | src/mpsse_adapter.c:335 | the engine does not notice where a byte stream is cut into writes |
| Chip.OpcodesDecode | src/mpsse_adapter.c:22-57 | each opcode sent, read by the bit fields of AN_108, is the command meant: bits or bytes, LSB first, TMS or TDI out, TDO read or not |
| Observers.LandOneMore | src/mpsse_adapter.c:538-556 | an observer queued at the end of the pending answers keeps the tiling and adds exactly its own bits to the TDO vector |
| MpsseBuffer.Context.constructor | src/mpsse_adapter.c:209-239 | a fresh context is drained, in Test-Logic-Reset with TDI low, its pool empty |
| MpsseBuffer.Context.PoolAlloc | src/mpsse_adapter.c:139-147 | succeeds exactly when the record fits, and then takes exactly its size |
| MpsseBuffer.Context.WritePending | src/mpsse_adapter.c:314-354 | on success the device has every queued byte, in order; failure is the driver's |
| MpsseBuffer.Context.ReadAnswers | src/mpsse_adapter.c:356-415 | success reassembles exactly the outstanding answers from any fragmentation; it polls at most n + 1000*(n+1) + 50000 times, and gives up only after a failed call or 50000 empty polls |
| MpsseBuffer.Context.FireObservers | src/mpsse_adapter.c:417-419 | firing the queued observers in order makes the TDO vector in memory the one the queue stands for |
| MpsseBuffer.Fire | src/mpsse_adapter.c:429-464 | each observer function writes exactly its own bits from its own answer |
| MpsseBuffer.Context.Flush | src/mpsse_adapter.c:308-426 | on success nothing is queued or unread and memory holds the deferred TDO vector; what the queued work amounts to is unchanged |
| MpsseBuffer.Context.EnsureCanAppend | src/mpsse_adapter.c:467-491 | a safety flush changes nothing a caller can see and fails only with the device |
| MpsseBuffer.Context.Append | src/mpsse_adapter.c:494-560 | a command is queued after everything before it, flushed or not; its observer lands after the earlier ones; overflow only when it exceeds a whole buffer, pool failure only when the pool is full |
| MpsseBuffer.Context.AddWriteWithReadback | src/mpsse_adapter.c:562-570 | the same for a command with an answer, behind the safety check |
| MpsseBuffer.Context.Store | src/mpsse_adapter.c:528-557 | storing keeps the byte stream, the answer count and the observer tiling exact |
| MpsseBuffer.TilesUnique | src/mpsse_adapter.c:538-556 | the observers of a queue cover exactly one number of answer bytes |
| MpsseAdapter.TmsByte | src/mpsse_adapter.c:594-606 | TMS bits from bit 0 up, the held TDI level in bit 7, the bits between them clear |
| MpsseAdapter.AppendTmsShift | src/mpsse_adapter.c:588-615 | a stretch outside Shift of any length is queued as its reference cycles, TDI held, and as exactly the bytes `TmsBytes` |
| ShiftRun.CutCovers | src/mpsse_adapter.c:621-644 | the four pieces cover the run once and in order, whole bytes are byte-aligned, and bit counts fit their fields |
| ShiftRun.RunRegular | src/mpsse_adapter.c:646-726 | sending the pieces one by one, skipping empty ones, is sending their concatenation |
| MpsseAdapter.SendDataBits | src/mpsse_adapter.c:648-670 | leading or trailing bits are queued as their reference cycles and land at their TDO bits |
| MpsseAdapter.SendBytes | src/mpsse_adapter.c:672-699 | header and payload are queued as the reference cycles of whole bytes, their answers landing at TDO bytes |
| MpsseAdapter.SendLastBit | src/mpsse_adapter.c:728-754 | the last bit is queued with its own TMS level, which the pin then keeps, and its TDI bit becomes the held level |
| MpsseAdapter.AppendTdiShift | src/mpsse_adapter.c:618-758 | a Shift run is queued as its reference cycles and TDO bits, sends exactly the bytes of `LongRuns.Emit`, takes exactly `RunCost` pool bytes, and fails only with the device or when those are not there |
| ShiftRun.RunCostBound | src/mpsse_adapter.c:84-90 | a Shift run of n bits takes at most 28*(n + 3) pool bytes |
| ShiftRun.RunCostInBytes | src/mpsse_adapter.c:85-90 | the pool bytes of a run in numbers, and the pool holds 16 MiB |
| ShiftRun.LastByteBits | src/mpsse_adapter.c:733-737 | the byte of the last-bit command: TDI in bit 7, the TMS level in bits 0 and 1, the rest clear |
| Segments.SegmentIsUniform | src/mpsse_adapter.c:1024-1063 | every segment of the scan loop lies wholly in Shift or wholly outside it |
| Segments.NextTmsBytes | src/mpsse_adapter.c:588-615 | the bytes of a stretch outside Shift are its commands of up to six TMS bits, one after the other |
| Segments.TmsBytesLength | src/mpsse_adapter.c:590-613 | a stretch of n bits takes 3*ceil(n/6) bytes |
| Segments.PoolUseGrows | src/mpsse_adapter.c:139-147 | the pool only fills during a scan |
| Segments.PoolUseBound | src/mpsse_adapter.c:84-90 | the pool bytes a vector takes, summed run by run, are at most 28 for each bit and 84 more |
| Segments.ShortVectorFits | src/mpsse_adapter.c:672-690 | stretches of at most `chip_buffer_size` bytes satisfy the run limit |
| Segments.ShortVectorPools | src/mpsse_adapter.c:84-90 | vectors of at most 65536 bytes never exhaust the pool |
| MpsseAdapter.SegmentFacts | src/mpsse_adapter.c:1033-1039 | a segment ending in Shift ends on TMS low, and a Shift segment's last TMS bit is high exactly when it leaves Shift |
| MpsseAdapter.EmitSegment | src/mpsse_adapter.c:1041-1060 | a maximal segment extends the queued prefix of the scan by exactly its own bytes and pool cost; the TMS pin is low whenever the TAP is then in Shift |
| MpsseAdapter.ScanByte | src/mpsse_adapter.c:1028-1063 | one TMS byte keeps the loop invariant: bits before `first` are queued, those up to i are one segment, every bit ends up in exactly one segment, and the bytes and pool use so far are those of the ended segments |
| MpsseAdapter.QueueScan | src/mpsse_adapter.c:1024-1064 | the whole vector is queued as its reference run, from an empty pool, with exactly `PoolUse` bytes of it |
| MpsseAdapter.Scan | src/mpsse_adapter.c:1009-1091 | success means the reference wave, TAP state, TDI level and TDO vector, the one byte stream `ScanBytes` and an unchanged clock; rejected exactly when closed or empty; otherwise only the device can fail it, or a vector whose `PoolUse` exceeds the pool |
| MpsseAdapter.SetFrequency | src/mpsse_adapter.c:967-1006 | the divisor is programmed with the prescaler off, nothing is clocked, and the reported frequency is that divisor's |
| LongRuns.NextPass | src/mpsse_adapter.c:646-756 | every pass of the loop makes progress and stays at a position the loop can be at, for runs of any length |
| LongRuns.RunSent | src/mpsse_adapter.c:646-756 | the loop sends a run that fits one byte command as its pieces, once each and in order |
| LongRuns.FlushesInvisible | src/mpsse_adapter.c:500-517 | pieces that read only their own answers collect the same TDO wherever flushes fall among them |
| LongRuns.ShortRunFaithful | src/mpsse_adapter.c:618-758 | a run whose whole bytes fit one command is faithful on every board, whatever the RX buffer held and wherever flushes fall |
| LongRuns.LongRunDrivesWrongTdi | src/mpsse_adapter.c:704 | a longer run with trailing bits drives a wrong TDI level whenever its first trailing bit differs from the first bit of the second command |
| LongRuns.LongRunLosesTdo | src/mpsse_adapter.c:459-464 | a longer run without trailing bits loses a TDO bit on a board that raises TDO only before the second command, whatever the RX buffer held and wherever flushes fall |
| LongRuns.TrailCounterexample | src/mpsse_adapter.c:704 | a concrete failing run for every length with trailing bits that exceeds the limit, for every flush schedule |
| LongRuns.BulkCounterexample | src/mpsse_adapter.c:682-690 | a concrete failing board for every length without trailing bits that exceeds the limit, for every flush schedule |
| LongRuns.FaithfulIffFits | src/mpsse_adapter.c:646-756 | for every flush schedule, a run is always compiled faithfully if and only if its whole bytes fit one byte command |
| Driver.Device.Write | src/mpsse_adapter.c:335 | some prefix of the buffer reaches the chip, in order |
| Driver.Device.Read | src/mpsse_adapter.c:385-395 | queued answers arrive in order, at least one when there are some |
| Frequency.ReachesIff | src/mpsse_adapter.c:979-983 | a divisor reaches a requested frequency exactly when it is at most the divisor chosen |
| Frequency.FrequencyIsOptimal | src/mpsse_adapter.c:971-985 | the frequency set is at least the request, the smallest one on offer that is, and within 457 Hz to 30 MHz |
| Frequency.FrequencySettles | src/mpsse_adapter.c:971-1005 | requesting the returned frequency returns it again |
| Frequency.FrequencyInRange | src/mpsse_adapter.c:971-985 | in numbers: every frequency set lies in 457 Hz to 30 MHz, above that range it is 30 MHz, at 0 it is 457 Hz, within it at least the request |
| Frequency.PeriodZero | src/ftdi_adapter.c:134-137 | a period of 0 sets 10 MHz and reports 100 ns |
| Frequency.PeriodSettlesIff | src/ftdi_adapter.c:130-149 | requesting the reported period keeps the frequency f exactly when f is the maximum or 10^9 mod f is less than 10^9 div f |
| Frequency.PeriodNeedNotSettle | src/ftdi_adapter.c:130-149 | 67 ns sets 15 MHz and reports 66 ns, and 66 ns sets 30 MHz |
| FtdiAdapter.Scan | src/ftdi_adapter.c:160-169 | the adapter's scan, rejected when either layer is closed |
| FtdiAdapter.SetPeriod | src/ftdi_adapter.c:130-149 | the chip runs at the frequency for the period, the reported period is that frequency's, and nothing is clocked |
| FtdiAdapter.ChunkIsPiece | src/ftdi_adapter.c:207-236 | a chunk scanned into a buffer of its own and copied back is that piece of the whole scan |
| FtdiAdapter.ChunkFits | src/ftdi_adapter.c:208-225 | the Shift runs of a chunk are those of the whole vector that lie in it, moved by whole bytes |
| FtdiAdapter.ShortChunksFit | src/ftdi_adapter.c:183-186 | chunks of at most `chip_buffer_size` bytes satisfy the run limit |
| FtdiAdapter.ShortChunksPool | src/ftdi_adapter.c:183-186 | chunks of at most 65536 bytes never exhaust the pool |
| FtdiAdapter.DefaultChunk | src/ftdi_adapter.c:183-186 | a chunk size that is not positive becomes 4096 bytes |
| FtdiAdapter.ScanChunk | src/ftdi_adapter.c:208-236 | one chunk takes the device, the trackers and the TDO vector from the reference run's prefix to its next prefix |
| FtdiAdapter.ScanInChunks | src/ftdi_adapter.c:200-239 | all chunks together are one reference run into a cleared TDO vector |
| FtdiAdapter.ScanChunked | src/ftdi_adapter.c:174-240 | for every chunk size the wave, TAP state, TDI level and TDO are those of one unsplit reference run; TDO is cleared first only when the scan really splits; besides the device only a chunk that exceeds the pool can fail it |
| BitCopy.Copy | include/bit_copy.h:21-49 | exactly the destination bits [do, do + n) become the source bits [so, so + n), by the byte path or the bit loop alike |
| BitCopy.CopyTms | include/bit_copy.h:75-96 | the same from source offset 8 - n |
| BitCopy.CopyBytes | include/bit_copy.h:106-122 | the same for whole bytes from source offset 0 |
| XvcTap.TablesAgree | src/xvc_protocol.c:28-45 | the handler's table and the adapter's switch are the same machine |
| XvcTap.StepsAreWalk | src/xvc_protocol.c:107-110 | folding the table over TMS bits is folding the adapter's transitions, under the state numbering |
| XvcTap.TrackTap | src/xvc_protocol.c:316-336 | the byte-wise walk with its remainder is one table step per TMS bit |
| XvcTap.TrackersMeet | src/xvc_protocol.c:316-336 | from any two states, any TMS stream with five ones in a row makes the trackers equal from then on |
| XvcWire.Int32RoundTrip | src/xvc_protocol.c:90-105 | decoding an encoded `int32_t` gives it back |
| XvcWire.Int32BytesRoundTrip | src/xvc_protocol.c:90-105 | encoding four decoded bytes gives them back |
| XvcWire.CommandWords | src/xvc_protocol.c:204-254 | the commands start with getinfo:, settck: and shift: |
| XvcWire.V1LengthIsRead | src/xvc_protocol.c:259-282 | the length of a v1.0 shift is read correctly and its vectors follow |
| XvcWire.OldSpellingReadIff | src/xvc_protocol.c:264-282 | with the spelling `shifte:` the length is read correctly only for the one length whose bytes are all colons |
| XvcWire.OldSpellingNeverRead | src/xvc_protocol.c:264-290 | no shift in that spelling with a vector the handler accepts is ever read correctly |
| Sockets.ReadExact | src/xvc_protocol.c:56-76 | success delivers exactly the next len bytes in place, however they were fragmented; it fails only when fewer are to come or a read fails |
| Sockets.WriteExact | src/xvc_protocol.c:78-88 | success sends exactly the bytes, in order; failure means a write failed |
| XvcProtocol.XvcContext.constructor | src/xvc_protocol.c:120-161 | buffers of the capped size, the tracker in Test-Logic-Reset, no history, zero totals |
| XvcProtocol.VectorLimits | src/xvc_protocol.c:131-140 | 2048 bytes when no positive limit is given, 262144 above that cap, otherwise what is asked |
| XvcProtocol.XvcContext.Init | src/xvc_protocol.c:186-193 | a new connection forgets everything but the adapter's own state |
| XvcProtocol.XvcContext.ConnectionStart | src/xvc_protocol.c:185-192 | on the same socket a call goes on where it was; on a new one it starts in Test-Logic-Reset without history or totals, with the configured limit or else the one in use, the device as it was |
| XvcProtocol.XvcContext.HandleGetInfo | src/xvc_protocol.c:204-220 | consumes the command and answers the version and the vector limit |
| XvcProtocol.XvcContext.SetClock | src/xvc_protocol.c:236-239 | the divisor for the period is programmed and the period in use returned, or the request itself when that fails |
| XvcProtocol.XvcContext.HandleSetTck | src/xvc_protocol.c:222-251 | consumes the command, sets the clock asked for or forced, and answers the period in use, `Reply`, which `XvcSession.SetTckReply` gives as a number |
| XvcProtocol.XvcContext.ReadShiftLength | src/xvc_protocol.c:258-282 | takes the length from where the fifth byte says it is, and counts the bytes read |
| XvcProtocol.XvcContext.ReceiveShift | src/xvc_protocol.c:258-299 | a well-formed shift is received whole: length, TMS and TDI |
| XvcProtocol.XvcContext.MarkBoundary | src/xvc_protocol.c:302-314 | the history flag and the skip decision at a shift boundary |
| XvcProtocol.XvcContext.ApplyShift | src/xvc_protocol.c:299-350 | a shift is skipped with a zero answer or tracked and forwarded, with the reference's TDO as the answer; `XvcSession.WithheldIff` says which |
| XvcProtocol.XvcContext.HandleShift | src/xvc_protocol.c:253-369 | consumes the command and sends the reference's answer |
| XvcProtocol.XvcContext.HandleNext | src/xvc_protocol.c:197-374 | one more command is consumed and answered as the session says; when the connection closes nothing more was sent, and unless a read failed nothing more was to come |
| XvcProtocol.XvcContext.HandleCommands | src/xvc_protocol.c:197-378 | the loop handles commands up to the first after which it may stop, and not beyond; each is answered once and in order; with agreeing trackers it stops after a shift only at a safe point, and every earlier command was a shift that did not reach one |
| XvcProtocol.XvcContext.Handle | src/xvc_protocol.c:181-379 | one call of the handler, starting over on a new socket: exactly the served commands are consumed and answered, the new state is the session's, it stops after a shift only at a safe point and passes none, and every other result has a cause |
| XvcProtocol.StopsSafely | src/xvc_protocol.c:197-376 | where the loop stops after a shift the real TAP is idle with that history, and at no earlier command of the call was it so |
| XvcProtocol.XvcContext.ServeClient | src/main.c:173-194 | repeated calls of the handler consume and answer the commands in order, and all of them unless a read, a write or the device fails |
| XvcSession.ServeSplit | src/xvc_protocol.c:197-376 | serving commands over several calls is serving them in one |
| XvcSession.ShortShiftsScannable | src/xvc_protocol.c:337-349 | shifts whose vectors are no longer than `chip_buffer_size` bytes can always be scanned, whatever the vector limit |
| XvcSession.ShiftReplyLength | src/xvc_protocol.c:353 | a shift is answered with ceil(len/8) bytes |
| XvcSession.ShiftReplyBits | src/xvc_protocol.c:299-353 | bit i of the answer is TDO sampled at cycle i if the TAP was shifting then, and 0 otherwise |
| XvcSession.WithheldIff | src/xvc_protocol.c:307-314 | a shift clocks nothing exactly when it starts in Exit1-IR with TMS 1,1,1,0,1 or in Exit1-DR with TMS 1,1,0,1, the rest of the byte clear; every other shift clocks each of its bits |
| XvcSession.DetourReturns | src/xvc_protocol.c:307-314 | both walks end where they started, coming from Capture, and never shift |
| XvcSession.WithheldLooksForwarded | src/xvc_protocol.c:300-316 | a withheld shift leaves the tracker where forwarding would, and while the trackers agree clocking it would have left the real TAP where it is and collected the same zeros |
| XvcSession.SetTckReply | src/xvc_protocol.c:236-242 | the answer to settck is the period, in ns, of the clock then in force |
| XvcSession.ForcedFrequency | src/xvc_protocol.c:229-234 | with a forced frequency of up to 1 GHz the clock is at least that, or 30 MHz, whatever the client asks |
| XvcSession.ClientPeriod | src/xvc_protocol.c:229-234 | without one the clock follows the client's four bytes, low byte first |
| XvcSession.GetInfoReply | src/xvc_protocol.c:194-220 | the answer is xvcServer_v1.0, a colon, the vector limit in decimal and a newline; nothing is clocked |
| XvcSession.Totals | src/xvc_protocol.c:202-358 | received, sent and command counts are the true totals |
| XvcSession.LastSetTckHolds | src/xvc_protocol.c:222-251 | TCK stays at the frequency of the last settck through every later command |
| XvcSession.TrackersStayTogether | src/xvc_protocol.c:307-349 | the two TAP trackers stay equal through every run of forwarded or skipped shifts |
| XvcSession.TrackersWalk | src/xvc_protocol.c:307-349 | both TAP trackers walk along the TMS bits of all forwarded shifts together, each from where it started |
| XvcSession.TrackersMeetAgain | src/xvc_protocol.c:307-349 | after five TMS ones in a row anywhere in the forwarded bits, within a shift or across shifts, they are equal, whatever they held |
| XvcSession.SeenTlrIsHistory | src/xvc_protocol.c:302-305 | the history flag holds exactly when some shift boundary was in Test-Logic-Reset, or the flag held at the start, and no boundary since was in a Capture state |
| XvcSession.SwitchIsSafe | src/xvc_protocol.c:376 | while the trackers agree, the loop's own condition holds exactly when the real TAP is in Run-Test/Idle with that history |
| XvcSession.ReconnectSafeIff | src/xvc_protocol.c:186-193 | after a reconnect that holds for every run of commands if and only if the adapter was in Test-Logic-Reset |
| ConfigStore.TrimString | src/config.c:24-36 | the text between the outer blanks |
| ConfigStore.Store.Init | src/config.c:49-71 | every slot gets its defaults |
| ConfigStore.Store.Assign | src/config.c:170-279 | one key and value change exactly the field they name in the section they stand in |
| ConfigStore.Store.DoLine | src/config.c:129-280 | a line is stripped of blanks and comments and changes the section or one field, or nothing |
| ConfigStore.Store.Load | src/config.c:115-285 | the file's lines are obeyed in order from the defaults |
| ConfigStore.Store.SaveSection | src/config.c:309-344 | the section's lines of the enabled instances, in slot order |
| ConfigStore.Store.Save | src/config.c:287-350 | the whole file, section by section |
| ConfigRoundTrip.DeviceIdRoundTrip | src/config.c:73-113 | printing and parsing a device id is the identity exactly when its value fits the field and its kind may have one |
| ConfigRoundTrip.DeviceForms | src/config.c:73-95 | the prefixes SN:, BUS: and CUSTOM: and the words auto and none, each value cut to 63 characters |
| ConfigRoundTrip.KeyValueLine | src/config.c:132-168 | a written pair is read back as that pair |
| ConfigRoundTrip.LinesOfFlatten | src/config.c:125-129 | the line reader delivers the written lines when each fits its buffer |
| ConfigRoundTrip.SaveLinesWhole | src/config.c:287-350 | every line that is saved fits that buffer |
| ConfigRoundTrip.SavedLinesObeyed | src/config.c:115-285 | obeying the saved lines restores what the file carries |
| ConfigRoundTrip.RoundTrip | src/config.c:115-350 | loading a saved configuration restores base port, limits, enabled instances, device ids, frequencies, latencies, buffer sizes and aliases |
| ConfigRoundTrip.RoundTripIdentity | src/config.c:115-350 | it is the identity exactly when ports are canonical, every setting the file has no line for is at its default, slots that are not enabled are untouched, and the last counted slot is enabled |
| Text.AtoiOfInteger | src/config.c:175 | reading a printed number in decimal gives it back |
| Text.StrToLOfInteger | src/config.c:216 | so does reading it with the base left open |
| ConfigKeys.OpenBases | src/config.c:207-216 | with the base left open, 0x starts hexadecimal and 0 octal: 0x1F4 is 500 and 017 is 15 |
| ConfigKeys.LoadEntry | src/config.c:129-280 | a section header and a line appended to a file apply that key in that section to what the file says so far |
| ConfigKeys.WhitelistLine | src/config.c:265-271 | `id:allow_n` and `id:block_n` append the address, cut to 45 characters, allowed or blocked as named, while the list has fewer than 64; nothing else changes |
| ConfigKeys.ModeLine | src/config.c:257-264 | `id:mode` sets strict or permissive as named, and anything else turns the list off; nothing else changes |
| ConfigKeys.AsyncLine | src/config.c:210-211 | `id:async` is on for true and 1 only; nothing else changes |
| ConfigKeys.NumberLines | src/config.c:206-232 | frequency, latency timer, buffer size kept between 64 bytes and 512 MiB, lock timeout with negatives as 0; nothing else changes |
| ConfigKeys.ManagementLine | src/config.c:171-179 | enabled, base_port and max_instances set their field and nothing else |
| ConfigKeys.InstanceLine | src/config.c:181-193 | a mapping enables the instance on its canonical port with the device named and raises the count to its id; an alias is cut to 63 characters |
| ConfigKeys.NoSuchInstance | src/config.c:183-254 | lines for instance 0 or one above 32 change nothing, in any section |
| ConfigKeys.EmptyFile | src/config.c:49-71 | the defaults of every slot, in numbers |
| ConfigKeys.TrailingComment | src/config.c:137-145 | a comment behind a pair, after either mark and whatever it contains, is not part of the value |
| ConfigKeys.WholeComment | src/config.c:134-135 | a line that starts with a comment mark does nothing |
| ConfigKeys.Malformed | src/config.c:148-164 | a header without its bracket and a line without = do nothing |
| ConfigKeys.LongLine | src/config.c:125-129 | a longer line is cut after 511 characters and its rest read as the next line |

## Left out

- MpsseAdapter.AppendTdiShift: requires the whole bytes of the run to fit `chip_buffer_size`; `LongRuns` models the loop on values for runs of any length and shows that exactly the longer ones fail.
- MpsseAdapter.Scan: the same limit for every Shift run of the vector (`RunsFit`), which vectors of up to `chip_buffer_size` bytes always meet. Nothing is claimed about the buffers after a failed scan, which the code leaves as they were.
- FtdiAdapter.ScanChunked: the same limit for the Shift runs within each chunk (`ChunksFit`).
- XvcProtocol.XvcContext.Handle: the same limit for every shift that is forwarded, and a pool that lasts for it (`AllScannable`); the vector limit itself may be anything the handler accepts. Claims are for well-formed v1.0 commands; malformed commands and lengths below 1 or near the `int32_t` limit are not described, nor is settck with a vector limit below 4, whose answer would not fit the result buffer.
- XvcProtocol.XvcContext.HandleSetTck: when a period cannot be set the request is echoed back; that case is only reported, as `Degraded`.
- Driver.Device.Read: a successful `FT_Read` of queued bytes is taken to deliver at least one; without that the read loop need not end.
- ConfigRoundTrip.RoundTrip: settings that `config_save` does not write (async mode, whitelist, lock timeout, disabled instances) come back as defaults, which `Kept` states exactly; what loading does with them is in `ConfigKeys`.
- Opening, resetting, purging and closing the device, the MPSSE set-up commands, and chip detection: foreign calls. The model starts from an idle engine.
- Clock edges and electrical behaviour: below the level of TCK cycles.
- Logging, timing statistics, the dump file and the flush counters: diagnostics only.
- Return codes and logged reasons are enumerated as `Status` and `Outcome`; null arguments and failed memory allocation do not occur in the model.
- The linked observer queue and the pool's memory are a sequence and a byte count; observers are identified by what they copy. Read-only C buffers are passed as values, so a TDO buffer that overlaps the TMS or TDI vector is not described.
- The byte-copier path of `mpsse_buffer_add_write_simple`: it is taken only by the first commands of a run that does not fit, so only `LongRuns` uses it.
- `int` overflow in bit counts, and numbers too large for `atoi`, `strtol` and `strtoul`.
- Configuration files with NUL characters or bytes whose classification depends on the locale, and the fields `log_level` and `jtag_mode`, which loading never changes.
- `src/tcp_server.c`, all of `src/main.c` but its calls of the handler, `src/whitelist.c`, `src/device_manager.c`, `src/logging.c` and `src/discover_main.c`: sockets, processes, short searches and printing.
