# syncSDRpp frequency synchroniser — a Dafny model

syncSDRpp keeps an SDR++ receiver and a hamlib-controlled transceiver on the
same frequency. It talks to SDR++ through SDR++'s rigctl server: short text
commands `f\n`, `F <hz>\n`, `m\n` and `M <mode> <bw>\n`, answered by a reply
that is either data or the failure sentinel `RPRT 1`. It talks to the rig
through hamlib. On each tick `main` samples both frequencies, and it sleeps
25 ms between ticks (sync.c:69-72, 114). It compares the samples
with two "previous frequency" trackers and pushes the side that changed to the
other side. The rig wins when both changed.

The model has five modules:

- `Wrappers` (wrappers.dfy): `Option`.
- `CInt` (cint.dfy): the C `long` and `int` ranges, `%ld` rendering (`Decimal`)
  and `strtol(s, &end, 10)` (`Strtol`). `Strtol` skips C-locale white space,
  takes an optional sign, reads the longest run of digits and saturates at
  `LONG_MIN` / `LONG_MAX`.
- `Rigctl` (rigctl.dfy): the SDR++ side of sync.h. `ReceiveData` stores one
  read into a `BUFSIZE` array and writes the NUL after it. `ReceiveUnchecked` is the C function as written, whose NUL can land one past the buffer (see Findings). `Strtok` is
  `strtok(buf, "\n")` on that array: it overwrites the newline after the token
  with NUL. The replies are judged as C strings (`CString`). Pure functions give
  the meaning of each reply and each command (`CurrentFreqOf`, `SetStatusOf`,
  `ModulationOf`, `FreqCommand`, `ModeCommand`). The methods `GetCurrentFreq`,
  `SetFreq`, `GetModulation` and `SetModulation` each use a local buffer, as the
  C functions do, and are proved equal to those functions.
- `Hamlib` (hamlib.dfy): the `switch` of `GetModulation_rig` from hamlib's
  native mode to one of the labels AM, FM, CW, USB and LSB.
- `Sync` (sync.dfy): `main`. `Step` is the conflict resolution. `Init` is the
  start-up. `TickRun` is one loop iteration. `Ticks` and `Session` cover a whole
  run. `Synchronise` is the imperative loop: it keeps `sdrOld` and `rigOld` as
  mutable variables, appends every call it makes to a log, and is proved equal
  to `Session`.

The SDR++ socket is replaced by parameters: the bytes one `read` returns. The
hamlib calls are replaced by their results: a frequency or an error, and
whether `rig_set_freq` succeeded. `keepRunning` is replaced by a finite
sequence of ticks, one for each loop iteration that starts while the flag
holds.

Behaviour of the code worth knowing:

- Each tick samples SDR++ before the rig (sync.c:97-98).
- `SetFreq` and `SetModulation` return 1 for the failure sentinel and 0 for any
  other reply (sync.h:101-104, 135-138). They do not return a success flag.
- `main` synchronises frequency only. It never calls `SetModulation` or
  `GetModulation_rig`, and has no bandwidth table.
- A failure reply to `f\n` reads as 0 Hz. If on that tick the rig reading has
  not changed (sync.c:100 is tested first) and the SDR++ tracker is not already
  0, `main` treats SDR++ as changed and sets the rig to 0 Hz
  (`Sync.FailureReplyTunesRigToZero`). So an SDR++ failure can change the
  reconciliation state.
- The SDR++ tracker is seeded from SDR++'s own first reading, not from the rig.
  Suppose SDR++'s first reading differed from the rig's, SDR++ took the initial
  push, and the rig has not moved on the first tick. Then that tick sets the rig
  to the frequency it already has (`Sync.EchoAfterInit`).
- The sentinel test is an exact `strcmp`. A reply `RPRT 1\n`, with a newline,
  is not recognised as failure by `SetFreq`. `GetCurrentFreq` still reads it as
  0 (`Rigctl.NewlineTerminatedSentinel`).

## Model

| member | source | states |
|---|---|---|
| `CInt.Decimal` | sync.h:97 | `%ld` renders a value as at least one char: a leading `-` exactly for negative values, digits after it, never a newline or NUL; there is no leading zero, and zero prints as `0` |
| `CInt.Strtol` | sync.h:87 | strtol gives a negative value only when a `-` follows the white space, and never a positive value after a `-`; `StrtolOfDecimal` and `StrtolWithoutDigits` give its value |
| `CInt.StrtolOfDecimal` | sync.h:87 | strtol reads back exactly the value `%ld` printed, whatever non-digit follows it |
| `CInt.StrtolWithoutDigits` | sync.h:87 | strtol gives 0 when no digit follows the white space and the optional sign |
| `CInt.DecimalLongLength` | sync.h:97 | a `long` prints in at most 20 chars, so `F <hz>\n` cannot overflow the buffer |
| `CInt.DigitsValueOfDigits` | sync.h:87 | the digits of n, read most significant first, have the value n |
| `Rigctl.CString` | sync.h:83 | the C string a buffer holds is the prefix of its contents before the first NUL and contains no NUL |
| `Rigctl.ReceiveData` | sync.h:62-69 | a read of at most BUFSIZE - 1 bytes is stored at the front of the buffer, the NUL lands inside it, the rest is unchanged, and the buffer then holds the C string of the bytes read; the new buffer is the one `ReceiveUnchecked` gives for that read |
| `Rigctl.ReceiveUnchecked` | sync.h:62-69 | receive_data as written, for a read of up to BUFSIZE bytes: when the write `buf[n]` is inside the buffer, the new buffer holds the bytes read, a NUL at n and the old chars after it |
| `Rigctl.ReceiveInBoundsExactly` | sync.h:64-67 | the terminator lands inside the buffer exactly when the read returned at most BUFSIZE - 1 bytes |
| `Rigctl.ReceiveOverrun` | sync.h:64-67 | a reply of BUFSIZE bytes, which `read(sockfd, buf, BUFSIZE)` may deliver, makes receive_data write its NUL outside the buffer |
| `Rigctl.Strtok` | sync.h:86 | `strtok(buf, "\n")` returns NULL exactly when the C string has no token; otherwise the returned index is the first char that is not a newline, and the C string there is the first token; on NULL the buffer is unchanged, and otherwise the new buffer is the old one with the char right after the token, a newline or the NUL, set to NUL |
| `Rigctl.SpanNewlines` | sync.h:86 | strtok's start: every char before the returned index is a newline, the char at it is not, and it does not pass the terminator |
| `Rigctl.SpanLine` | sync.h:86 | strtok's end: the first newline or NUL at or after the token's start; no char before it is either |
| `Rigctl.FirstToken` | sync.h:86 | a token strtok returns is non-empty and holds no newline |
| `Rigctl.FirstTokenNone` | sync.h:86 | strtok finds no token exactly when the string is all newlines |
| `Rigctl.FirstTokenOfLine` | sync.h:86 | after any leading newlines, the token is the text up to the next newline |
| `Rigctl.CurrentFreqOf` | sync.h:83-89 | the sentinel yields 0; the result is undefined (NULL token) exactly when a non-sentinel reply is all newlines |
| `Rigctl.FreqOfFirstLine` | sync.h:86-89 | any other reply yields the strtol of its first line after leading newlines |
| `Rigctl.ModeOfFirstLine` | sync.h:117-121 | any reply other than the sentinel yields its first line after leading newlines as the mode |
| `Rigctl.FreqReplyRoundTrip` | sync.h:86-89 | a frequency printed with `%ld` and a newline reads back as the same frequency |
| `Rigctl.NewlineTerminatedSentinel` | sync.h:83-84 | a sentinel followed by a newline is not taken as failure by the set-calls, and reads as frequency 0 |
| `Rigctl.SetStatusOf` | sync.h:101-104 | the set-calls return 1 exactly for the sentinel reply and 0 for every other reply |
| `Rigctl.FreqCommand` | sync.h:97 | the command starts `F `, ends with a newline and holds no NUL |
| `Rigctl.FreqCommandCarriesFreq` | sync.h:97 | the command is `F `, an argument whose strtol is the frequency, and a final newline; it is shorter than BUFSIZE |
| `Rigctl.ModulationOf` | sync.h:117-121 | the sentinel yields ""; the result is NULL exactly when a non-sentinel reply is all newlines; otherwise it is a non-empty token without newline |
| `Rigctl.ModeReplyRoundTrip` | sync.h:117-121 | a mode name sent back as one line reads back as the same name |
| `Rigctl.ModeCommand` | sync.h:131 | the command is `M `, the mode, a space, and ends with a newline |
| `Rigctl.ModeCommandCarriesBandwidth` | sync.h:131 | what follows the mode and the space reads back through strtol as the bandwidth |
| `Rigctl.GetCurrentFreq` | sync.h:73-90 | sends `f\n`; returns the frequency the received C string denotes |
| `Rigctl.SetFreq` | sync.h:93-105 | sends `F <freq>\n`; returns the status the received C string denotes |
| `Rigctl.GetModulation` | sync.h:108-122 | sends `m\n`; returns the mode the received C string denotes |
| `Rigctl.SetModulation` | sync.h:126-139 | sends `M <mode> <bandwidth>\n` when it fits the buffer; returns the status the received C string denotes |
| `Hamlib.ModulationLabel` | sync.h:227-254 | the label is always one of AM, FM, CW, USB, LSB; FM, USB and LSB map to themselves; exactly CW and reversed CW map to CW; every other mode maps to AM |
| `Hamlib.LabelShape` | sync.h:229-254 | every label is one to three chars with no NUL and no newline |
| `Hamlib.LabelsTravel` | sync.h:131 | a `M <label> <bw>\n` command always fits the buffer, and a label sent back as one line reads back unchanged |
| `Sync.Step` | sync.c:100-111 | with no set-call the trackers are unchanged; after a set-call both trackers are equal |
| `Sync.Init` | sync.c:77-93 | a start-up that did not fail issues three calls, ending with a set of SDR++ to the rig tracker's value |
| `Sync.TickRun` | sync.c:97-111 | a tick samples SDR++, then the rig, and makes at most one set-call after both samples; a quiet tick keeps the trackers and a tick with a set-call leaves them equal |
| `Sync.Ticks` | sync.c:95-115 | the loop never stops by itself and only appends to the log |
| `Sync.Session` | sync.c:95-119 | a session ends stopped or failed, never still looping |
| `Sync.RigWins` | sync.c:100-105 | a changed rig is pushed to SDR++; the rig gets no set-call even if SDR++ changed too; both trackers take the rig's frequency |
| `Sync.SdrFollowed` | sync.c:106-111 | an unchanged rig and a changed SDR++ give one set-call to the rig; both trackers take SDR++'s frequency, or the program exits if the set fails |
| `Sync.QuietTick` | sync.c:100-111 | a tick makes no set-call exactly when neither reading moved, and then the trackers are unchanged |
| `Sync.Halted` | sync.h:194-198 | once the program has exited, later ticks change nothing |
| `Sync.AgreementPersists` | sync.c:103-110 | once the trackers are equal they stay equal after every later tick |
| `Sync.TickRunCounts` | sync.c:97-111 | one tick's log samples each side exactly once and holds at most one set-call |
| `Sync.SampleCounts` | sync.c:95-98 | while the loop runs, every tick adds one SDR++ sample and one rig sample |
| `Sync.SetCallBound` | sync.c:100-111 | a run of n ticks adds at most n set-calls |
| `Sync.NoTeardownInLoop` | sync.c:95-115 | the loop itself never closes or releases the rig |
| `Sync.Teardown` | sync.c:117-118 | a stopped session ends with rig_close then rig_cleanup and closes nothing before; a session that exited never closes the rig |
| `Sync.InitAlignment` | sync.c:85-93 | each tracker is seeded from its own side's first reading, and one set-call goes to SDR++ with the rig's frequency |
| `Sync.EchoAfterInit` | sync.c:85-110 | when SDR++'s first reading differed from the rig's and SDR++ took the initial push, a first tick with the rig unchanged sets the rig to the frequency it already has |
| `Sync.FailureReplyTunesRigToZero` | sync.c:106-111 | a failure reply to the frequency query reads as 0 Hz and, with the rig reading unchanged and the SDR++ tracker not 0, sets the rig to 0 |
| `Sync.LoopBody` | sync.c:97-111 | the imperative loop body, on the two tracker variables, makes exactly the calls of `TickRun` and leaves the trackers and the outcome it gives |
| `Sync.Synchronise` | sync.c:64-121 | the imperative start-up, loop and teardown produce exactly the calls, trackers and outcome of `Session` |

## Left out

- `Sync.TickRun` and `Sync.Init` take every SDR++ reading as a `long`. They assume each reply to `f\n` holds a token. For an empty read (SDR++ closed the socket, n = 0) or a reply of only newlines, `strtok` returns NULL at sync.h:86. Then `strtol(NULL, ...)` at sync.h:87 is undefined behaviour, and in practice `main` dies mid-tick without calling `rig_close`. `Rigctl.CurrentFreqOf` returns None for exactly these replies. The loop model does not cover them.
- Socket plumbing: `connect_SDRpp`, `send_data`, the I/O of `receive_data`, `gethostbyname` and `connect`. A reply is the bytes one read returned. A failed read (n < 0, which writes `buf[-1]`) and a failed write are not modelled. The unresolved-host path, which returns 0 as the socket, is not modelled either.
- hamlib calls (`rig_init`, `rig_open`, `rig_get_freq`, `rig_set_freq`, `rig_get_mode`, `rig_close`, `rig_cleanup`) are foreign code. `connect_rig` is reduced to whether it succeeded. `GetFreq_rig` is reduced to a frequency or an error. `SetFreq_rig` is reduced to whether it succeeded. Every error is the outcome `Fatal`, without an exit code.
- `freq_t` is a floating-point type converted to `long` by `GetFreq_rig`. The model takes the rig frequency as a `long` and does not model the conversion.
- `Hamlib.ModulationLabel` takes the native mode as a value. The `rig_get_mode` call, and its `exit(2)` on error, are not modelled.
- `signal`, `intHandler` and `nanosleep` timing are not modelled. `keepRunning` is the length of the tick sequence.
- Mode propagation and a per-mode bandwidth table are not modelled, because `main` does not implement them.
- `printf`/`fprintf` diagnostics and process exit codes are not modelled.
- `Rigctl.GetModulation` returns the token by value. In C it returns a pointer into its own stack buffer, which is no longer valid after the function returns.
- The prototype `int SetModulation(int sockfd, int bandwidth)` in sync.c:55 does not match the definition in sync.h. This is not modelled.
- `Rigctl.SetModulation` requires its command to fit in BUFSIZE chars. For a long enough mode name the `sprintf` at sync.h:131 overflows `buf`, and that is not modelled. `main` never calls `SetModulation`, and `Hamlib.LabelsTravel` shows that the command fits for every label.
- `strtol`'s end pointer and `errno` are not modelled. Only its value is.
- `SetFreq`'s status is ignored by `main`. The log records the call, not its reply.

## Findings

| source | as written | input that shows it | evidently intended | confidence | as-written member | corrected member |
|---|---|---|---|---|---|---|
| sync.h:64-67 | `read(sockfd, buf, BUFSIZE)` then `buf[n] = '\0'` | a reply of 1024 bytes or more: n = 1024, so the NUL is written to `buf[1024]`, one past the end | read at most BUFSIZE - 1 bytes so the terminator fits | not executed; high | `Rigctl.ReceiveUnchecked`, `Rigctl.ReceiveOverrun` | `Rigctl.ReceiveData` |
