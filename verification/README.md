# CommandMuxer relay core in Dafny

CommandMuxer sits between a modem's serial line (the "tty"), a pseudo terminal
(the "pty") on which `pppd` talks, and the operator's keyboard and screen. In
DATA mode it relays bytes both ways between modem and pseudo terminal. When the
operator types, it switches to COMMAND mode. It sends the Hayes escape `+++`,
bracketed by a 2-second and a 1-second pause. After that:

- typed text goes to the modem as AT commands, with line feeds made carriage
  returns;
- the modem's answers go to the screen;
- the pseudo terminal is left unread.

A line holding only a line feed switches back to DATA mode.

This project models `muxer.c`:

- the context record `muxer_context_s` and the mode enumeration `mode_e`;
- `update_max` and `transparent_init`;
- the byte rewrite `search_and_replace`;
- the relay loop `transparent_run`, iteration by iteration and as a whole.

## Modules

| file | module | models |
|---|---|---|
| `bytes.dfy` | `Bytes` | the byte type and the three characters the loop cares about (LF, CR, `+`) |
| `seqs.dfy` | `Seqs` | small facts about sequences (prefixes, membership, associativity) shared by the proofs |
| `search_replace.dfy` | `SearchReplace` | `search_and_replace`, as a function and as the C pointer loop |
| `context.dfy` | `Context` | `mode_e`, `muxer_context_s`, `update_max`, `transparent_init` |
| `descriptors.dfy` | `Descriptors` | what is waiting on each readable descriptor, and one `read(fd, buffer, 64)` |
| `relay.dfy` | `Relay` | the effects the loop performs; the keyboard, modem-line and pseudo-terminal branches |
| `iteration.dfy` | `Iteration` | one pass of the `for(;;)` body: `select`, then the ready branches in order |
| `loop.dfy` | `Loop` | the loop over a finite schedule of `select` results, as a function and as a `while` loop |
| `properties.dfy` | `LoopProperties` | what stretches of iterations in one mode do, and escape-then-command ordering |

### How the environment is represented

- **Input.** Every readable descriptor holds a queue of deliveries, that is, what
  successive `read` calls would see.
  - A read copies at most 64 bytes of the delivery at the head of the queue
    (`NextChunk`). Any remainder stays at the head, ahead of the later
    deliveries (`Remainder`).
  - An empty delivery, or an exhausted queue, stands for a `read` that returns 0
    or -1.
- **`select`.** It is a parameter of each iteration: it fails, times out, or
  reports a set of readable descriptors. Only descriptors that were in the
  watched set can be reported. The model intersects the report with the watched
  set, as `FD_ISSET` on the returned `fd_set` does.
- **Output.** What the loop does is a list of effects in program order:
  - `Read(source, result)`;
  - `Write(dest, bytes)`;
  - `Pause(seconds)` for each `sleep`.

  The functions `BytesRead`, `BytesWritten` and `ReadSources` observe a list of
  effects per descriptor.

### The invariants every part of the loop keeps

- `Conserves`: on each readable descriptor, what was queued is exactly what was
  read, followed by what is still queued.
- `WellFormed`: every read and write moves 1 to 64 bytes, nothing is ever
  written to the keyboard, and nothing is ever read from the screen
  (`Relay.WellFormedDirections`).
- `FailFast`: a read that returns at most zero is the last effect. It is also the
  cause the loop records for stopping.

### Behaviour worth noting

- **Keyboard bytes typed in DATA mode are kept for COMMAND mode.** A keyboard
  that becomes readable in DATA mode is not read at all (muxer.c:125-132). The
  escape is sent and the mode changes, so the typed bytes stay queued for the
  COMMAND-mode keyboard read. `LoopProperties.TypedCommandFollowsEscape` covers
  the usage the header comment at muxer.c:4-6 gives: type a command, the modem
  is switched by the escape, then the command is sent. There, a chunk of at most
  64 bytes that is not a lone line feed is read by the iteration right after the
  escape, when that iteration sees the keyboard. It goes to the modem as a
  command, with line feeds made carriage returns.
- **A lone Enter typed in DATA mode sends only the escape.** The line feed
  triggers the escape and stays queued. The next COMMAND-mode read takes it as
  the request to go back to DATA mode, and writes nothing to the modem
  (muxer.c:137-139, `Iteration.StepCommandInput`).
- **The pseudo terminal is still served in the switching iteration.** Its
  readiness comes from the `fd_set` built before the keyboard branch ran
  (muxer.c:112-114, 164). So in the iteration that switches to COMMAND mode, bytes
  already readable on the pseudo terminal are still read. They are written to the
  modem after the escape sequence (`Iteration.StepEscape`). The modem-line chunk
  of that same iteration goes to the screen, because line 155 tests the mode
  after the switch.

## Model

| member | source | states |
|---|---|---|
| SearchReplace.SearchAndReplace | muxer.c:96-104 | Keeps the buffer's length. Position i becomes `to` exactly when i < l and the byte there is `from`; every other byte is unchanged. A count of zero or less changes nothing. |
| SearchReplace.SearchAndReplaceLoop | muxer.c:96-104 | The C pointer loop, which overwrites each `from` as it passes it, leaves the buffer equal to the rewrite. |
| SearchReplace.RewriteIdempotent | muxer.c:96-104 | Repeating the same rewrite changes nothing more. |
| Context.UpdateMax | muxer.c:80-84 | The new `max` is at least the old one and at least n, and it is one of the two. No other field changes. |
| Context.TransparentInit | muxer.c:86-94 | Starts in DATA mode with the given descriptors. `max` bounds the keyboard, modem-line and pseudo-terminal descriptors and is one of them or -1, so it is the largest of the four. |
| Context.InitIgnoresScreen | muxer.c:86-92 | The screen descriptor does not affect `max`. |
| Relay.Watched | muxer.c:108-114 | The watched set always holds the keyboard and the modem line. It holds the pseudo terminal exactly in DATA mode, and never the screen. |
| Relay.WatchedBelowMax | muxer.c:108-117 | After `transparent_init`, every watched descriptor is below the `max + 1` bound given to `select`. |
| Descriptors.ReadChunk | muxer.c:152-153 | A read returns 1 to 64 bytes: the whole head delivery, or its first 64 bytes (`NextChunk`). The rest of that delivery, if any, stays at the head ahead of the later deliveries (`Remainder`), so the bytes read followed by what remains equal what was queued. It reports end of stream exactly when nothing or an empty delivery is queued, and then consumes nothing. |
| Descriptors.ReadDescriptor | muxer.c:134-166 | The same for one descriptor of the streams, as the keyboard, modem-line and pseudo-terminal reads do: `NextChunk` of its queue is read and `Remainder` is left, with 1 to 64 bytes read; end of stream exactly on an empty or exhausted queue, consuming nothing. Every other descriptor's queue is unchanged. |
| Relay.CommandText | muxer.c:141 | Typed text as the modem gets it: same length, every line feed a carriage return, every other byte unchanged, no line feed left. |
| Relay.ReadCommand | muxer.c:133-148 | The COMMAND-mode keyboard read. A lone line feed means DATA mode and nothing written. Any other chunk goes to the modem as `CommandText` and the mode stays COMMAND. It stops, with `EndOfStream(Keyboard)`, exactly when the keyboard's head delivery is empty or nothing is queued. Otherwise the chunk it reads is `NextChunk` of the keyboard queue and `Remainder` is left queued. Only the keyboard is read, and only the modem line is written: the pseudo terminal, the screen and the keyboard receive nothing. Nothing pauses. |
| Relay.WellFormedDirections | muxer.c:133-172 | Every write the loop performs goes to the modem line, the pseudo terminal or the screen, never the keyboard; every read comes from the keyboard, the modem line or the pseudo terminal, never the screen. |
| Relay.HandleKeyboard | muxer.c:125-150 | Not ready: nothing happens. Ready in DATA mode: COMMAND mode and exactly the escape sequence (pause 2, `+++` to the modem, pause 1), with the keyboard unread. Ready in COMMAND mode: as `ReadCommand`, stopping exactly on an exhausted keyboard queue and otherwise reading its `NextChunk` and leaving `Remainder`. The branch stops the loop only on a failed keyboard read. In all cases the modem line gets `FromOperator` of what was typed, and the pseudo terminal, the screen and the keyboard get nothing. The pauses are 2 and 1 seconds for the escape and none otherwise. |
| Relay.HandleTty | muxer.c:151-163 | When taken, it stops with `EndOfStream(Tty)` exactly when the modem line's head delivery is empty or nothing is queued. Otherwise it reads `NextChunk` of that queue, leaves `Remainder`, and the chunk goes unchanged to the pseudo terminal in DATA mode and to the screen in COMMAND mode. Nothing is written to the modem line or the keyboard, nothing pauses, and no other queue moves. |
| Relay.HandlePty | muxer.c:164-172 | When taken, it stops with `EndOfStream(Pty)` exactly when the pseudo terminal's head delivery is empty or nothing is queued. Otherwise it reads `NextChunk` of that queue, leaves `Remainder`, and the chunk goes unchanged to the modem line. Nothing is written to the pseudo terminal, the screen or the keyboard, nothing pauses, and no other queue moves. |
| Iteration.ServeLines | muxer.c:151-172 | The modem-line branch, then the pseudo-terminal branch unless the first failed. The mode and the keyboard queue are unchanged, and the three invariants hold. |
| Iteration.LinesRouting | muxer.c:151-172 | Modem-line bytes reach the pseudo terminal in DATA mode and the screen in COMMAND mode. Pseudo-terminal bytes reach the modem line. The keyboard is neither read nor written. The modem line is read before the pseudo terminal. |
| Iteration.ServeReady | muxer.c:124-173 | The keyboard branch's effects come first and set the mode. The three invariants hold, and a stop is always an end of stream. The pseudo-terminal queue moves only if it was ready. In DATA mode, or with the keyboard not ready, the keyboard queue does not move. |
| Iteration.ServeTtyRouting | muxer.c:151-163 | Modem-line bytes go by the mode the keyboard branch left: to the pseudo terminal in DATA mode, to the screen in COMMAND mode. |
| Iteration.ServeModemInput | muxer.c:125-172 | The modem line receives the keyboard branch's output, then the pseudo terminal's bytes. The keyboard is read only by the keyboard branch. |
| Iteration.ServeReadOrder | muxer.c:125-172 | Reads happen in the order keyboard (COMMAND mode only), modem line, pseudo terminal, once per ready descriptor. The list is complete unless a read failed, in which case it is a prefix. |
| Iteration.Step | muxer.c:107-174 | One iteration keeps the three invariants. A failed `select` stops the loop with nothing done, and is the only way to stop with `SelectFailed`. A timeout does nothing. |
| Iteration.StepReadOrder | muxer.c:108-172 | The reads of an iteration follow `Planned(mode, reported)`. The keyboard is read only in COMMAND mode and the pseudo terminal only if it was watched. Only a failed read cuts the list short. |
| Iteration.StepRouting | muxer.c:125-172 | Modem-line bytes go to the pseudo terminal or the screen by the mode after the keyboard branch. The modem line receives the operator's part, then the pseudo terminal's bytes. The keyboard receives nothing. |
| Iteration.StepModeChange | muxer.c:125-148 | The mode changes only when the keyboard is ready. In DATA mode a ready keyboard always gives COMMAND mode. In COMMAND mode the switch to DATA happens exactly when the chunk read is a lone line feed. |
| Iteration.StepLeavesQueued | muxer.c:108-135 | In DATA mode the keyboard is neither read nor consumed. In COMMAND mode the pseudo terminal is neither read nor consumed. A keyboard that was not ready is not consumed. |
| Iteration.StepPauses | muxer.c:125-172 | `sleep` is called only around the escape: an iteration pauses 2 and then 1 seconds exactly when it starts in DATA mode and the keyboard is ready, and never otherwise. |
| Iteration.StepStopsAtEnd | muxer.c:134-171 | A planned read of an exhausted queue ends the iteration with end of stream, because that read fails unless an earlier read of the same iteration already failed. |
| Iteration.StepStopCause | muxer.c:134-171 | Conversely, an iteration that stops, after `select` succeeded, stops with end of stream on a planned descriptor whose queue was exhausted when the iteration began. |
| Iteration.StepEscape | muxer.c:125-172 | A ready keyboard in DATA mode: the escape sequence comes first and the mode becomes COMMAND. The keyboard is untouched. The modem line gets `+++` and then the pseudo terminal's bytes. The screen gets the modem-line chunk, and the pseudo terminal gets nothing. |
| Iteration.StepCommandInput | muxer.c:133-148 | A ready keyboard in COMMAND mode: DATA mode comes back exactly on a lone line feed, which reaches nobody. Any other chunk reaches the modem line as `CommandText`. |
| Loop.RunKeeps | muxer.c:106-175 | A whole run keeps the three invariants. No byte is lost or invented, chunks are 1 to 64 bytes, nothing is written to the keyboard or read from the screen, and the first failed read ends the run. |
| Loop.RunningSawNoFailure | muxer.c:117-121 | A run that has not stopped met no failed `select`. |
| Loop.TransparentRun | muxer.c:106-175 | The `while` loop that carries the context produces exactly the effects, status, mode and remaining input of the run, and changes no context field but the mode. |
| LoopProperties.DataRelayIsTransparent | muxer.c:108-172 | In DATA mode with the keyboard never ready, everything read from the modem line is written to the pseudo terminal and vice versa, in order. Nothing reaches the screen or the keyboard, the keyboard is neither read nor consumed, nothing pauses, and the mode stays DATA. |
| LoopProperties.CommandModeEcho | muxer.c:108-163 | In COMMAND mode with the keyboard never ready, everything read from the modem line is shown on the screen, in order. Nothing is written to the modem, the pseudo terminal or the keyboard, the pseudo terminal and keyboard queues are untouched, nothing pauses, and the mode stays COMMAND. |
| LoopProperties.TypedCommandFollowsEscape | muxer.c:125-145 | A chunk typed in DATA mode: the first iteration sends the escape sequence. If nothing failed, the iteration right after the escape, when it sees the keyboard, begins by reading that chunk and sending it, line feeds made carriage returns, to the modem. |

## Left out

- `create_pty`, `open_tty` and `main` (muxer.c:26-64, 177-200): opening and
  configuring terminals, the `/tmp/modem` symlink and the exit code are system
  calls with nothing to model beyond their results. The model starts from a
  context.
- The `select` call, `fd_set` and the one-second timeout are not modelled as
  system calls. Each iteration takes the outcome of `select` as a parameter. The
  loop is run over a finite schedule of such outcomes, because the C loop only
  ends on a failure.
- `sleep(2)` and `sleep(1)` appear as `Pause` markers. Time itself is not
  modelled.
- `write` return values are ignored by the code. The model assumes every write
  delivers its whole chunk, so short writes and write errors are not represented.
- The `fprintf` diagnostics on standard error are not modelled.
- Descriptor numbers are assumed distinct. If two of them were equal, a single
  `FD_ISSET` would answer for both; the model treats the four endpoints as
  separate.
- Descriptors at or above `FD_SETSIZE`, and negative descriptors passed to
  `FD_SET`, are not modelled.
- The signedness of C `char` plays no part: the code only compares bytes for
  equality, and the model works on values 0 to 255.
