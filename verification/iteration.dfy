/** One complete pass of the `for(;;)` body of `transparent_run`. */
module Iteration {
  import opened Bytes
  import opened Seqs
  import opened Context
  import opened Descriptors
  import opened Relay

  /** The read of `e` that one branch performs: `[e]` when the branch is taken, else nothing. */
  function ReadIf(b: bool, e: Endpoint): seq<Endpoint>
  {
    if b then [e] else []
  }

  /** The modem-line branch followed, unless it failed, by the pseudo-terminal branch.
      Neither changes the mode or touches the keyboard. */
  function ServeLines(mode: Mode, ttyReady: bool, ptyReady: bool, s: Streams): (r: Outcome)
    ensures Conserves(s, r.effects, r.streams) && WellFormed(r.effects) && FailFast(r)
    ensures r.status.Running? || r.status.cause.EndOfStream?
    ensures r.mode == mode && r.streams.keyboard == s.keyboard
    ensures !ptyReady ==> r.streams.pty == s.pty
  {
    var t := HandleTty(mode, ttyReady, s);
    if t.status.Stopped? then t
    else
      var p := HandlePty(t.mode, ptyReady, t.streams);
      ThenKeeps(s, t, p);
      Then(t, p)
  }

  /** Modem-line bytes go by the mode the line branches are given; pseudo-terminal bytes
      go to the modem line; the modem line is read before the pseudo terminal. */
  lemma LinesRouting(mode: Mode, ttyReady: bool, ptyReady: bool, s: Streams)
    ensures var r := ServeLines(mode, ttyReady, ptyReady, s);
      && BytesRead(r.effects, Keyboard) == []
      && BytesWritten(r.effects, Pty) == (if mode == Data then BytesRead(r.effects, Tty) else [])
      && BytesWritten(r.effects, Screen) == (if mode == Command then BytesRead(r.effects, Tty) else [])
      && BytesWritten(r.effects, Tty) == BytesRead(r.effects, Pty)
      && BytesWritten(r.effects, Keyboard) == []
      && ReadSources(r.effects) <= ReadIf(ttyReady, Tty) + ReadIf(ptyReady, Pty)
      && (r.status.Running? ==> ReadSources(r.effects) == ReadIf(ttyReady, Tty) + ReadIf(ptyReady, Pty))
  {
    LinesBytes(mode, ttyReady, ptyReady, s);
    LinesReadOrder(mode, ttyReady, ptyReady, s);
  }

  /** The byte routing part of `LinesRouting`. */
  lemma LinesBytes(mode: Mode, ttyReady: bool, ptyReady: bool, s: Streams)
    ensures var r := ServeLines(mode, ttyReady, ptyReady, s);
      && BytesRead(r.effects, Keyboard) == []
      && BytesWritten(r.effects, Pty) == (if mode == Data then BytesRead(r.effects, Tty) else [])
      && BytesWritten(r.effects, Screen) == (if mode == Command then BytesRead(r.effects, Tty) else [])
      && BytesWritten(r.effects, Tty) == BytesRead(r.effects, Pty)
      && BytesWritten(r.effects, Keyboard) == []
  {
    var t := HandleTty(mode, ttyReady, s);
    if !t.status.Stopped? {
      var p := HandlePty(t.mode, ptyReady, t.streams);
      LinesCompose(mode, t, p);
    }
  }

  /** The read-order part of `LinesRouting`. */
  lemma LinesReadOrder(mode: Mode, ttyReady: bool, ptyReady: bool, s: Streams)
    ensures var r := ServeLines(mode, ttyReady, ptyReady, s);
      && ReadSources(r.effects) <= ReadIf(ttyReady, Tty) + ReadIf(ptyReady, Pty)
      && (r.status.Running? ==> ReadSources(r.effects) == ReadIf(ttyReady, Tty) + ReadIf(ptyReady, Pty))
  {
    var t := HandleTty(mode, ttyReady, s);
    if t.status.Stopped? {
      PrefixOfAppend(ReadIf(ttyReady, Tty), ReadIf(ptyReady, Pty));
    } else {
      var p := HandlePty(t.mode, ptyReady, t.streams);
      ReadSourcesAppend(t.effects, p.effects);
    }
  }

  /** The modem-line part of `LinesRouting`, on its own. */
  lemma LinesTtyRouting(mode: Mode, ttyReady: bool, ptyReady: bool, s: Streams)
    ensures var r := ServeLines(mode, ttyReady, ptyReady, s);
      && BytesWritten(r.effects, Pty) == (if r.mode == Data then BytesRead(r.effects, Tty) else [])
      && BytesWritten(r.effects, Screen) == (if r.mode == Command then BytesRead(r.effects, Tty) else [])
  {
    LinesBytes(mode, ttyReady, ptyReady, s);
  }

  /** The routing of the modem-line branch followed by the pseudo-terminal branch, from
      the routing of each. */
  lemma LinesCompose(mode: Mode, t: Outcome, p: Outcome)
    requires BytesRead(t.effects, Keyboard) == [] && BytesRead(t.effects, Pty) == []
    requires BytesWritten(t.effects, Tty) == [] && BytesWritten(t.effects, Keyboard) == []
    requires BytesWritten(t.effects, Pty) == (if mode == Data then BytesRead(t.effects, Tty) else [])
    requires BytesWritten(t.effects, Screen) == (if mode == Command then BytesRead(t.effects, Tty) else [])
    requires BytesRead(p.effects, Keyboard) == [] && BytesRead(p.effects, Tty) == []
    requires BytesWritten(p.effects, Pty) == [] && BytesWritten(p.effects, Screen) == []
    requires BytesWritten(p.effects, Keyboard) == [] && BytesWritten(p.effects, Tty) == BytesRead(p.effects, Pty)
    ensures var r := Then(t, p);
      && BytesRead(r.effects, Keyboard) == []
      && BytesWritten(r.effects, Pty) == (if mode == Data then BytesRead(r.effects, Tty) else [])
      && BytesWritten(r.effects, Screen) == (if mode == Command then BytesRead(r.effects, Tty) else [])
      && BytesWritten(r.effects, Tty) == BytesRead(r.effects, Pty)
      && BytesWritten(r.effects, Keyboard) == []
  {
    assert Then(t, p).effects == t.effects + p.effects;
    BytesReadAppend(t.effects, p.effects, Keyboard);
    BytesReadAppend(t.effects, p.effects, Tty);
    BytesReadAppend(t.effects, p.effects, Pty);
    BytesWrittenAppend(t.effects, p.effects, Keyboard);
    BytesWrittenAppend(t.effects, p.effects, Tty);
    BytesWrittenAppend(t.effects, p.effects, Pty);
    BytesWrittenAppend(t.effects, p.effects, Screen);
    AppendEmpty(BytesRead(t.effects, Tty));
  }

  /** The ready descriptors, handled in the order keyboard, modem line, pseudo terminal.
      The modem-line branch sees the mode the keyboard branch left; the pseudo-terminal
      branch is taken on the readiness set built before either ran. The first failed
      read ends the iteration. */
  function ServeReady(mode: Mode, fdIn: set<Endpoint>, s: Streams): (r: Outcome)
    ensures Conserves(s, r.effects, r.streams) && WellFormed(r.effects) && FailFast(r)
    ensures r.status.Running? || r.status.cause.EndOfStream?
    ensures var k := HandleKeyboard(mode, Keyboard in fdIn, s); k.effects <= r.effects && r.mode == k.mode
    ensures Pty !in fdIn ==> r.streams.pty == s.pty
    ensures mode == Data || Keyboard !in fdIn ==> r.streams.keyboard == s.keyboard
  {
    var k := HandleKeyboard(mode, Keyboard in fdIn, s);
    if k.status.Stopped? then k
    else
      var l := ServeLines(k.mode, Tty in fdIn, Pty in fdIn, k.streams);
      ThenKeeps(s, k, l);
      Then(k, l)
  }

  /** Modem-line bytes go to the pseudo terminal if the mode after the keyboard branch is
      DATA and to the screen otherwise. */
  lemma ServeTtyRouting(mode: Mode, fdIn: set<Endpoint>, s: Streams)
    ensures var r := ServeReady(mode, fdIn, s);
      && BytesWritten(r.effects, Pty) == (if r.mode == Data then BytesRead(r.effects, Tty) else [])
      && BytesWritten(r.effects, Screen) == (if r.mode == Command then BytesRead(r.effects, Tty) else [])
  {
    var k := HandleKeyboard(mode, Keyboard in fdIn, s);
    var l := ServeLines(k.mode, Tty in fdIn, Pty in fdIn, k.streams);
    ServeSplits(mode, fdIn, s);
    LinesTtyRouting(k.mode, Tty in fdIn, Pty in fdIn, k.streams);
    TtyAfterKeyboard(k, l, ServeReady(mode, fdIn, s));
  }

  /** The effects and final mode of an iteration whose keyboard branch did not fail are
      those of the keyboard branch followed by the line branches. */
  lemma ServeSplits(mode: Mode, fdIn: set<Endpoint>, s: Streams)
    ensures var k := HandleKeyboard(mode, Keyboard in fdIn, s);
      var r := ServeReady(mode, fdIn, s);
      && (k.status.Stopped? ==> r.effects == k.effects && r.mode == k.mode && r.status == k.status)
      && (k.status.Running? ==>
            var l := ServeLines(k.mode, Tty in fdIn, Pty in fdIn, k.streams);
            r.effects == k.effects + l.effects && r.mode == l.mode && r.status == l.status)
  {
  }

  /** The keyboard branch neither reads the modem line nor writes the pseudo terminal or
      the screen, so the line branches' routing carries over to the two together. */
  lemma TtyAfterKeyboard(k: Outcome, l: Outcome, r: Outcome)
    requires BytesRead(k.effects, Tty) == []
    requires BytesWritten(k.effects, Pty) == [] && BytesWritten(k.effects, Screen) == []
    requires k.status.Stopped? ==> r.effects == k.effects
    requires k.status.Running? ==> r.effects == k.effects + l.effects && r.mode == l.mode
    requires BytesWritten(l.effects, Pty) == (if l.mode == Data then BytesRead(l.effects, Tty) else [])
    requires BytesWritten(l.effects, Screen) == (if l.mode == Command then BytesRead(l.effects, Tty) else [])
    ensures BytesWritten(r.effects, Pty) == (if r.mode == Data then BytesRead(r.effects, Tty) else [])
    ensures BytesWritten(r.effects, Screen) == (if r.mode == Command then BytesRead(r.effects, Tty) else [])
  {
    if k.status.Stopped? {
      return;
    }
    BytesReadAppend(k.effects, l.effects, Tty);
    BytesWrittenAppend(k.effects, l.effects, Pty);
    BytesWrittenAppend(k.effects, l.effects, Screen);
  }

  /** The modem line receives what the keyboard branch sent, then the pseudo terminal's
      bytes; the keyboard is read only by the keyboard branch. */
  lemma ServeModemInput(mode: Mode, fdIn: set<Endpoint>, s: Streams)
    ensures var r := ServeReady(mode, fdIn, s);
      var k := HandleKeyboard(mode, Keyboard in fdIn, s);
      && BytesRead(r.effects, Keyboard) == BytesRead(k.effects, Keyboard)
      && BytesWritten(r.effects, Tty) == BytesWritten(k.effects, Tty) + BytesRead(r.effects, Pty)
  {
    var k := HandleKeyboard(mode, Keyboard in fdIn, s);
    if k.status.Stopped? {
      AppendEmpty(BytesWritten(k.effects, Tty));
    } else {
      LinesRouting(k.mode, Tty in fdIn, Pty in fdIn, k.streams);
      ModemInputAfterKeyboard(k, ServeLines(k.mode, Tty in fdIn, Pty in fdIn, k.streams));
    }
  }

  /** The modem line and keyboard observations of the keyboard branch followed by the
      line branches. */
  lemma ModemInputAfterKeyboard(k: Outcome, l: Outcome)
    requires BytesRead(k.effects, Pty) == [] && BytesWritten(l.effects, Tty) == BytesRead(l.effects, Pty)
    requires BytesRead(l.effects, Keyboard) == []
    ensures BytesRead(Then(k, l).effects, Keyboard) == BytesRead(k.effects, Keyboard)
    ensures BytesWritten(Then(k, l).effects, Tty) == BytesWritten(k.effects, Tty) + BytesRead(Then(k, l).effects, Pty)
  {
    var both := Then(k, l).effects;
    assert both == k.effects + l.effects;
    BytesReadAppend(k.effects, l.effects, Keyboard);
    BytesReadAppend(k.effects, l.effects, Pty);
    BytesWrittenAppend(k.effects, l.effects, Tty);
    AppendEmpty(BytesRead(k.effects, Keyboard));
    assert BytesRead(both, Pty) == BytesRead(l.effects, Pty);
  }

  /** Reads happen in the order keyboard, modem line, pseudo terminal, once for each
      ready descriptor, the keyboard only in COMMAND mode; a failed read cuts the list
      short. */
  lemma ServeReadOrder(mode: Mode, fdIn: set<Endpoint>, s: Streams)
    ensures var r := ServeReady(mode, fdIn, s);
      var plan := ReadIf(mode == Command && Keyboard in fdIn, Keyboard) + ReadIf(Tty in fdIn, Tty) + ReadIf(Pty in fdIn, Pty);
      && ReadSources(r.effects) <= plan
      && (r.status.Running? ==> ReadSources(r.effects) == plan)
  {
    var k := HandleKeyboard(mode, Keyboard in fdIn, s);
    var kr := ReadIf(mode == Command && Keyboard in fdIn, Keyboard);
    var lr := ReadIf(Tty in fdIn, Tty) + ReadIf(Pty in fdIn, Pty);
    AppendAssoc(kr, ReadIf(Tty in fdIn, Tty), ReadIf(Pty in fdIn, Pty));
    ServeReadOrderSplit(mode, fdIn, s, kr, lr);
  }

  lemma ServeReadOrderSplit(mode: Mode, fdIn: set<Endpoint>, s: Streams, kr: seq<Endpoint>, lr: seq<Endpoint>)
    requires kr == ReadIf(mode == Command && Keyboard in fdIn, Keyboard)
    requires lr == ReadIf(Tty in fdIn, Tty) + ReadIf(Pty in fdIn, Pty)
    ensures var r := ServeReady(mode, fdIn, s);
      && ReadSources(r.effects) <= kr + lr
      && (r.status.Running? ==> ReadSources(r.effects) == kr + lr)
  {
    var k := HandleKeyboard(mode, Keyboard in fdIn, s);
    assert ReadSources(k.effects) == kr;
    if k.status.Stopped? {
      assert ServeReady(mode, fdIn, s).effects == k.effects;
      PrefixOfAppend(kr, lr);
    } else {
      var l := ServeLines(k.mode, Tty in fdIn, Pty in fdIn, k.streams);
      assert ServeReady(mode, fdIn, s).effects == Then(k, l).effects;
      assert ServeReady(mode, fdIn, s).status == l.status;
      LinesRouting(k.mode, Tty in fdIn, Pty in fdIn, k.streams);
      ReadOrderAfterKeyboard(k, l, kr, lr);
    }
  }

  /** Read order of the keyboard branch followed by the line branches. */
  lemma ReadOrderAfterKeyboard(k: Outcome, l: Outcome, kr: seq<Endpoint>, lr: seq<Endpoint>)
    requires ReadSources(k.effects) == kr
    requires ReadSources(l.effects) <= lr
    requires l.status.Running? ==> ReadSources(l.effects) == lr
    ensures ReadSources(Then(k, l).effects) <= kr + lr
    ensures Then(k, l).status.Running? ==> ReadSources(Then(k, l).effects) == kr + lr
  {
    ThenObserve(k, l);
    var ls := ReadSources(l.effects);
    assert lr[..|ls|] == ls;
    assert (kr + lr)[..|kr + ls|] == kr + ls;
  }

  /** One iteration: `select` on the watched set, then the ready branches. A failed
      `select` stops the loop with nothing done; a timeout does nothing at all. */
  function Step(mode: Mode, sel: SelectOutcome, s: Streams): (r: Outcome)
    ensures Conserves(s, r.effects, r.streams) && WellFormed(r.effects) && FailFast(r)
    ensures sel == SelectError ==> r == Outcome(mode, [], Stopped(SelectFailed), s)
    ensures sel == Timeout ==> r == Outcome(mode, [], Running, s)
    ensures r.status == Stopped(SelectFailed) ==> sel == SelectError
  {
    match sel
    case SelectError => Outcome(mode, [], Stopped(SelectFailed), s)
    case Timeout => Idle(mode, s)
    case Ready(reported) => ServeReady(mode, reported * Watched(mode), s)
  }

  /** Whether `select` reported the keyboard readable. */
  predicate KeyboardReady(sel: SelectOutcome)
  {
    sel.Ready? && Keyboard in sel.ready
  }

  /** The reads an iteration that runs to completion performs, in order: the keyboard
      only in COMMAND mode, the modem line whenever it is ready, the pseudo terminal only
      when it was watched, that is in DATA mode at the start of the iteration. */
  function Planned(mode: Mode, reported: set<Endpoint>): seq<Endpoint>
  {
    ReadIf(mode == Command && Keyboard in reported, Keyboard) + ReadIf(Tty in reported, Tty)
      + ReadIf(mode == Data && Pty in reported, Pty)
  }

  /** Each ready descriptor is read once, in the order keyboard, modem line, pseudo
      terminal; the pseudo terminal only when the iteration began in DATA mode; a failed
      read cuts the list short. */
  lemma StepReadOrder(mode: Mode, reported: set<Endpoint>, s: Streams)
    ensures var r := Step(mode, Ready(reported), s);
      && ReadSources(r.effects) <= Planned(mode, reported)
      && (r.status.Running? ==> ReadSources(r.effects) == Planned(mode, reported))
  {
    var fdIn := reported * Watched(mode);
    assert Planned(mode, reported)
      == ReadIf(mode == Command && Keyboard in fdIn, Keyboard) + ReadIf(Tty in fdIn, Tty) + ReadIf(Pty in fdIn, Pty);
    ServeReadOrder(mode, fdIn, s);
  }

  /** Where every byte goes. Modem-line bytes go unchanged to the pseudo terminal if the
      mode after the keyboard branch is DATA, and to the screen otherwise; the modem line
      receives the operator's part followed, unchanged, by the pseudo terminal's bytes;
      the keyboard receives nothing. */
  lemma StepRouting(mode: Mode, reported: set<Endpoint>, s: Streams)
    ensures var r := Step(mode, Ready(reported), s);
      && BytesWritten(r.effects, Pty) == (if r.mode == Data then BytesRead(r.effects, Tty) else [])
      && BytesWritten(r.effects, Screen) == (if r.mode == Command then BytesRead(r.effects, Tty) else [])
      && BytesWritten(r.effects, Tty) ==
           FromOperator(mode, Keyboard in reported, BytesRead(r.effects, Keyboard)) + BytesRead(r.effects, Pty)
      && BytesWritten(r.effects, Keyboard) == []
  {
    var fdIn := reported * Watched(mode);
    ServeTtyRouting(mode, fdIn, s);
    ServeModemInput(mode, fdIn, s);
    WellFormedDirections(Step(mode, Ready(reported), s).effects);
  }

  /** The mode changes only when the keyboard is ready. In DATA mode a ready keyboard
      always switches to COMMAND; in COMMAND mode the switch back happens exactly when the
      chunk read from the keyboard is a lone line feed. */
  lemma StepModeChange(mode: Mode, sel: SelectOutcome, s: Streams)
    ensures var r := Step(mode, sel, s);
      && (!KeyboardReady(sel) ==> r.mode == mode)
      && (mode == Data ==> (r.mode == Command <==> KeyboardReady(sel)))
      && (mode == Command ==> (r.mode == Data <==> BytesRead(r.effects, Keyboard) == [LF]))
  {
    if sel.Ready? {
      ServeModemInput(mode, sel.ready * Watched(mode), s);
    }
  }

  /** What each mode leaves alone. In DATA mode the keyboard is never read, so typed bytes
      stay queued; in COMMAND mode the pseudo terminal is never read, so its bytes stay
      queued until DATA mode returns. */
  lemma StepLeavesQueued(mode: Mode, sel: SelectOutcome, s: Streams)
    ensures var r := Step(mode, sel, s);
      && (mode == Data ==> r.streams.keyboard == s.keyboard && Keyboard !in ReadSources(r.effects))
      && (mode == Command ==> r.streams.pty == s.pty && Pty !in ReadSources(r.effects))
      && (!KeyboardReady(sel) ==> r.streams.keyboard == s.keyboard)
  {
    StepFrame(mode, sel, s);
    StepUnread(mode, sel, s);
  }

  /** The descriptor a mode does not read: the keyboard in DATA mode, the pseudo
      terminal in COMMAND mode. */
  lemma StepUnread(mode: Mode, sel: SelectOutcome, s: Streams)
    ensures var r := Step(mode, sel, s);
      && (mode == Data ==> Keyboard !in ReadSources(r.effects))
      && (mode == Command ==> Pty !in ReadSources(r.effects))
  {
    if sel.Ready? {
      var reported := sel.ready;
      assert sel == Ready(reported);
      var e := if mode == Data then Keyboard else Pty;
      OutsidePlan(mode, reported, e);
      Unplanned(mode, reported, s, e);
    }
  }

  /** DATA mode never plans a keyboard read, COMMAND mode never a pseudo-terminal read. */
  lemma OutsidePlan(mode: Mode, reported: set<Endpoint>, e: Endpoint)
    requires e == if mode == Data then Keyboard else Pty
    ensures e !in Planned(mode, reported)
  {
    var a := ReadIf(mode == Command && Keyboard in reported, Keyboard);
    var b := ReadIf(Tty in reported, Tty);
    var c := ReadIf(mode == Data && Pty in reported, Pty);
    assert e !in a && e !in b && e !in c;
  }

  /** The queues an iteration cannot consume: the keyboard's in DATA mode or when it was
      not reported, the pseudo terminal's in COMMAND mode. */
  lemma StepFrame(mode: Mode, sel: SelectOutcome, s: Streams)
    ensures var r := Step(mode, sel, s);
      && (mode == Data || !KeyboardReady(sel) ==> r.streams.keyboard == s.keyboard)
      && (mode == Command ==> r.streams.pty == s.pty)
  {
    if sel.Ready? {
      assert mode == Command ==> Pty !in sel.ready * Watched(mode);
    }
  }

  /** A descriptor outside the plan of an iteration is not read by it. */
  lemma Unplanned(mode: Mode, reported: set<Endpoint>, s: Streams, e: Endpoint)
    requires e !in Planned(mode, reported)
    ensures e !in ReadSources(Step(mode, Ready(reported), s).effects)
  {
    StepReadOrder(mode, reported, s);
    NotInPrefix(ReadSources(Step(mode, Ready(reported), s).effects), Planned(mode, reported), e);
  }

  /** A ready keyboard in DATA mode: the escape sequence comes first, the mode becomes
      COMMAND, the keyboard is not read, the modem-line chunk of the same iteration goes to
      the screen, and the pseudo terminal, watched because the iteration began in DATA mode,
      still reaches the modem line after the escape token. */
  lemma StepEscape(reported: set<Endpoint>, s: Streams)
    requires Keyboard in reported
    ensures var r := Step(Data, Ready(reported), s);
      && r.mode == Command
      && EscapeSequence <= r.effects
      && r.streams.keyboard == s.keyboard && BytesRead(r.effects, Keyboard) == []
      && BytesWritten(r.effects, Tty) == EscapeToken + BytesRead(r.effects, Pty)
      && BytesWritten(r.effects, Screen) == BytesRead(r.effects, Tty)
      && BytesWritten(r.effects, Pty) == []
  {
    StepRouting(Data, reported, s);
    StepModeChange(Data, Ready(reported), s);
    StepLeavesQueued(Data, Ready(reported), s);
    UnreadSource(Step(Data, Ready(reported), s).effects, Keyboard);
  }

  /** A ready keyboard in COMMAND mode: a lone line feed returns to DATA mode and reaches
      nobody; any other chunk reaches the modem line with its line feeds made carriage
      returns, and the mode stays COMMAND. */
  lemma StepCommandInput(reported: set<Endpoint>, s: Streams)
    requires Keyboard in reported
    ensures var r := Step(Command, Ready(reported), s);
      var typed := BytesRead(r.effects, Keyboard);
      && (r.mode == Data <==> typed == [LF])
      && BytesWritten(r.effects, Tty) == (if typed == [LF] then [] else CommandText(typed))
  {
    StepRouting(Command, reported, s);
    StepModeChange(Command, Ready(reported), s);
    StepLeavesQueued(Command, Ready(reported), s);
    var r := Step(Command, Ready(reported), s);
    UnreadSource(r.effects, Pty);
    AppendEmpty(BytesWritten(r.effects, Tty));
  }

  /** The line branches never pause. */
  lemma LinesPauses(mode: Mode, ttyReady: bool, ptyReady: bool, s: Streams)
    ensures Pauses(ServeLines(mode, ttyReady, ptyReady, s).effects) == []
  {
    var t := HandleTty(mode, ttyReady, s);
    if t.status.Running? {
      PausesAppend(t.effects, HandlePty(t.mode, ptyReady, t.streams).effects);
    }
  }

  /** The pauses of the ready branches are those of the keyboard branch. */
  lemma ServePauses(mode: Mode, fdIn: set<Endpoint>, s: Streams)
    ensures Pauses(ServeReady(mode, fdIn, s).effects) == if mode == Data && Keyboard in fdIn then [2, 1] else []
  {
    var k := HandleKeyboard(mode, Keyboard in fdIn, s);
    var l := ServeLines(k.mode, Tty in fdIn, Pty in fdIn, k.streams);
    ServeSplits(mode, fdIn, s);
    LinesPauses(k.mode, Tty in fdIn, Pty in fdIn, k.streams);
    PausesAppend(k.effects, l.effects);
    AppendEmpty(Pauses(k.effects));
  }

  /** `sleep` is called only around the escape token: an iteration pauses two seconds
      and then one exactly when it starts in DATA mode and the keyboard is ready, and
      never otherwise. */
  lemma StepPauses(mode: Mode, sel: SelectOutcome, s: Streams)
    ensures Pauses(Step(mode, sel, s).effects) == if mode == Data && KeyboardReady(sel) then [2, 1] else []
  {
    if sel.Ready? {
      assert Keyboard in sel.ready * Watched(mode) <==> Keyboard in sel.ready;
      ServePauses(mode, sel.ready * Watched(mode), s);
    }
  }

  /** Whether the queue of `e` ends before its next byte: the next read of `e` returns
      end of stream or an error. */
  predicate Exhausted(s: Streams, e: Endpoint)
  {
    AtEnd(Pending(s, e))
  }

  /** The line branches stop exactly when a taken branch meets an exhausted queue, and
      the cause names that branch's descriptor. */
  lemma LinesStop(mode: Mode, ttyReady: bool, ptyReady: bool, s: Streams)
    ensures var r := ServeLines(mode, ttyReady, ptyReady, s);
      && ((ttyReady && AtEnd(s.tty)) || (ptyReady && AtEnd(s.pty)) ==> r.status.Stopped?)
      && (r.status.Stopped? ==>
            || (r.status == Stopped(EndOfStream(Tty)) && ttyReady && AtEnd(s.tty))
            || (r.status == Stopped(EndOfStream(Pty)) && ptyReady && AtEnd(s.pty)))
  {
    var t := HandleTty(mode, ttyReady, s);
    if t.status.Running? {
      var p := HandlePty(t.mode, ptyReady, t.streams);
      assert ServeLines(mode, ttyReady, ptyReady, s).status == p.status;
    }
  }

  /** The ready branches stop exactly when a descriptor they read meets an exhausted
      queue, and the cause names that descriptor. */
  lemma ServeStop(mode: Mode, fdIn: set<Endpoint>, s: Streams)
    ensures var r := ServeReady(mode, fdIn, s);
      var kb := mode == Command && Keyboard in fdIn;
      && ((kb && AtEnd(s.keyboard)) || (Tty in fdIn && AtEnd(s.tty)) || (Pty in fdIn && AtEnd(s.pty)) ==> r.status.Stopped?)
      && (r.status.Stopped? ==>
            || (r.status == Stopped(EndOfStream(Keyboard)) && kb && AtEnd(s.keyboard))
            || (r.status == Stopped(EndOfStream(Tty)) && Tty in fdIn && AtEnd(s.tty))
            || (r.status == Stopped(EndOfStream(Pty)) && Pty in fdIn && AtEnd(s.pty)))
  {
    var k := HandleKeyboard(mode, Keyboard in fdIn, s);
    ServeSplits(mode, fdIn, s);
    LinesStop(k.mode, Tty in fdIn, Pty in fdIn, k.streams);
  }

  /** A planned read of an exhausted queue ends the iteration with end of stream: that
      read fails, unless an earlier read of the same iteration already did. */
  lemma StepStopsAtEnd(mode: Mode, reported: set<Endpoint>, s: Streams, e: Endpoint)
    requires e in Planned(mode, reported) && Exhausted(s, e)
    ensures var r := Step(mode, Ready(reported), s);
      r.status.Stopped? && r.status.cause.EndOfStream?
  {
    var fdIn := reported * Watched(mode);
    InPlan(mode, reported, e);
    FdInPlan(mode, reported);
    ServeStop(mode, fdIn, s);
    assert Step(mode, Ready(reported), s).status == ServeReady(mode, fdIn, s).status;
  }

  /** Conversely, an iteration stops only on a planned read of an exhausted queue. */
  lemma StepStopCause(mode: Mode, reported: set<Endpoint>, s: Streams)
    ensures var r := Step(mode, Ready(reported), s);
      r.status.Stopped? ==>
        && r.status.cause.EndOfStream?
        && r.status.cause.source in Planned(mode, reported)
        && Exhausted(s, r.status.cause.source)
  {
    var fdIn := reported * Watched(mode);
    var st := ServeReady(mode, fdIn, s).status;
    assert Step(mode, Ready(reported), s).status == st;
    ServeStop(mode, fdIn, s);
    CauseInPlan(mode, reported, s, st);
  }

  /** A stop the ready branches report names a planned descriptor with an exhausted queue. */
  lemma CauseInPlan(mode: Mode, reported: set<Endpoint>, s: Streams, st: Status)
    requires var fdIn := reported * Watched(mode);
      st.Stopped? ==>
        || (st == Stopped(EndOfStream(Keyboard)) && mode == Command && Keyboard in fdIn && AtEnd(s.keyboard))
        || (st == Stopped(EndOfStream(Tty)) && Tty in fdIn && AtEnd(s.tty))
        || (st == Stopped(EndOfStream(Pty)) && Pty in fdIn && AtEnd(s.pty))
    ensures st.Stopped? ==>
      st.cause.EndOfStream? && st.cause.source in Planned(mode, reported) && Exhausted(s, st.cause.source)
  {
    FdInPlan(mode, reported);
    if st.Stopped? {
      InPlan(mode, reported, st.cause.source);
    }
  }

  /** The descriptors the branches are given: the reported ones that the mode watches. */
  lemma FdInPlan(mode: Mode, reported: set<Endpoint>)
    ensures Keyboard in reported * Watched(mode) <==> Keyboard in reported
    ensures Tty in reported * Watched(mode) <==> Tty in reported
    ensures Pty in reported * Watched(mode) <==> mode == Data && Pty in reported
  {
  }

  /** Which descriptors an iteration plans to read. */
  lemma InPlan(mode: Mode, reported: set<Endpoint>, e: Endpoint)
    ensures e in Planned(mode, reported) <==>
      || (e == Keyboard && mode == Command && Keyboard in reported)
      || (e == Tty && Tty in reported)
      || (e == Pty && mode == Data && Pty in reported)
  {
  }
}
