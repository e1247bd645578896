/** Properties of whole runs of the relay loop: what a stretch of iterations in one
    mode does, and the order in which an escape and a typed command reach the modem. */
module LoopProperties {
  import opened Bytes
  import opened Seqs
  import opened Context
  import opened Descriptors
  import opened Relay
  import opened Iteration
  import opened Loop

  // ---------------------------------------------------------------------------
  // DATA mode with a quiet keyboard: a transparent relay
  // ---------------------------------------------------------------------------

  /** What `r` did, starting from `s`, is a transparent relay: the mode is DATA, the
      keyboard is neither read nor consumed, everything read from the modem line went to
      the pseudo terminal and everything read from the pseudo terminal went to the modem
      line, in order, neither the screen nor the keyboard got anything, and there was
      no pause. */
  predicate Transparent(s: Streams, r: Outcome)
  {
    && r.mode == Data
    && r.streams.keyboard == s.keyboard
    && BytesRead(r.effects, Keyboard) == []
    && BytesWritten(r.effects, Pty) == BytesRead(r.effects, Tty)
    && BytesWritten(r.effects, Tty) == BytesRead(r.effects, Pty)
    && BytesWritten(r.effects, Screen) == [] && BytesWritten(r.effects, Keyboard) == []
    && Pauses(r.effects) == []
  }

  lemma StepTransparent(sel: SelectOutcome, s: Streams)
    requires !KeyboardReady(sel)
    ensures Transparent(s, Step(Data, sel, s))
  {
    var r := Step(Data, sel, s);
    StepPauses(Data, sel, s);
    StepModeChange(Data, sel, s);
    StepLeavesQueued(Data, sel, s);
    if sel.Ready? {
      StepRouting(Data, sel.ready, s);
      UnreadSource(r.effects, Keyboard);
    }
  }

  lemma ThenTransparent(s: Streams, a: Outcome, b: Outcome)
    requires Transparent(s, a) && Transparent(a.streams, b)
    ensures Transparent(s, Then(a, b))
  {
    ThenObserve(a, b);
  }

  /** One turn of the induction: a transparent step followed by a transparent rest. */
  lemma TransparentTurn(schedule: seq<SelectOutcome>, s: Streams)
    requires schedule != []
    requires Transparent(s, Step(Data, schedule[0], s))
    requires var h := Step(Data, schedule[0], s);
      h.status.Running? ==> Transparent(h.streams, Run(Data, schedule[1..], h.streams))
    ensures Transparent(s, Run(Data, schedule, s))
  {
    var h := Step(Data, schedule[0], s);
    RunUnfold(Data, schedule, s);
    if h.status.Running? {
      ThenTransparent(s, h, Run(Data, schedule[1..], h.streams));
    }
  }

  /** Left in DATA mode with the keyboard never ready, the muxer relays the modem line
      and the pseudo terminal to each other unchanged and touches nothing else. */
  lemma {:induction false} DataRelayIsTransparent(schedule: seq<SelectOutcome>, s: Streams)
    requires forall i :: 0 <= i < |schedule| ==> !KeyboardReady(schedule[i])
    ensures Transparent(s, Run(Data, schedule, s))
    decreases |schedule|
  {
    if schedule != [] {
      var h := Step(Data, schedule[0], s);
      StepTransparent(schedule[0], s);
      if h.status.Running? {
        assert forall i :: 0 <= i < |schedule[1..]| ==> schedule[1..][i] == schedule[i + 1];
        DataRelayIsTransparent(schedule[1..], h.streams);
      }
      TransparentTurn(schedule, s);
    }
  }

  // ---------------------------------------------------------------------------
  // COMMAND mode with a quiet keyboard: the modem talks to the screen
  // ---------------------------------------------------------------------------

  /** What `r` did, starting from `s`, is COMMAND-mode echo: the mode stays COMMAND,
      neither the keyboard nor the pseudo terminal is read or consumed, everything read
      from the modem line went to the screen, in order, nothing else was written, and
      there was no pause. */
  predicate Echoing(s: Streams, r: Outcome)
  {
    && r.mode == Command
    && r.streams.keyboard == s.keyboard && r.streams.pty == s.pty
    && BytesRead(r.effects, Keyboard) == [] && BytesRead(r.effects, Pty) == []
    && BytesWritten(r.effects, Screen) == BytesRead(r.effects, Tty)
    && BytesWritten(r.effects, Tty) == [] && BytesWritten(r.effects, Pty) == []
    && BytesWritten(r.effects, Keyboard) == []
    && Pauses(r.effects) == []
  }

  /** In COMMAND mode an iteration that did not see the keyboard does not read it. */
  lemma QuietKeyboardUnread(reported: set<Endpoint>, s: Streams)
    requires Keyboard !in reported
    ensures BytesRead(Step(Command, Ready(reported), s).effects, Keyboard) == []
  {
    Unplanned(Command, reported, s, Keyboard);
    UnreadSource(Step(Command, Ready(reported), s).effects, Keyboard);
  }

  lemma StepEcho(sel: SelectOutcome, s: Streams)
    requires !KeyboardReady(sel)
    ensures Echoing(s, Step(Command, sel, s))
  {
    var r := Step(Command, sel, s);
    StepPauses(Command, sel, s);
    StepModeChange(Command, sel, s);
    StepLeavesQueued(Command, sel, s);
    if sel.Ready? {
      StepRouting(Command, sel.ready, s);
      QuietKeyboardUnread(sel.ready, s);
      UnreadSource(r.effects, Pty);
      assert |CommandText([])| == 0;
      AppendEmpty(CommandText([]));
    }
  }

  lemma ThenEcho(s: Streams, a: Outcome, b: Outcome)
    requires Echoing(s, a) && Echoing(a.streams, b)
    ensures Echoing(s, Then(a, b))
  {
    ThenObserve(a, b);
  }

  /** One turn of the induction: an echoing step followed by an echoing rest. */
  lemma EchoTurn(schedule: seq<SelectOutcome>, s: Streams)
    requires schedule != []
    requires Echoing(s, Step(Command, schedule[0], s))
    requires var h := Step(Command, schedule[0], s);
      h.status.Running? ==> Echoing(h.streams, Run(Command, schedule[1..], h.streams))
    ensures Echoing(s, Run(Command, schedule, s))
  {
    var h := Step(Command, schedule[0], s);
    RunUnfold(Command, schedule, s);
    if h.status.Running? {
      ThenEcho(s, h, Run(Command, schedule[1..], h.streams));
    }
  }

  /** Left in COMMAND mode with the keyboard never ready, the muxer shows the modem's
      output on the screen and leaves the pseudo terminal's bytes queued. */
  lemma {:induction false} CommandModeEcho(schedule: seq<SelectOutcome>, s: Streams)
    requires forall i :: 0 <= i < |schedule| ==> !KeyboardReady(schedule[i])
    ensures Echoing(s, Run(Command, schedule, s))
    decreases |schedule|
  {
    if schedule != [] {
      var h := Step(Command, schedule[0], s);
      StepEcho(schedule[0], s);
      if h.status.Running? {
        assert forall i :: 0 <= i < |schedule[1..]| ==> schedule[1..][i] == schedule[i + 1];
        CommandModeEcho(schedule[1..], h.streams);
      }
      EchoTurn(schedule, s);
    }
  }

  // ---------------------------------------------------------------------------
  // Escape, then a command
  // ---------------------------------------------------------------------------

  /** The first step of a COMMAND-mode run with the keyboard ready begins with the
      COMMAND-mode keyboard read. */
  lemma CommandStepStartsWithRead(second: set<Endpoint>, s: Streams)
    requires Keyboard in second
    ensures ReadCommand(s).effects <= Step(Command, Ready(second), s).effects
  {
    assert Keyboard in second * Watched(Command);
  }

  /** A one-iteration COMMAND-mode run that sees the keyboard, with chunk `c` queued
      there, starts by reading `c` and sending its modem-line form. */
  lemma CommandRunSendsTyped(second: set<Endpoint>, s: Streams, c: seq<byte>)
    requires Keyboard in second
    requires s.keyboard != [] && s.keyboard[0] == c
    requires 0 < |c| <= BufferSize && c != [LF]
    ensures [Read(Keyboard, Got(c)), Write(Tty, CommandText(c))] <= Run(Command, [Ready(second)], s).effects
  {
    var g := Step(Command, Ready(second), s);
    var t := Run(Command, [Ready(second)], s);
    RunUnfold(Command, [Ready(second)], s);
    if g.status.Running? {
      PrefixOfAppend(g.effects, Run(g.mode, [], g.streams).effects);
    }
    CommandStepStartsWithRead(second, s);
    ReadCommandTyped(s, c);
    PrefixTrans(ReadCommand(s).effects, g.effects, t.effects);
  }

  /** Typing while in DATA mode: the iteration that sees the keyboard sends the escape
      sequence and leaves the typed chunk queued; if nothing failed, the iteration right
      after the escape, when it sees the keyboard, reads that chunk and sends it to the
      modem line with its line feeds made carriage returns, before anything else it
      does. */
  lemma TypedCommandFollowsEscape(first: set<Endpoint>, second: set<Endpoint>, s: Streams, c: seq<byte>)
    requires Keyboard in first && Keyboard in second
    requires s.keyboard != [] && s.keyboard[0] == c
    requires 0 < |c| <= BufferSize && c != [LF]
    ensures var h := Step(Data, Ready(first), s);
      var r := Run(Data, [Ready(first), Ready(second)], s);
      && EscapeSequence <= r.effects
      && (h.status.Running? ==> h.effects + [Read(Keyboard, Got(c)), Write(Tty, CommandText(c))] <= r.effects)
  {
    var schedule := [Ready(first), Ready(second)];
    var h := Step(Data, Ready(first), s);
    StepEscape(first, s);
    RunUnfold(Data, schedule, s);
    if h.status.Running? {
      var t := Run(Command, [Ready(second)], h.streams);
      assert schedule[1..] == [Ready(second)];
      CommandRunSendsTyped(second, h.streams, c);
      PrefixExtend(h.effects, [Read(Keyboard, Got(c)), Write(Tty, CommandText(c))], t.effects);
      PrefixOfAppend(EscapeSequence, h.effects);
      PrefixTrans(EscapeSequence, h.effects, h.effects + t.effects);
    }
  }
}
