/** One iteration of `transparent_run`: which descriptors are watched, what is read
    from each ready one, where its bytes are written, and how the mode changes. */
module Relay {
  import opened Bytes
  import opened Seqs
  import opened SearchReplace
  import opened Context
  import opened Descriptors

  /** An externally observable action of the loop, in the order it is performed. A
      `sleep` is recorded as a `Pause` marker; a `write` always emits its whole chunk. */
  datatype Effect =
    | Read(source: Endpoint, result: ReadResult)
    | Write(dest: Endpoint, bytes: seq<byte>)
    | Pause(seconds: nat)

  /** Why the loop stopped. */
  datatype Cause = SelectFailed | EndOfStream(source: Endpoint)

  datatype Status = Running | Stopped(cause: Cause)

  /** What `select` reports: -1, 0 (the one-second timeout), or the descriptors it
      found readable. */
  datatype SelectOutcome = SelectError | Timeout | Ready(ready: set<Endpoint>)

  /** The mode, the effects performed, whether the loop goes on, and what is still
      queued, after some part of the loop. */
  datatype Outcome = Outcome(mode: Mode, effects: seq<Effect>, status: Status, streams: Streams)

  /** The escape token that asks the modem for command mode. */
  const EscapeToken: seq<byte> := [PLUS, PLUS, PLUS]

  /** The token bracketed by its guard times: two seconds before, one second after. */
  const EscapeSequence: seq<Effect> := [Pause(2), Write(Tty, EscapeToken), Pause(1)]

  /** The readiness set handed to `select`: keyboard and modem line always, the pseudo
      terminal only in DATA mode. */
  function Watched(mode: Mode): (w: set<Endpoint>)
    ensures Keyboard in w && Tty in w && Screen !in w
    ensures Pty in w <==> mode == Data
  {
    if mode == Data then {Keyboard, Tty, Pty} else {Keyboard, Tty}
  }

  /** Every watched descriptor lies below `max + 1`, the bound `select` is given. */
  lemma WatchedBelowMax(ctx: MuxerContext, e: Endpoint)
    requires MaxCoversInputs(ctx)
    requires e in Watched(ctx.mode)
    ensures FdOf(ctx, e) < ctx.max + 1
  {
  }

  /** Operator text as the modem receives it: line feeds become carriage returns. */
  function CommandText(c: seq<byte>): (r: seq<byte>)
    ensures |r| == |c|
    ensures forall i :: 0 <= i < |c| ==> r[i] == (if c[i] == LF then CR else c[i])
    ensures LF !in r
  {
    SearchAndReplace(c, |c|, LF, CR)
  }

  // ---------------------------------------------------------------------------
  // Observations over an effect list

  /** The bytes one effect reads from `e`. */
  function ReadOf(x: Effect, e: Endpoint): seq<byte>
  {
    match x
    case Read(src, Got(b)) => if src == e then b else []
    case _ => []
  }

  /** The bytes one effect writes to `e`. */
  function WrittenOf(x: Effect, e: Endpoint): seq<byte>
  {
    match x
    case Write(dst, b) => if dst == e then b else []
    case _ => []
  }

  /** All bytes successfully read from `e`, in order. */
  function BytesRead(effects: seq<Effect>, e: Endpoint): seq<byte>
  {
    if effects == [] then [] else ReadOf(effects[0], e) + BytesRead(effects[1..], e)
  }

  /** All bytes written to `e`, in order. */
  function BytesWritten(effects: seq<Effect>, e: Endpoint): seq<byte>
  {
    if effects == [] then [] else WrittenOf(effects[0], e) + BytesWritten(effects[1..], e)
  }

  /** The descriptors read, in the order of the reads (successful or not). */
  function ReadSources(effects: seq<Effect>): seq<Endpoint>
  {
    if effects == [] then []
    else (if effects[0].Read? then [effects[0].source] else []) + ReadSources(effects[1..])
  }

  /** The lengths of the pauses, in seconds and in order. */
  function Pauses(effects: seq<Effect>): seq<nat>
  {
    if effects == [] then []
    else (if effects[0].Pause? then [effects[0].seconds] else []) + Pauses(effects[1..])
  }

  /** The observations of a two-effect list, one effect at a time. */
  lemma ObservePair(x: Effect, y: Effect)
    ensures forall e :: BytesRead([x, y], e) == ReadOf(x, e) + ReadOf(y, e)
    ensures forall e :: BytesWritten([x, y], e) == WrittenOf(x, e) + WrittenOf(y, e)
    ensures ReadSources([x, y]) == (if x.Read? then [x.source] else []) + (if y.Read? then [y.source] else [])
    ensures Pauses([x, y]) == (if x.Pause? then [x.seconds] else []) + (if y.Pause? then [y.seconds] else [])
  {
    assert [x, y][1..] == [y] && [y][1..] == [];
    forall e
      ensures BytesRead([x, y], e) == ReadOf(x, e) + ReadOf(y, e)
      ensures BytesWritten([x, y], e) == WrittenOf(x, e) + WrittenOf(y, e)
    {
      ObserveOne(y);
    }
    ObserveOne(y);
  }

  /** The observations of a one-effect list. */
  lemma ObserveOne(x: Effect)
    ensures forall e :: BytesRead([x], e) == ReadOf(x, e)
    ensures forall e :: BytesWritten([x], e) == WrittenOf(x, e)
    ensures ReadSources([x]) == if x.Read? then [x.source] else []
    ensures Pauses([x]) == if x.Pause? then [x.seconds] else []
  {
    assert [x][1..] == [];
  }

  /** The escape sequence reads nothing and writes exactly the token to the modem. */
  lemma ObserveEscape()
    ensures forall e :: BytesRead(EscapeSequence, e) == []
    ensures forall e :: BytesWritten(EscapeSequence, e) == if e == Tty then EscapeToken else []
    ensures ReadSources(EscapeSequence) == []
    ensures Pauses(EscapeSequence) == [2, 1]
  {
    var q := EscapeSequence;
    assert q[1..] == [q[1], q[2]];
    ObservePair(q[1], q[2]);
  }

  lemma {:induction false} BytesReadAppend(a: seq<Effect>, b: seq<Effect>, e: Endpoint)
    ensures BytesRead(a + b, e) == BytesRead(a, e) + BytesRead(b, e)
    decreases |a|
  {
    if a != [] {
      assert (a + b)[0] == a[0] && (a + b)[1..] == a[1..] + b;
      BytesReadAppend(a[1..], b, e);
      AppendAssoc(ReadOf(a[0], e), BytesRead(a[1..], e), BytesRead(b, e));
    } else {
      assert a + b == b;
    }
  }

  lemma {:induction false} BytesWrittenAppend(a: seq<Effect>, b: seq<Effect>, e: Endpoint)
    ensures BytesWritten(a + b, e) == BytesWritten(a, e) + BytesWritten(b, e)
    decreases |a|
  {
    if a != [] {
      assert (a + b)[0] == a[0] && (a + b)[1..] == a[1..] + b;
      BytesWrittenAppend(a[1..], b, e);
      AppendAssoc(WrittenOf(a[0], e), BytesWritten(a[1..], e), BytesWritten(b, e));
    } else {
      assert a + b == b;
    }
  }

  lemma {:induction false} ReadSourcesAppend(a: seq<Effect>, b: seq<Effect>)
    ensures ReadSources(a + b) == ReadSources(a) + ReadSources(b)
    decreases |a|
  {
    if a != [] {
      assert (a + b)[0] == a[0] && (a + b)[1..] == a[1..] + b;
      ReadSourcesAppend(a[1..], b);
      AppendAssoc(if a[0].Read? then [a[0].source] else [], ReadSources(a[1..]), ReadSources(b));
    } else {
      assert a + b == b;
    }
  }

  lemma {:induction false} PausesAppend(a: seq<Effect>, b: seq<Effect>)
    ensures Pauses(a + b) == Pauses(a) + Pauses(b)
    decreases |a|
  {
    if a != [] {
      assert (a + b)[0] == a[0] && (a + b)[1..] == a[1..] + b;
      PausesAppend(a[1..], b);
      AppendAssoc(if a[0].Pause? then [a[0].seconds] else [], Pauses(a[1..]), Pauses(b));
    } else {
      assert a + b == b;
    }
  }

  /** An endpoint that was never read has had no bytes read from it. */
  lemma {:induction false} UnreadSource(effects: seq<Effect>, e: Endpoint)
    requires e !in ReadSources(effects)
    ensures BytesRead(effects, e) == []
    decreases |effects|
  {
    if effects != [] {
      assert (if effects[0].Read? then [effects[0].source] else []) <= ReadSources(effects);
      UnreadSource(effects[1..], e);
    }
  }

  /** No byte is lost or invented: what was queued on each readable endpoint is what
      was read from it followed by what is still queued. */
  predicate Conserves(s: Streams, effects: seq<Effect>, s': Streams)
  {
    && Flatten(s.keyboard) == BytesRead(effects, Keyboard) + Flatten(s'.keyboard)
    && Flatten(s.tty) == BytesRead(effects, Tty) + Flatten(s'.tty)
    && Flatten(s.pty) == BytesRead(effects, Pty) + Flatten(s'.pty)
  }

  /** A single read of `b` from `src`, with every other queue left alone, conserves. */
  lemma ConservesOneRead(s: Streams, src: Endpoint, b: seq<byte>, effects: seq<Effect>, s': Streams)
    requires src != Screen
    requires Flatten(Pending(s, src)) == b + Flatten(Pending(s', src))
    requires forall x :: x != src ==> Pending(s', x) == Pending(s, x)
    requires forall e :: BytesRead(effects, e) == (if e == src then b else [])
    ensures Conserves(s, effects, s')
  {
    forall x | x != Screen
      ensures Flatten(Pending(s, x)) == BytesRead(effects, x) + Flatten(Pending(s', x))
    {
      if x != src {
        assert BytesRead(effects, x) == [];
        assert Pending(s', x) == Pending(s, x);
      }
    }
    assert Pending(s, Keyboard) == s.keyboard && Pending(s', Keyboard) == s'.keyboard;
    assert Pending(s, Tty) == s.tty && Pending(s', Tty) == s'.tty;
    assert Pending(s, Pty) == s.pty && Pending(s', Pty) == s'.pty;
  }

  /** A read takes from an input descriptor and a write goes to an output one (the
      keyboard is only ever read, the screen only written), and either moves one to
      64 bytes. */
  predicate Permitted(x: Effect)
  {
    match x
    case Read(src, Got(b)) => src != Screen && 1 <= |b| <= BufferSize
    case Read(src, Closed) => src != Screen
    case Write(dst, b) => dst != Keyboard && 1 <= |b| <= BufferSize
    case Pause(_) => true
  }

  /** Every effect of the list is `Permitted`. */
  predicate WellFormed(effects: seq<Effect>)
  {
    forall i :: 0 <= i < |effects| ==> Permitted(effects[i])
  }

  /** A well-formed list writes nothing to the keyboard and reads nothing from the
      screen. */
  lemma {:induction false} WellFormedDirections(effects: seq<Effect>)
    requires WellFormed(effects)
    ensures BytesWritten(effects, Keyboard) == [] && BytesRead(effects, Screen) == []
  {
    if effects != [] {
      assert Permitted(effects[0]);
      assert WellFormed(effects[1..]) by {
        forall i | 0 <= i < |effects[1..]|
          ensures Permitted(effects[1..][i])
        {
          assert effects[1..][i] == effects[i + 1];
        }
      }
      WellFormedDirections(effects[1..]);
    }
  }

  /** A read that returned at most zero bytes. */
  predicate ClosedRead(x: Effect)
  {
    x.Read? && x.result.Closed?
  }

  /** A failed read is the last thing that happens and is what stopped the loop; an
      end-of-stream stop is always caused by such a read. */
  predicate FailFast(o: Outcome)
  {
    && (forall i :: 0 <= i < |o.effects| && ClosedRead(o.effects[i]) ==>
          i == |o.effects| - 1 && o.status == Stopped(EndOfStream(o.effects[i].source)))
    && (o.status.Stopped? && o.status.cause.EndOfStream? ==>
          |o.effects| > 0 && ClosedRead(o.effects[|o.effects| - 1]))
  }

  /** `b` performed after `a`. */
  function Then(a: Outcome, b: Outcome): Outcome
  {
    Outcome(b.mode, a.effects + b.effects, b.status, b.streams)
  }

  /** The observations of `b` after `a` are those of `a` followed by those of `b`. */
  lemma ThenObserve(a: Outcome, b: Outcome)
    ensures forall e :: BytesRead(Then(a, b).effects, e) == BytesRead(a.effects, e) + BytesRead(b.effects, e)
    ensures forall e :: BytesWritten(Then(a, b).effects, e) == BytesWritten(a.effects, e) + BytesWritten(b.effects, e)
    ensures ReadSources(Then(a, b).effects) == ReadSources(a.effects) + ReadSources(b.effects)
    ensures Pauses(Then(a, b).effects) == Pauses(a.effects) + Pauses(b.effects)
  {
    forall e: Endpoint
      ensures BytesRead(a.effects + b.effects, e) == BytesRead(a.effects, e) + BytesRead(b.effects, e)
      ensures BytesWritten(a.effects + b.effects, e) == BytesWritten(a.effects, e) + BytesWritten(b.effects, e)
    {
      BytesReadAppend(a.effects, b.effects, e);
      BytesWrittenAppend(a.effects, b.effects, e);
    }
    ReadSourcesAppend(a.effects, b.effects);
    PausesAppend(a.effects, b.effects);
  }

  /** Running one part after another keeps conservation, chunk bounds and fail-fast. */
  lemma ThenKeeps(s: Streams, a: Outcome, b: Outcome)
    requires a.status.Running?
    requires Conserves(s, a.effects, a.streams) && Conserves(a.streams, b.effects, b.streams)
    requires WellFormed(a.effects) && WellFormed(b.effects)
    requires FailFast(a) && FailFast(b)
    ensures Conserves(s, Then(a, b).effects, b.streams)
    ensures WellFormed(Then(a, b).effects)
    ensures FailFast(Then(a, b))
  {
    ThenConserves(s, a, b);
    ThenBounded(a.effects, b.effects);
    ThenFailFast(a, b);
  }

  lemma ThenConserves(s: Streams, a: Outcome, b: Outcome)
    requires Conserves(s, a.effects, a.streams) && Conserves(a.streams, b.effects, b.streams)
    ensures Conserves(s, Then(a, b).effects, b.streams)
  {
    forall e | e != Screen
      ensures Flatten(Pending(s, e)) == BytesRead(a.effects + b.effects, e) + Flatten(Pending(b.streams, e))
    {
      BytesReadAppend(a.effects, b.effects, e);
      AppendAssoc(BytesRead(a.effects, e), BytesRead(b.effects, e), Flatten(Pending(b.streams, e)));
    }
  }

  lemma ThenBounded(a: seq<Effect>, b: seq<Effect>)
    requires WellFormed(a) && WellFormed(b)
    ensures WellFormed(a + b)
  {
    forall i | 0 <= i < |a + b|
      ensures Permitted((a + b)[i])
    {
      if i >= |a| {
        assert (a + b)[i] == b[i - |a|];
      }
    }
  }

  lemma ThenFailFast(a: Outcome, b: Outcome)
    requires a.status.Running?
    requires FailFast(a) && FailFast(b)
    ensures FailFast(Then(a, b))
  {
    var c := Then(a, b);
    forall i | 0 <= i < |c.effects| && ClosedRead(c.effects[i])
      ensures i == |c.effects| - 1 && c.status == Stopped(EndOfStream(c.effects[i].source))
    {
      if i >= |a.effects| {
        assert c.effects[i] == b.effects[i - |a.effects|];
      }
    }
    if c.status.Stopped? && c.status.cause.EndOfStream? {
      assert c.effects[|c.effects| - 1] == b.effects[|b.effects| - 1];
    }
  }

  // ---------------------------------------------------------------------------
  // The shapes a branch can take

  /** A read of `src` that returned at most zero bytes: the loop breaks at once. */
  function Failed(mode: Mode, src: Endpoint, s: Streams): (r: Outcome)
    requires src != Screen
    ensures r.mode == mode && r.streams == s && r.status == Stopped(EndOfStream(src))
    ensures r.effects == [Read(src, Closed)]
    ensures forall e :: BytesRead(r.effects, e) == [] && BytesWritten(r.effects, e) == []
    ensures ReadSources(r.effects) == [src] && Pauses(r.effects) == []
    ensures WellFormed(r.effects) && FailFast(r)
  {
    ObserveOne(Read(src, Closed));
    Outcome(mode, [Read(src, Closed)], Stopped(EndOfStream(src)), s)
  }

  /** A chunk `b` read from `src` and not forwarded. */
  function Swallowed(mode: Mode, src: Endpoint, b: seq<byte>, s: Streams): (r: Outcome)
    requires src != Screen && 1 <= |b| <= BufferSize
    ensures r.mode == mode && r.streams == s && r.status == Running
    ensures r.effects == [Read(src, Got(b))]
    ensures forall e :: BytesRead(r.effects, e) == (if e == src then b else [])
    ensures forall e :: BytesWritten(r.effects, e) == []
    ensures ReadSources(r.effects) == [src] && Pauses(r.effects) == []
    ensures WellFormed(r.effects) && FailFast(r)
  {
    ObserveOne(Read(src, Got(b)));
    Outcome(mode, [Read(src, Got(b))], Running, s)
  }

  /** A chunk `b` read from `src`, then `out` written to `dst`. */
  function Relayed(mode: Mode, src: Endpoint, b: seq<byte>, dst: Endpoint, out: seq<byte>, s: Streams): (r: Outcome)
    requires src != Screen && dst != Keyboard
    requires 1 <= |b| <= BufferSize && 1 <= |out| <= BufferSize
    ensures r.mode == mode && r.streams == s && r.status == Running
    ensures r.effects == [Read(src, Got(b)), Write(dst, out)]
    ensures forall e :: BytesRead(r.effects, e) == (if e == src then b else [])
    ensures forall e :: BytesWritten(r.effects, e) == (if e == dst then out else [])
    ensures ReadSources(r.effects) == [src] && Pauses(r.effects) == []
    ensures WellFormed(r.effects) && FailFast(r)
  {
    var effects := [Read(src, Got(b)), Write(dst, out)];
    ObservePair(effects[0], effects[1]);
    assert forall i :: 0 <= i < 2 ==> Permitted(effects[i]) && !ClosedRead(effects[i]);
    Outcome(mode, effects, Running, s)
  }

  /** The escape: mode COMMAND, the token bracketed by its guard times, nothing read. */
  function Escape(s: Streams): (r: Outcome)
    ensures Conserves(s, r.effects, r.streams) && WellFormed(r.effects) && FailFast(r)
    ensures r.mode == Command && r.effects == EscapeSequence && r.streams == s && r.status == Running
    ensures BytesWritten(r.effects, Tty) == EscapeToken
    ensures BytesWritten(r.effects, Pty) == [] && BytesWritten(r.effects, Screen) == []
    ensures BytesWritten(r.effects, Keyboard) == []
    ensures BytesRead(r.effects, Keyboard) == [] && BytesRead(r.effects, Tty) == []
    ensures BytesRead(r.effects, Pty) == [] && ReadSources(r.effects) == []
    ensures Pauses(r.effects) == [2, 1]
  {
    ObserveEscape();
    var effects := EscapeSequence;
    assert forall i :: 0 <= i < 3 ==> Permitted(effects[i]) && !ClosedRead(effects[i]);
    Outcome(Command, effects, Running, s)
  }

  /** Nothing done. */
  function Idle(mode: Mode, s: Streams): (r: Outcome)
    ensures r.mode == mode && r.streams == s && r.status == Running && r.effects == []
    ensures forall e :: BytesRead(r.effects, e) == [] && BytesWritten(r.effects, e) == []
    ensures ReadSources(r.effects) == [] && Pauses(r.effects) == []
    ensures WellFormed(r.effects) && FailFast(r)
  {
    Outcome(mode, [], Running, s)
  }

  // ---------------------------------------------------------------------------
  // The three branches of one iteration

  /** A COMMAND-mode keyboard read. A lone line feed returns to DATA mode and is not
      forwarded; any other chunk goes to the modem with its line feeds made carriage
      returns, and the mode stays COMMAND. */
  function ReadCommand(s: Streams): (r: Outcome)
    ensures Conserves(s, r.effects, r.streams) && WellFormed(r.effects) && FailFast(r)
    ensures r.status.Running? || r.status == Stopped(EndOfStream(Keyboard))
    ensures r.status.Stopped? <==> AtEnd(s.keyboard)
    ensures r.status.Running? ==>
      BytesRead(r.effects, Keyboard) == NextChunk(s.keyboard) && r.streams.keyboard == Remainder(s.keyboard)
    ensures r.streams.tty == s.tty && r.streams.pty == s.pty
    ensures r.mode == Data <==> BytesRead(r.effects, Keyboard) == [LF]
    ensures BytesWritten(r.effects, Tty) ==
      (if BytesRead(r.effects, Keyboard) == [LF] then [] else CommandText(BytesRead(r.effects, Keyboard)))
    ensures BytesWritten(r.effects, Pty) == [] && BytesWritten(r.effects, Screen) == []
    ensures BytesWritten(r.effects, Keyboard) == []
    ensures BytesRead(r.effects, Tty) == [] && BytesRead(r.effects, Pty) == []
    ensures Pauses(r.effects) == []
    ensures ReadSources(r.effects) == [Keyboard]
  {
    var rd := ReadDescriptor(s, Keyboard);
    match rd.0
    case Closed => Failed(Command, Keyboard, rd.1)
    case Got(b) => Typed(b, s, rd.1)
  }

  /** A COMMAND-mode keyboard chunk `b` read from `s`, leaving `s'` queued: a lone line
      feed returns to DATA mode and reaches nobody; any other chunk goes to the modem
      line as `CommandText`. */
  function Typed(b: seq<byte>, s: Streams, s': Streams): (r: Outcome)
    requires 1 <= |b| <= BufferSize
    requires Flatten(s.keyboard) == b + Flatten(s'.keyboard) && s'.tty == s.tty && s'.pty == s.pty
    ensures Conserves(s, r.effects, r.streams)
    ensures r.streams == s' && r.status == Running && WellFormed(r.effects) && FailFast(r)
    ensures r.mode == Data <==> b == [LF]
    ensures r.mode == Command || r.mode == Data
    ensures BytesRead(r.effects, Keyboard) == b
    ensures BytesRead(r.effects, Tty) == [] && BytesRead(r.effects, Pty) == []
    ensures BytesWritten(r.effects, Tty) == if b == [LF] then [] else CommandText(b)
    ensures BytesWritten(r.effects, Pty) == [] && BytesWritten(r.effects, Screen) == []
    ensures BytesWritten(r.effects, Keyboard) == []
    ensures ReadSources(r.effects) == [Keyboard] && Pauses(r.effects) == []
  {
    if b == [LF] then
      var r := Swallowed(Data, Keyboard, b, s');
      ConservesOneRead(s, Keyboard, b, r.effects, s');
      r
    else
      var r := Relayed(Command, Keyboard, b, Tty, CommandText(b), s');
      ConservesOneRead(s, Keyboard, b, r.effects, s');
      r
  }

  /** A COMMAND-mode read of a queued chunk other than a lone line feed: the chunk is
      read whole and sent to the modem line at once, and the mode stays COMMAND. */
  lemma ReadCommandTyped(s: Streams, c: seq<byte>)
    requires s.keyboard != [] && s.keyboard[0] == c
    requires 0 < |c| <= BufferSize && c != [LF]
    ensures ReadCommand(s).effects == [Read(Keyboard, Got(c)), Write(Tty, CommandText(c))]
    ensures ReadCommand(s).mode == Command && ReadCommand(s).status == Running
    ensures ReadCommand(s).streams == s.(keyboard := s.keyboard[1..])
  {
  }

  /** What the modem line receives from the keyboard branch: the escape token when the
      keyboard interrupts DATA mode, nothing for a lone line feed, and otherwise the typed
      chunk with its line feeds made carriage returns. */
  function FromOperator(mode: Mode, keyboardReady: bool, typed: seq<byte>): seq<byte>
  {
    if mode == Data then (if keyboardReady then EscapeToken else [])
    else if typed == [LF] then []
    else CommandText(typed)
  }

  /** The keyboard branch. In DATA mode the keyboard is not read at all: the mode flips
      to COMMAND and the escape sequence goes to the modem, while the typed bytes stay
      queued for a later COMMAND-mode read. */
  function HandleKeyboard(mode: Mode, ready: bool, s: Streams): (r: Outcome)
    ensures Conserves(s, r.effects, r.streams) && WellFormed(r.effects) && FailFast(r)
    ensures r.status.Running? || r.status == Stopped(EndOfStream(Keyboard))
    ensures r.streams.tty == s.tty && r.streams.pty == s.pty
    ensures !ready ==> r.mode == mode && r.effects == [] && r.status == Running && r.streams == s
    ensures mode == Data ==> r.streams == s && r.status == Running && BytesRead(r.effects, Keyboard) == []
    ensures ready && mode == Data ==> r.mode == Command && r.effects == EscapeSequence
    ensures mode == Command ==> (r.mode == Data <==> BytesRead(r.effects, Keyboard) == [LF])
    ensures ready && mode == Command ==> (r.status.Stopped? <==> AtEnd(s.keyboard))
    ensures ready && mode == Command && r.status.Running? ==>
      BytesRead(r.effects, Keyboard) == NextChunk(s.keyboard) && r.streams.keyboard == Remainder(s.keyboard)
    ensures BytesWritten(r.effects, Tty) == FromOperator(mode, ready, BytesRead(r.effects, Keyboard))
    ensures BytesWritten(r.effects, Pty) == [] && BytesWritten(r.effects, Screen) == []
    ensures BytesWritten(r.effects, Keyboard) == []
    ensures BytesRead(r.effects, Tty) == [] && BytesRead(r.effects, Pty) == []
    ensures Pauses(r.effects) == if ready && mode == Data then [2, 1] else []
    ensures ReadSources(r.effects) == if ready && mode == Command then [Keyboard] else []
  {
    if !ready then Outcome(mode, [], Running, s)
    else if mode == Data then Escape(s)
    else
      var r := ReadCommand(s);
      assert ReadSources(r.effects) == [Keyboard];
      r
  }

  /** One chunk read from `src` and copied unchanged to `dst`; a failed read stops the
      loop. Only the queue of `src` moves. */
  function Forward(mode: Mode, src: Endpoint, dst: Endpoint, s: Streams): (r: Outcome)
    requires src != Screen && dst != Keyboard
    ensures Conserves(s, r.effects, r.streams) && WellFormed(r.effects) && FailFast(r)
    ensures r.status.Stopped? <==> AtEnd(Pending(s, src))
    ensures r.status.Running? ==>
      BytesRead(r.effects, src) == NextChunk(Pending(s, src)) && Pending(r.streams, src) == Remainder(Pending(s, src))
    ensures r.mode == mode && (r.status.Running? || r.status == Stopped(EndOfStream(src)))
    ensures forall x :: x != src ==> Pending(r.streams, x) == Pending(s, x)
    ensures forall e :: BytesWritten(r.effects, e) == (if e == dst then BytesRead(r.effects, src) else [])
    ensures forall e :: e != src ==> BytesRead(r.effects, e) == []
    ensures ReadSources(r.effects) == [src] && Pauses(r.effects) == []
  {
    var rd := ReadDescriptor(s, src);
    match rd.0
    case Closed => Failed(mode, src, rd.1)
    case Got(b) =>
      var r := Relayed(mode, src, b, dst, b, rd.1);
      ConservesOneRead(s, src, b, r.effects, rd.1);
      r
  }

  /** The modem-line branch: one chunk is read and copied unchanged to the pseudo
      terminal in DATA mode and to the screen in COMMAND mode. */
  function HandleTty(mode: Mode, ready: bool, s: Streams): (r: Outcome)
    ensures Conserves(s, r.effects, r.streams) && WellFormed(r.effects) && FailFast(r)
    ensures r.mode == mode && (r.status.Running? || r.status == Stopped(EndOfStream(Tty)))
    ensures r.streams.keyboard == s.keyboard && r.streams.pty == s.pty
    ensures !ready ==> r.mode == mode && r.effects == [] && r.status == Running && r.streams == s
    ensures ready ==> (r.status.Stopped? <==> AtEnd(s.tty))
    ensures ready && r.status.Running? ==>
      BytesRead(r.effects, Tty) == NextChunk(s.tty) && r.streams.tty == Remainder(s.tty)
    ensures BytesWritten(r.effects, Pty) == (if mode == Data then BytesRead(r.effects, Tty) else [])
    ensures BytesWritten(r.effects, Screen) == (if mode == Command then BytesRead(r.effects, Tty) else [])
    ensures BytesWritten(r.effects, Tty) == [] && BytesWritten(r.effects, Keyboard) == []
    ensures BytesRead(r.effects, Keyboard) == [] && BytesRead(r.effects, Pty) == []
    ensures Pauses(r.effects) == []
    ensures ReadSources(r.effects) == if ready then [Tty] else []
  {
    if !ready then Idle(mode, s)
    else
      var r := Forward(mode, Tty, if mode == Data then Pty else Screen, s);
      assert Pending(r.streams, Keyboard) == s.keyboard && Pending(r.streams, Pty) == s.pty;
      assert BytesWritten(r.effects, Pty) == (if mode == Data then BytesRead(r.effects, Tty) else []);
      assert BytesWritten(r.effects, Screen) == (if mode == Command then BytesRead(r.effects, Tty) else []);
      assert BytesWritten(r.effects, Tty) == [];
      r
  }

  /** The pseudo-terminal branch: one chunk is read and copied unchanged to the modem
      line, whatever the mode is by now. */
  function HandlePty(mode: Mode, ready: bool, s: Streams): (r: Outcome)
    ensures Conserves(s, r.effects, r.streams) && WellFormed(r.effects) && FailFast(r)
    ensures r.mode == mode && (r.status.Running? || r.status == Stopped(EndOfStream(Pty)))
    ensures r.streams.keyboard == s.keyboard && r.streams.tty == s.tty
    ensures !ready ==> r.mode == mode && r.effects == [] && r.status == Running && r.streams == s
    ensures ready ==> (r.status.Stopped? <==> AtEnd(s.pty))
    ensures ready && r.status.Running? ==>
      BytesRead(r.effects, Pty) == NextChunk(s.pty) && r.streams.pty == Remainder(s.pty)
    ensures BytesWritten(r.effects, Tty) == BytesRead(r.effects, Pty)
    ensures BytesWritten(r.effects, Pty) == [] && BytesWritten(r.effects, Screen) == []
    ensures BytesWritten(r.effects, Keyboard) == []
    ensures BytesRead(r.effects, Keyboard) == [] && BytesRead(r.effects, Tty) == []
    ensures Pauses(r.effects) == []
    ensures ReadSources(r.effects) == if ready then [Pty] else []
  {
    if !ready then Idle(mode, s)
    else
      var r := Forward(mode, Pty, Tty, s);
      assert Pending(r.streams, Keyboard) == s.keyboard && Pending(r.streams, Tty) == s.tty;
      assert BytesWritten(r.effects, Tty) == BytesRead(r.effects, Pty);
      assert BytesWritten(r.effects, Pty) == [] && BytesWritten(r.effects, Screen) == [];
      r
  }
}
