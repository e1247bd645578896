/** `mode_e`, `muxer_context_s`, `update_max` and `transparent_init`: the state the
    relay loop carries. */
module Context {

  /** The two relay modes; DATA is 0 and COMMAND is 1 in the C enumeration. */
  datatype Mode = Data | Command

  /** The four descriptors of a context: three are read (keyboard, modem line, pseudo
      terminal) and one is only written (the screen). */
  datatype Endpoint = Keyboard | Tty | Pty | Screen

  /** The context bundle: four descriptor numbers, the highest watched descriptor
      number (`max`, used to size `select`) and the current mode. */
  datatype MuxerContext = MuxerContext(
    keyboard: int, tty: int, pty: int, max: int, screen: int, mode: Mode)

  /** The descriptor number a context holds for an endpoint. */
  function FdOf(ctx: MuxerContext, e: Endpoint): int
  {
    match e
    case Keyboard => ctx.keyboard
    case Tty => ctx.tty
    case Pty => ctx.pty
    case Screen => ctx.screen
  }

  /** Raise `max` to `n` when `n` is larger; nothing else changes. */
  function UpdateMax(ctx: MuxerContext, n: int): (r: MuxerContext)
    ensures r.max >= ctx.max && r.max >= n
    ensures r.max == ctx.max || r.max == n
    ensures r == ctx.(max := r.max)
  {
    if n > ctx.max then ctx.(max := n) else ctx
  }

  /** Every descriptor that is ever handed to `select` is at most `max`. */
  predicate MaxCoversInputs(ctx: MuxerContext)
  {
    ctx.keyboard <= ctx.max && ctx.tty <= ctx.max && ctx.pty <= ctx.max
  }

  /** A fresh context: DATA mode, the given descriptors, and `max` the largest of -1 and
      the three read descriptors (the screen does not take part). */
  function TransparentInit(kbd: int, tty: int, pty: int, screen: int): (ctx: MuxerContext)
    ensures ctx.mode == Data
    ensures ctx.keyboard == kbd && ctx.tty == tty && ctx.pty == pty && ctx.screen == screen
    ensures MaxCoversInputs(ctx) && ctx.max >= -1
    ensures ctx.max == -1 || ctx.max == kbd || ctx.max == tty || ctx.max == pty
  {
    var blank := MuxerContext(kbd, tty, pty, -1, screen, Data);
    UpdateMax(UpdateMax(UpdateMax(blank, kbd), tty), pty)
  }

  /** The screen descriptor has no influence on `max`. */
  lemma InitIgnoresScreen(kbd: int, tty: int, pty: int, screen1: int, screen2: int)
    ensures TransparentInit(kbd, tty, pty, screen1).max == TransparentInit(kbd, tty, pty, screen2).max
  {
  }
}
