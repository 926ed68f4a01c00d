/**
 * The per-guild command: compare the bot's current voice connection in a guild
 * with the target chosen by the scan and pick exactly one of four commands.
 */
module Decision {
  import opened Wrappers
  import opened Selection

  datatype Command = Connect(channel: ChannelId) | MoveTo(channel: ChannelId) | Disconnect | NoOp

  /** The connection a command leaves behind when it succeeds. */
  function Apply(current: Option<ChannelId>, cmd: Command): Option<ChannelId>
  {
    match cmd
    case Connect(c) => Some(c)
    case MoveTo(c) => Some(c)
    case Disconnect => None
    case NoOp => current
  }

  /**
   * The decision table. Its contract determines the command uniquely: the
   * command lands the connection on the target, nothing is sent when the bot is
   * already where it should be, a new voice client is opened only when there is
   * none, and an existing one is only moved or closed.
   */
  function Decide(current: Option<ChannelId>, target: Option<ChannelId>): (cmd: Command)
    ensures Apply(current, cmd) == target
    ensures cmd == NoOp <==> current == target
    ensures cmd.Connect? ==> current.None?
    ensures cmd.MoveTo? || cmd.Disconnect? ==> current.Some?
  {
    if target.Some? then
      if current.None? then Connect(target.value)
      else if current != target then MoveTo(target.value)
      else NoOp
    else if current.Some? then Disconnect
    else NoOp
  }
}
