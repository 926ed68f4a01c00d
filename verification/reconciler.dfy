/**
 * The all-guilds pass run every ten seconds: for each guild the bot is in,
 * choose a target, decide a command and send it to the guild's voice client.
 * One failing command ends the pass, because a single handler wraps the whole
 * loop over guilds.
 */
module Reconciler {
  import opened Wrappers
  import opened Selection
  import opened Decision

  type GuildId = nat

  /** A voice channel of a guild: its identity and how many members other than the bot are in it. */
  datatype VoiceChannel = VoiceChannel(id: ChannelId, others: nat)

  /** A guild as the pass reads it: its voice channels in the platform's order and its AFK channel, if any. */
  datatype Guild = Guild(id: GuildId, voiceChannels: seq<VoiceChannel>, afkChannel: Option<ChannelId>)

  /** The bot's voice clients: a guild is a key exactly when the bot is connected there, to the mapped channel. */
  type Connections = map<GuildId, ChannelId>

  /** One command the pass sent (and awaited) for one guild. */
  datatype Issued = Issued(guild: GuildId, cmd: Command)

  /** What a pass leaves behind: the connections, whether a command raised, and the commands sent. */
  datatype PassResult = PassResult(conns: Connections, aborted: bool, issued: seq<Issued>)

  function CurrentOf(conns: Connections, g: GuildId): Option<ChannelId>
  {
    if g in conns then Some(conns[g]) else None
  }

  /** Sending `cmd` for guild `g` changes that guild's connection as `Apply` says and no other. */
  function Perform(conns: Connections, g: GuildId, cmd: Command): (r: Connections)
    ensures CurrentOf(r, g) == Apply(CurrentOf(conns, g), cmd)
    ensures forall h :: h != g ==> CurrentOf(r, h) == CurrentOf(conns, h)
  {
    match cmd
    case Connect(c) => conns[g := c]
    case MoveTo(c) => conns[g := c]
    case Disconnect => conns - {g}
    case NoOp => conns
  }

  // ---------------------------------------------------------------------------
  // The targeting rule: the busiest non-AFK channel, as the library counts it
  // ---------------------------------------------------------------------------

  /**
   * The member counts the library reports: everyone whose voice state is in the
   * channel, the bot included, so the channel the bot is connected to counts
   * one more than its other members.
   */
  function Reported(chans: seq<VoiceChannel>, current: Option<ChannelId>): seq<Channel>
  {
    seq(|chans|, i requires 0 <= i < |chans| =>
      Channel(chans[i].id, if current == Some(chans[i].id) then chans[i].others + 1 else chans[i].others))
  }

  function IdOf(t: Option<Channel>): Option<ChannelId>
  {
    if t.Some? then Some(t.value.id) else None
  }

  /** The identity of the channel the scan chooses in guild `g` while the bot is connected to `current`. */
  function TargetOf(g: Guild, current: Option<ChannelId>): Option<ChannelId>
  {
    IdOf(Scan(Reported(g.voiceChannels, current), g.afkChannel).target)
  }

  /** The channel with identity `c` is one of guild `g`'s voice channels. */
  ghost predicate HasChannel(g: Guild, c: ChannelId)
  {
    exists k :: 0 <= k < |g.voiceChannels| && g.voiceChannels[k].id == c
  }

  /** The target of a guild is one of its own channels and never its AFK channel. */
  lemma TargetIsOwnNonAfkChannel(g: Guild, current: Option<ChannelId>)
    ensures TargetOf(g, current).Some? ==> HasChannel(g, TargetOf(g, current).value) && TargetOf(g, current) != g.afkChannel
  {
    var chans := Reported(g.voiceChannels, current);
    ScanTargetIsEligibleMember(chans, g.afkChannel);
    var t := Scan(chans, g.afkChannel).target;
    if t.Some? {
      var k :| 0 <= k < |chans| && chans[k] == t.value;
      assert g.voiceChannels[k].id == t.value.id;
    }
  }

  /**
   * Because the bot counts itself, a bot connected to one of the guild's own
   * non-AFK channels always has a target, so it is never sent Disconnect: it
   * leaves voice only from the AFK channel or from a channel the guild does not
   * list.
   */
  lemma NeverLeavesListedChannel(g: Guild, current: Option<ChannelId>)
    requires current.Some? && HasChannel(g, current.value) && current != g.afkChannel
    ensures TargetOf(g, current).Some?
    ensures Decide(current, TargetOf(g, current)) != Disconnect
  {
    var chans := Reported(g.voiceChannels, current);
    var k :| 0 <= k < |g.voiceChannels| && g.voiceChannels[k].id == current.value;
    assert Eligible(chans[k], g.afkChannel) && chans[k].members > 0;
    NoTargetIffAllEmpty(chans, g.afkChannel);
  }

  /**
   * The target is a fixed point: once the bot is where the scan sent it (or out
   * of voice), its own presence does not change the next choice.
   */
  lemma TargetIsStable(g: Guild, current: Option<ChannelId>)
    ensures TargetOf(g, TargetOf(g, current)) == TargetOf(g, current)
  {
    var t := TargetOf(g, current);
    if t != current {
      var before := Reported(g.voiceChannels, current);
      var after := Reported(g.voiceChannels, t);
      if t.Some? {
        ChoiceSurvivesBoost(before, after, g.afkChannel);
      } else {
        NoChoiceSurvivesDrop(before, after, g.afkChannel);
      }
    }
  }

  /**
   * The rule the program describes for itself: the busiest non-AFK channel by
   * members other than the bot, so that the bot leaves once nobody else is in
   * any non-AFK channel.
   */
  function IntendedTargetOf(g: Guild, current: Option<ChannelId>): Option<ChannelId>
  {
    TargetOf(g, None)
  }

  /** Under the intended rule, a connected bot whose non-AFK channels hold nobody else is sent Disconnect. */
  lemma IntendedLeavesWhenNobodyElse(g: Guild, current: Option<ChannelId>)
    requires current.Some?
    requires forall k :: 0 <= k < |g.voiceChannels| && Some(g.voiceChannels[k].id) != g.afkChannel ==>
               g.voiceChannels[k].others == 0
    ensures IntendedTargetOf(g, current) == None
    ensures Decide(current, IntendedTargetOf(g, current)) == Disconnect
  {
    var chans := Reported(g.voiceChannels, None);
    assert forall k :: 0 <= k < |chans| ==> chans[k].id == g.voiceChannels[k].id && chans[k].members == g.voiceChannels[k].others;
    NoTargetIffAllEmpty(chans, g.afkChannel);
  }

  /**
   * Under the intended rule the bot's own presence never matters, so after a
   * completed pass a second pass over the same membership sends nothing.
   */
  lemma IntendedSecondPassIsQuiet(guilds: seq<Guild>, conns: Connections, failing: set<GuildId>, failingNext: set<GuildId>)
    requires DistinctIds(guilds)
    requires !Pass(IntendedTargetOf, guilds, conns, failing).aborted
    ensures var settled := Pass(IntendedTargetOf, guilds, conns, failing).conns;
            Pass(IntendedTargetOf, guilds, settled, failingNext) == PassResult(settled, false, [])
  {
    var done := PassOutcome(IntendedTargetOf, guilds, conns, failing);
    SettledPassIsQuiet(IntendedTargetOf, guilds, Pass(IntendedTargetOf, guilds, conns, failing).conns, failingNext);
  }

  // ---------------------------------------------------------------------------
  // The pass, for a targeting rule: `CheckVoiceChannels` runs it with TargetOf
  // ---------------------------------------------------------------------------

  /** A rule choosing a guild's target from the bot's current connection there. */
  type Targeting = (Guild, Option<ChannelId>) -> Option<ChannelId>

  function CommandFor(target: Targeting, g: Guild, conns: Connections): Command
  {
    var current := CurrentOf(conns, g.id);
    Decide(current, target(g, current))
  }

  /**
   * The pass over `guilds` in order, from connections `conns`, when the commands
   * sent for the guilds in `failing` raise. A raised command changes nothing and
   * ends the pass; a guild whose command is NoOp sends nothing and cannot fail.
   */
  function Pass(target: Targeting, guilds: seq<Guild>, conns: Connections, failing: set<GuildId>): PassResult
    decreases |guilds|
  {
    if guilds == [] then PassResult(conns, false, [])
    else
      var prev := Pass(target, guilds[..|guilds| - 1], conns, failing);
      var g := guilds[|guilds| - 1];
      var cmd := CommandFor(target, g, prev.conns);
      if prev.aborted || cmd == NoOp then prev
      else if g.id in failing then PassResult(prev.conns, true, prev.issued + [Issued(g.id, cmd)])
      else PassResult(Perform(prev.conns, g.id, cmd), false, prev.issued + [Issued(g.id, cmd)])
  }

  /** The commands decided from `conns` for `guilds`, in order, leaving out NoOp. */
  function Sent(target: Targeting, guilds: seq<Guild>, conns: Connections): seq<Issued>
    decreases |guilds|
  {
    if guilds == [] then []
    else
      var g := guilds[|guilds| - 1];
      var cmd := CommandFor(target, g, conns);
      Sent(target, guilds[..|guilds| - 1], conns) + (if cmd == NoOp then [] else [Issued(g.id, cmd)])
  }

  function Ids(guilds: seq<Guild>): set<GuildId>
  {
    set i | 0 <= i < |guilds| :: guilds[i].id
  }

  /** The platform never lists the same guild twice. */
  predicate DistinctIds(guilds: seq<Guild>)
  {
    forall i, j :: 0 <= i < j < |guilds| ==> guilds[i].id != guilds[j].id
  }

  /** Every listed guild in which the bot is connected is connected to one of its own channels. */
  ghost predicate WithinOwnGuild(guilds: seq<Guild>, conns: Connections)
  {
    forall i :: 0 <= i < |guilds| && guilds[i].id in conns ==> HasChannel(guilds[i], conns[guilds[i].id])
  }

  /** A pass never touches the connection of a guild it does not visit. */
  lemma {:induction false} PassLeavesOthers(target: Targeting, guilds: seq<Guild>, conns: Connections, failing: set<GuildId>)
    ensures forall h :: h !in Ids(guilds) ==> CurrentOf(Pass(target, guilds, conns, failing).conns, h) == CurrentOf(conns, h)
    decreases |guilds|
  {
    if guilds != [] {
      var n := |guilds| - 1;
      PassLeavesOthers(target, guilds[..n], conns, failing);
      assert forall i :: 0 <= i < n ==> guilds[..n][i] == guilds[i];
      assert Ids(guilds[..n]) <= Ids(guilds);
    }
  }

  /**
   * Every command sent names a guild of the pass and is not NoOp, and no guild
   * gets more than one command in a pass.
   */
  lemma {:induction false} AtMostOneCommandPerGuild(target: Targeting, guilds: seq<Guild>, conns: Connections, failing: set<GuildId>)
    requires DistinctIds(guilds)
    ensures var issued := Pass(target, guilds, conns, failing).issued;
            |issued| <= |guilds| &&
            (forall k :: 0 <= k < |issued| ==> issued[k].cmd != NoOp && issued[k].guild in Ids(guilds)) &&
            (forall k, l :: 0 <= k < l < |issued| ==> issued[k].guild != issued[l].guild)
    decreases |guilds|
  {
    if guilds != [] {
      var n := |guilds| - 1;
      var prefix := guilds[..n];
      assert forall i :: 0 <= i < n ==> prefix[i] == guilds[i];
      AtMostOneCommandPerGuild(target, prefix, conns, failing);
      assert Ids(prefix) <= Ids(guilds);
      assert guilds[n].id !in Ids(prefix);
    }
  }

  /**
   * The outcome of a pass. The first `done` guilds end on the target decided
   * from the connection they had, and none of them had a command that raises;
   * the rest keep their connection. The pass is cut short exactly when a
   * command raised, and then guild `done` is the first guild whose real command
   * raises; the guilds after it are not visited.
   */
  lemma {:induction false} PassOutcome(target: Targeting, guilds: seq<Guild>, conns: Connections, failing: set<GuildId>)
    returns (done: nat)
    requires DistinctIds(guilds)
    ensures var r := Pass(target, guilds, conns, failing);
            done <= |guilds| &&
            (r.aborted <==> done < |guilds|) &&
            (forall i :: 0 <= i < done ==>
               CurrentOf(r.conns, guilds[i].id) == target(guilds[i], CurrentOf(conns, guilds[i].id))) &&
            (forall i :: done <= i < |guilds| ==> CurrentOf(r.conns, guilds[i].id) == CurrentOf(conns, guilds[i].id)) &&
            (forall i :: 0 <= i < done ==> !(guilds[i].id in failing && CommandFor(target, guilds[i], conns) != NoOp)) &&
            (r.aborted ==> guilds[done].id in failing && CommandFor(target, guilds[done], conns) != NoOp)
    decreases |guilds|
  {
    if guilds == [] {
      done := 0;
    } else {
      var n := |guilds| - 1;
      var prefix := guilds[..n];
      assert forall i :: 0 <= i < n ==> prefix[i] == guilds[i];
      var g := guilds[n];
      var d := PassOutcome(target, prefix, conns, failing);
      var prev := Pass(target, prefix, conns, failing);
      var r := Pass(target, guilds, conns, failing);
      PassLeavesOthers(target, prefix, conns, failing);
      assert g.id !in Ids(prefix);
      var current := CurrentOf(conns, g.id);
      assert CurrentOf(prev.conns, g.id) == current;
      var cmd := CommandFor(target, g, conns);
      assert CommandFor(target, g, prev.conns) == cmd;
      if prev.aborted {
        assert r == prev;
        done := d;
      } else if cmd == NoOp || g.id !in failing {
        assert d == n;
        assert r.conns == Perform(prev.conns, g.id, cmd) && !r.aborted;
        assert CurrentOf(r.conns, g.id) == Apply(current, cmd) == target(g, current);
        assert forall i :: 0 <= i < n ==> CurrentOf(r.conns, guilds[i].id) == CurrentOf(prev.conns, guilds[i].id);
        done := n + 1;
      } else {
        assert d == n;
        assert r == PassResult(prev.conns, true, prev.issued + [Issued(g.id, cmd)]);
        done := n;
      }
    }
  }

  /** A pass in which no real command raises completes and sends exactly the decisions, in order. */
  lemma {:induction false} CleanPassSendsDecisions(target: Targeting, guilds: seq<Guild>, conns: Connections, failing: set<GuildId>)
    requires DistinctIds(guilds)
    requires forall i :: 0 <= i < |guilds| ==> !(guilds[i].id in failing && CommandFor(target, guilds[i], conns) != NoOp)
    ensures !Pass(target, guilds, conns, failing).aborted
    ensures Pass(target, guilds, conns, failing).issued == Sent(target, guilds, conns)
    decreases |guilds|
  {
    if guilds != [] {
      var n := |guilds| - 1;
      var prefix := guilds[..n];
      assert forall i :: 0 <= i < n ==> prefix[i] == guilds[i];
      CleanPassSendsDecisions(target, prefix, conns, failing);
      var g := guilds[n];
      var prev := Pass(target, prefix, conns, failing);
      assert CommandFor(target, g, prev.conns) == CommandFor(target, g, conns) by {
        PassLeavesOthers(target, prefix, conns, failing);
        assert g.id !in Ids(prefix);
      }
    }
  }

  /**
   * The commands a pass sends. When guild `done` is the first whose real
   * command raises (or `done` counts every guild), the pass is cut short
   * exactly when `done` is not the end, and it sends the decisions, in order,
   * for the guilds before `done`, plus the command that raised.
   */
  lemma PassSendsDecisions(target: Targeting, guilds: seq<Guild>, conns: Connections, failing: set<GuildId>, done: nat)
    requires DistinctIds(guilds)
    requires done <= |guilds|
    requires forall i :: 0 <= i < done ==> !(guilds[i].id in failing && CommandFor(target, guilds[i], conns) != NoOp)
    requires done < |guilds| ==> guilds[done].id in failing && CommandFor(target, guilds[done], conns) != NoOp
    ensures Pass(target, guilds, conns, failing).aborted <==> done < |guilds|
    ensures Pass(target, guilds, conns, failing).issued ==
              Sent(target, guilds[..done], conns) +
              (if done < |guilds| then [Issued(guilds[done].id, CommandFor(target, guilds[done], conns))] else [])
  {
    var before := guilds[..done];
    assert forall i :: 0 <= i < done ==> before[i] == guilds[i];
    CleanPassSendsDecisions(target, before, conns, failing);
    if done == |guilds| {
      assert before == guilds;
    } else {
      var upTo := guilds[..done + 1];
      assert upTo[..done] == before;
      var g := guilds[done];
      var prev := Pass(target, before, conns, failing);
      assert CommandFor(target, g, prev.conns) == CommandFor(target, g, conns) by {
        PassLeavesOthers(target, before, conns, failing);
        assert g.id !in Ids(before);
      }
      assert Pass(target, upTo, conns, failing).aborted;
      AbortedPassStops(target, guilds, done + 1, conns, failing);
    }
  }

  /** Once a command has raised, the guilds after it change nothing. */
  lemma {:induction false} AbortedPassStops(target: Targeting, guilds: seq<Guild>, k: nat, conns: Connections, failing: set<GuildId>)
    requires k <= |guilds|
    requires Pass(target, guilds[..k], conns, failing).aborted
    ensures Pass(target, guilds, conns, failing) == Pass(target, guilds[..k], conns, failing)
    decreases |guilds| - k
  {
    if k < |guilds| {
      var next := guilds[..k + 1];
      assert next[..k] == guilds[..k];
      assert Pass(target, next, conns, failing) == Pass(target, guilds[..k], conns, failing);
      AbortedPassStops(target, guilds, k + 1, conns, failing);
    } else {
      assert guilds[..k] == guilds;
    }
  }

  /** A pass over guilds whose connections already match their targets sends nothing and changes nothing. */
  lemma {:induction false} SettledPassIsQuiet(target: Targeting, guilds: seq<Guild>, conns: Connections, failing: set<GuildId>)
    requires forall i :: 0 <= i < |guilds| ==> target(guilds[i], CurrentOf(conns, guilds[i].id)) == CurrentOf(conns, guilds[i].id)
    ensures Pass(target, guilds, conns, failing) == PassResult(conns, false, [])
    decreases |guilds|
  {
    if guilds != [] {
      var n := |guilds| - 1;
      assert forall i :: 0 <= i < n ==> guilds[..n][i] == guilds[i];
      SettledPassIsQuiet(target, guilds[..n], conns, failing);
    }
  }

  // ---------------------------------------------------------------------------
  // The pass with the busiest-channel rule
  // ---------------------------------------------------------------------------

  /**
   * With no failing command, every visited guild ends on its busiest channel
   * (or out of voice when it has none), and that connection is settled:
   * deciding again from it chooses the same channel.
   */
  lemma PassConverges(guilds: seq<Guild>, conns: Connections, failing: set<GuildId>)
    requires DistinctIds(guilds)
    requires !Pass(TargetOf, guilds, conns, failing).aborted
    ensures var after := Pass(TargetOf, guilds, conns, failing).conns;
            forall i :: 0 <= i < |guilds| ==>
              CurrentOf(after, guilds[i].id) == TargetOf(guilds[i], CurrentOf(conns, guilds[i].id)) &&
              TargetOf(guilds[i], CurrentOf(after, guilds[i].id)) == CurrentOf(after, guilds[i].id)
  {
    var done := PassOutcome(TargetOf, guilds, conns, failing);
    forall i | 0 <= i < |guilds| {
      TargetIsStable(guilds[i], CurrentOf(conns, guilds[i].id));
    }
  }

  /** A pass keeps every connection inside the guild it belongs to. */
  lemma PassStaysWithinGuild(guilds: seq<Guild>, conns: Connections, failing: set<GuildId>)
    requires DistinctIds(guilds)
    requires WithinOwnGuild(guilds, conns)
    ensures WithinOwnGuild(guilds, Pass(TargetOf, guilds, conns, failing).conns)
  {
    var done := PassOutcome(TargetOf, guilds, conns, failing);
    var r := Pass(TargetOf, guilds, conns, failing);
    forall i | 0 <= i < |guilds| && guilds[i].id in r.conns
      ensures HasChannel(guilds[i], r.conns[guilds[i].id])
    {
      TargetIsOwnNonAfkChannel(guilds[i], CurrentOf(conns, guilds[i].id));
      if done <= i {
        assert CurrentOf(r.conns, guilds[i].id) == CurrentOf(conns, guilds[i].id);
      } else {
        assert CurrentOf(r.conns, guilds[i].id) == TargetOf(guilds[i], CurrentOf(conns, guilds[i].id));
      }
    }
  }

  /**
   * Idempotence across cycles: once a pass completes, a second pass over the
   * same membership sends no command at all, whatever would have failed.
   */
  lemma SecondPassIsQuiet(guilds: seq<Guild>, conns: Connections, failing: set<GuildId>, failingNext: set<GuildId>)
    requires DistinctIds(guilds)
    requires !Pass(TargetOf, guilds, conns, failing).aborted
    ensures var settled := Pass(TargetOf, guilds, conns, failing).conns;
            Pass(TargetOf, guilds, settled, failingNext) == PassResult(settled, false, [])
  {
    PassConverges(guilds, conns, failing);
    SettledPassIsQuiet(TargetOf, guilds, Pass(TargetOf, guilds, conns, failing).conns, failingNext);
  }

  /** The bot's voice clients, one per guild at most, changed by the commands the pass sends. */
  class Client {
    var voiceClients: Connections

    constructor ()
      ensures voiceClients == map[]
    {
      voiceClients := map[];
    }

    /** `channel.connect()`: opens the guild's voice client; the library refuses it when one is open. */
    method Connect(g: GuildId, c: ChannelId)
      requires g !in voiceClients
      modifies this
      ensures voiceClients == old(voiceClients)[g := c]
    {
      voiceClients := voiceClients[g := c];
    }

    /** `voice_client.move_to(channel)`: rebinds an open voice client. */
    method MoveTo(g: GuildId, c: ChannelId)
      requires g in voiceClients
      modifies this
      ensures voiceClients == old(voiceClients)[g := c]
    {
      voiceClients := voiceClients[g := c];
    }

    /** `voice_client.disconnect()`: closes an open voice client. */
    method Disconnect(g: GuildId)
      requires g in voiceClients
      modifies this
      ensures voiceClients == old(voiceClients) - {g}
    {
      voiceClients := voiceClients - {g};
    }

    /**
     * One run of the periodic task: visit the guilds in order, scan each one's
     * voice channels as the library reports them, decide, and send the command;
     * a command for a guild in `failing` raises, which ends the pass.
     */
    method CheckVoiceChannels(guilds: seq<Guild>, failing: set<GuildId>) returns (aborted: bool, issued: seq<Issued>)
      modifies this
      ensures PassResult(voiceClients, aborted, issued) == Pass(TargetOf, guilds, old(voiceClients), failing)
    {
      aborted, issued := false, [];
      var i := 0;
      while i < |guilds| && !aborted
        invariant 0 <= i <= |guilds|
        invariant PassResult(voiceClients, aborted, issued) == Pass(TargetOf, guilds[..i], old(voiceClients), failing)
      {
        var guild := guilds[i];
        assert guilds[..i + 1][..i] == guilds[..i];
        var current := CurrentOf(voiceClients, guild.id);
        var target, maxMembers := SelectTarget(Reported(guild.voiceChannels, current), guild.afkChannel);
        var cmd := Decide(current, IdOf(target));
        if cmd != NoOp {
          issued := issued + [Issued(guild.id, cmd)];
          if guild.id in failing {
            aborted := true;
          } else {
            match cmd
            case Connect(c) => Connect(guild.id, c);
            case MoveTo(c) => MoveTo(guild.id, c);
            case Disconnect => Disconnect(guild.id);
          }
        }
        i := i + 1;
      }
      if aborted {
        AbortedPassStops(TargetOf, guilds, i, old(voiceClients), failing);
      } else {
        assert guilds[..i] == guilds;
      }
    }
  }
}
