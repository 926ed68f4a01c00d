/** Concrete cycles of one guild, as the bot would live through them. */
module Scenarios {
  import opened Wrappers
  import opened Selection
  import opened Decision
  import opened Reconciler

  const General: ChannelId := 1
  const Gaming: ChannelId := 2
  const Afk: ChannelId := 3

  /** The AFK channel is the fullest, yet the bot joins the fullest other channel. */
  lemma JoinsFullestNonAfkChannel()
    ensures var g := Guild(7, [VoiceChannel(General, 0), VoiceChannel(Gaming, 3), VoiceChannel(Afk, 5)], Some(Afk));
            Pass(TargetOf, [g], map[], {}) == PassResult(map[7 := Gaming], false, [Issued(7, Connect(Gaming))])
  {
    var g := Guild(7, [VoiceChannel(General, 0), VoiceChannel(Gaming, 3), VoiceChannel(Afk, 5)], Some(Afk));
    var seen := Reported(g.voiceChannels, None);
    assert seen == [Channel(General, 0), Channel(Gaming, 3), Channel(Afk, 5)];
    UniqueMaxIsSelected(seen, g.afkChannel, Channel(Gaming, 3));
  }

  /**
   * Everyone leaves Gaming and only the AFK channel is occupied. The bot still
   * counts itself in Gaming, so Gaming stays the target and nothing is sent.
   */
  lemma StaysAloneInItsChannel()
    ensures var g := Guild(7, [VoiceChannel(General, 0), VoiceChannel(Gaming, 0), VoiceChannel(Afk, 2)], Some(Afk));
            Pass(TargetOf, [g], map[7 := Gaming], {}) == PassResult(map[7 := Gaming], false, [])
  {
    var g := Guild(7, [VoiceChannel(General, 0), VoiceChannel(Gaming, 0), VoiceChannel(Afk, 2)], Some(Afk));
    var seen := Reported(g.voiceChannels, Some(Gaming));
    assert seen == [Channel(General, 0), Channel(Gaming, 1), Channel(Afk, 2)];
    UniqueMaxIsSelected(seen, g.afkChannel, Channel(Gaming, 1));
  }

  /** A bot that sits in the AFK channel while every other channel is empty leaves voice. */
  lemma LeavesFromAfkWhenOthersEmpty()
    ensures var g := Guild(7, [VoiceChannel(General, 0), VoiceChannel(Gaming, 0), VoiceChannel(Afk, 2)], Some(Afk));
            Pass(TargetOf, [g], map[7 := Afk], {}) == PassResult(map[], false, [Issued(7, Disconnect)])
  {
    var g := Guild(7, [VoiceChannel(General, 0), VoiceChannel(Gaming, 0), VoiceChannel(Afk, 2)], Some(Afk));
    var seen := Reported(g.voiceChannels, Some(Afk));
    assert seen == [Channel(General, 0), Channel(Gaming, 0), Channel(Afk, 3)];
    NoTargetIffAllEmpty(seen, g.afkChannel);
    assert map[7 := Afk] - {7} == map[];
  }

  /** Two channels tie at the maximum: the one listed first wins. */
  lemma TieGoesToFirstListed()
    ensures var g := Guild(7, [VoiceChannel(General, 4), VoiceChannel(Gaming, 4)], None);
            CommandFor(TargetOf, g, map[]) == Connect(General)
  {
    var g := Guild(7, [VoiceChannel(General, 4), VoiceChannel(Gaming, 4)], None);
    var seen := Reported(g.voiceChannels, None);
    assert seen == [Channel(General, 4), Channel(Gaming, 4)];
    FirstMaxIsSelected(seen, g.afkChannel, 0);
  }

  /**
   * The bot alone in General ties with one person in Gaming, because it counts
   * itself; General is listed first, so the bot stays where nobody else is.
   */
  lemma StaysAloneAheadOfOccupiedChannel()
    ensures var g := Guild(7, [VoiceChannel(General, 0), VoiceChannel(Gaming, 1)], None);
            CommandFor(TargetOf, g, map[7 := General]) == NoOp
  {
    var g := Guild(7, [VoiceChannel(General, 0), VoiceChannel(Gaming, 1)], None);
    var seen := Reported(g.voiceChannels, Some(General));
    assert seen == [Channel(General, 1), Channel(Gaming, 1)];
    FirstMaxIsSelected(seen, g.afkChannel, 0);
  }

  /** The same cycle as `StaysAloneInItsChannel`, under the intended rule: the bot leaves. */
  lemma IntendedLeavesEmptyChannel()
    ensures var g := Guild(7, [VoiceChannel(General, 0), VoiceChannel(Gaming, 0), VoiceChannel(Afk, 2)], Some(Afk));
            Pass(IntendedTargetOf, [g], map[7 := Gaming], {}) == PassResult(map[], false, [Issued(7, Disconnect)])
  {
    var g := Guild(7, [VoiceChannel(General, 0), VoiceChannel(Gaming, 0), VoiceChannel(Afk, 2)], Some(Afk));
    IntendedLeavesWhenNobodyElse(g, Some(Gaming));
    assert map[7 := Gaming] - {7} == map[];
  }
}
