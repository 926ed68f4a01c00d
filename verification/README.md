# Busiest-voice-channel follower: reconciliation model

A Discord bot (`crazy.py`) wakes every ten seconds. For every guild it is in, it finds
the voice channel with the most members, skipping the guild's AFK channel. It then
joins that channel or moves to it. When no non-AFK channel reports any member, it
leaves voice. This project models that decision and proves its properties in Dafny:

- `Selection` (selection.dfy): the scan over a guild's voice channels. `Scan` is the
  specification of the scan as a function over the channels visited so far.
  `SelectTarget` replays the loop and is proved equal to it. Lemmas characterise the
  result: the maximum, the first-wins tie-break, AFK exclusion and the empty case.
- `Decision` (decision.dfy): the four-way choice between `Connect`, `MoveTo`,
  `Disconnect` and `NoOp`. `Apply` gives the effect of each command on the connection.
- `Reconciler` (reconciler.dfy): the pass over all guilds.
  - `TargetOf` is the busiest-channel rule, applied to the counts the library reports.
  - `Pass` specifies one run for a targeting rule. Its lemmas cover the outcome, the
    commands sent, at most one command per guild, and what happens when a command
    raises.
  - The `Client` class holds the bot's voice clients as a map from guild to channel.
    `CheckVoiceChannels` runs the pass with `TargetOf` and is proved equal to
    `Pass(TargetOf, ...)`.
- `Scenarios` (scenarios.dfy): concrete cycles of one guild.

Channels and guilds are compared by identity (their id), as the Discord library's
equality does. A failed `connect`, `move_to` or `disconnect` is modelled as the
parameter `failing`: the set of guilds whose command raises in this pass.

The scan reads `len(channel.members)` (crazy.py:49-50). The library counts every member
whose voice state is in the channel, and that includes the bot itself. The model
therefore stores, per channel, the members other than the bot. `Reported` adds one for
the channel the bot is connected to. This has two consequences, both proved:

- A bot connected to one of the guild's own non-AFK channels always has a target, so it
  is never disconnected (`NeverLeavesListedChannel`, `StaysAloneInItsChannel`).
  Disconnect is reached only from the AFK channel or from a channel the guild does not
  list. The program's own comments say it should leave once every channel is empty of
  people, so this is recorded under "## Findings". `IntendedTargetOf` is the corrected
  rule, which counts only the members other than the bot.
- The bot's own presence can win a tie (`StaysAloneAheadOfOccupiedChannel`).

A single `try` (crazy.py:40, 70-71) wraps the whole loop over guilds, so there is no
per-guild error isolation. One raising command ends the pass, and the guilds after it
are not visited until the next tick. `PassOutcome`, `PassSendsDecisions` and
`AbortedPassStops` state this.

## Model

| member | source | states |
|---|---|---|
| `Selection.Scan` | crazy.py:43-51 | With no target the running maximum is 0, and with a target the maximum is that target's member count. |
| `Selection.SelectTarget` | crazy.py:43-51 | The loop computes exactly `Scan`. Any chosen channel is one of the guild's channels, is not the AFK channel and has `maxMembers` members. "No target" holds exactly when `maxMembers` is 0. No eligible channel has more than `maxMembers` members. |
| `Selection.ScanTargetIsEligibleMember` | crazy.py:48-51 | The chosen channel occurs in the guild's channel list and is never the AFK channel. |
| `Selection.ScanIsMaximum` | crazy.py:49-50 | Every non-AFK channel has at most `maxMembers` members. |
| `Selection.NoTargetIffAllEmpty` | crazy.py:43-44 | There is no target exactly when every non-AFK channel is empty, including when there are no channels. |
| `Selection.FirstMaxIsSelected` | crazy.py:49-51 | Tie-break: the first non-AFK channel holding the nonzero maximum is chosen, with its member count as the maximum. |
| `Selection.SelectedIsFirstMax` | crazy.py:49-51 | Converse: any chosen channel is the first non-AFK channel at the nonzero maximum. |
| `Selection.UniqueMaxIsSelected` | crazy.py:49-51 | A non-AFK channel with strictly more members than every other non-AFK channel is chosen. |
| `Selection.UniqueMaxOrderIndependent` | crazy.py:48-51 | With a unique maximum, reordering the channel list does not change the choice. |
| `Selection.ChoiceSurvivesBoost` | crazy.py:49-51 | Add one to every entry with the chosen channel's identity, and let no other count rise. The scan still chooses that channel. |
| `Selection.NoChoiceSurvivesDrop` | crazy.py:43-51 | When nothing is chosen, lowering counts still chooses nothing. |
| `Decision.Decide` | crazy.py:57-68 | The command leaves the connection on the target, or disconnected when there is none. It is NoOp exactly when the bot is already there. `Connect` is used only when there is no voice client. `MoveTo` and `Disconnect` are used only when there is one. Together these fix the decision table. |
| `Reconciler.Perform` | crazy.py:61-68 | A sent command changes the guild's connection as `Apply` says, and no other guild's connection. |
| `Reconciler.TargetIsOwnNonAfkChannel` | crazy.py:48-51 | A guild's target is one of its own voice channels and never its AFK channel. |
| `Reconciler.NeverLeavesListedChannel` | crazy.py:49-68 | Counts include the bot. So a bot connected to one of the guild's own non-AFK channels always has a target and is never sent Disconnect. |
| `Reconciler.TargetIsStable` | crazy.py:49-64 | Once the bot is on its target, or out of voice when there is none, its own added count leaves the target unchanged. |
| `Reconciler.IntendedLeavesWhenNobodyElse` | crazy.py:65-68 | Under the corrected rule, a connected bot whose non-AFK channels hold nobody else has no target and is sent Disconnect. |
| `Reconciler.IntendedSecondPassIsQuiet` | crazy.py:40-71 | Under the corrected rule, after a completed pass a second pass over unchanged membership sends no command and changes nothing. |
| `Reconciler.PassLeavesOthers` | crazy.py:42-68 | A pass never changes the connection of a guild it does not visit. |
| `Reconciler.AtMostOneCommandPerGuild` | crazy.py:42-68 | Every command sent is a real command for a visited guild, and no guild gets two commands in one pass. |
| `Reconciler.PassOutcome` | crazy.py:40-71 | The guilds before `done` end on the targets decided from their old connections, and none of them had a real command that raises. The guilds from `done` on keep their connections. The pass aborts exactly when `done` is short of the end. In that case guild `done` is the first whose real command raises. |
| `Reconciler.CleanPassSendsDecisions` | crazy.py:42-68 | If no guild's real command raises, the pass completes and sends exactly the non-NoOp decisions, in guild order. |
| `Reconciler.PassSendsDecisions` | crazy.py:40-71 | Let `done` be the first guild whose real command raises, or every guild if none does. The pass aborts exactly when `done` is short of the end. The commands it sends are, in order, the non-NoOp decisions for the guilds before `done`, plus the command that raised. |
| `Reconciler.PassConverges` | crazy.py:42-68 | If no command raises, every guild ends on its busiest channel, or out of voice when there is none. The next decision from there chooses the same channel. |
| `Reconciler.PassStaysWithinGuild` | crazy.py:48-64 | If every connection was inside its own guild before a pass, that still holds after it. |
| `Reconciler.SettledPassIsQuiet` | crazy.py:57-68 | When every guild is already on its target, a pass sends nothing and changes nothing. |
| `Reconciler.SecondPassIsQuiet` | crazy.py:57-68 | Idempotence: a second pass over unchanged membership after a completed pass sends no command. |
| `Reconciler.AbortedPassStops` | crazy.py:40-71 | After a command raises, the remaining guilds change nothing in that pass. |
| `Reconciler.Client.Connect` | crazy.py:61 | Opens the guild's voice client on the channel. It requires that none is open. |
| `Reconciler.Client.MoveTo` | crazy.py:64 | Rebinds the guild's open voice client to the channel. |
| `Reconciler.Client.Disconnect` | crazy.py:68 | Closes the guild's open voice client. |
| `Reconciler.Client.CheckVoiceChannels` | crazy.py:36-71 | The new voice clients, the abort flag and the commands sent are exactly those of `Pass(TargetOf, ...)` from the old voice clients. |
| `Scenarios.JoinsFullestNonAfkChannel` | crazy.py:48-61 | With channels General 0, Gaming 3 and AFK 5 and no connection, the pass connects to Gaming. |
| `Scenarios.StaysAloneInItsChannel` | crazy.py:49-64 | A bot connected to Gaming has no other members there and only the AFK channel is occupied. It counts itself in Gaming, so nothing is sent and it stays. |
| `Scenarios.LeavesFromAfkWhenOthersEmpty` | crazy.py:66-68 | A bot in the AFK channel, with every other channel empty, is disconnected. |
| `Scenarios.TieGoesToFirstListed` | crazy.py:49-61 | With two channels at 4 members each and no connection, the bot connects to the first. |
| `Scenarios.StaysAloneAheadOfOccupiedChannel` | crazy.py:49-64 | The bot alone in the first channel ties with one person in the second, because it counts itself. It stays. |
| `Scenarios.IntendedLeavesEmptyChannel` | crazy.py:65-68 | The cycle of `StaysAloneInItsChannel` under the corrected rule: the bot is disconnected. |

## Left out

- The Discord client, intents, `on_ready` and `bot.run` (crazy.py:1-33, 80-91) are platform plumbing with no decision in them.
- The ten-second `tasks.loop` schedule and the `before_loop` wait for readiness (crazy.py:35, 73-78) are timers and async lifecycle. A run of the loop is one call of `CheckVoiceChannels`. Consecutive runs appear only in `SecondPassIsQuiet`.
- Loading the token from `.env` and the startup error messages (crazy.py:5-12, 81-91) are process I/O.
- All `print` logging, including channel names, which only appear in log lines.
- The network effect of `connect`, `move_to` and `disconnect` is left out. Each is modelled as a map update. A command that raises is modelled as leaving that guild's connection unchanged, although on the platform a partly completed call could leave it otherwise. Which commands raise is an input (`failing`).
- An exception raised while reading the platform state (not by a command) is not modelled. Such reads are field accesses in the model.
- Changes to the voice clients made outside the pass, such as a moderator moving or disconnecting the bot between or during passes, are not modelled as events. They appear only as the voice clients the next pass starts from.
- Member counts come from the library's member cache. The model takes the other members of each channel as input and adds the bot itself. Whether that cache is up to date is not modelled.

## Findings

| source | as written | input that shows it | evidently intended | confidence | as-written member | corrected member |
|---|---|---|---|---|---|---|
| crazy.py:49-50 against crazy.py:65-68 | The scan counts `len(channel.members)`, and that count includes the bot itself. A bot connected to a non-AFK channel therefore always finds a channel with at least one member. | The bot is in Gaming with nobody else; General is empty and only the AFK channel holds people. The bot counts itself in Gaming, so Gaming stays the target and nothing is sent, on every pass. | The comment at line 65 and the log line at 67 say the bot leaves when no channel holds people, and the docstring at line 38 says it follows the most populated channel. The count should leave the bot out, so the bot disconnects once it is alone. | high; not executed | `Reconciler.NeverLeavesListedChannel`, `Scenarios.StaysAloneInItsChannel` | `Reconciler.IntendedTargetOf` with `Reconciler.IntendedLeavesWhenNobodyElse`, `Reconciler.IntendedSecondPassIsQuiet`, `Scenarios.IntendedLeavesEmptyChannel` |
