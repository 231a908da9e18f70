# Squad.Bot private rooms, modelled in Dafny

Squad.Bot is a Discord bot. Its private rooms ("portal") feature gives each guild a
portal. A portal is a category that holds a trigger voice channel and a settings text
channel, recorded in a `PrivateRooms` row of the bot's database. A member who joins the
trigger gets a voice room of their own and owns it. An empty room is deleted.

This project models two parts of the bot as pure functions over an immutable world:

- **The voice-state handler** (`OnUserStateChange.PrivateRooms` and `IsUserOwner`),
  module `VoiceRooms`. One voice-state event `(member, old channel?, new channel?)`
  loads the portal row and makes one of four decisions, in source order:
  - move the owner back into their room;
  - spawn a room and move the member into it;
  - delete the empty room the member left;
  - do nothing.
- **The portal commands** (`PrivateRoomsCommands`), module `PortalCommands`.
  - `invite` either refuses with "already created", or purges a stale row and jumps
    back, or builds the category, trigger and settings channels.
  - `rename`, `hide`, `kick`, `limit` and `owner` test a guard. Only `rename` acts on it.

Module `GuildState` holds the world:

- the portal store, one row per guild;
- every guild's live channels, each with its kind, guild, category, occupants, per-user
  and per-role overwrites, name and topic;
- the known users and their guild nicknames.

The world a voice event sees is the gateway cache after the change. The gateway updates
its voice states before it raises the event, so the member is already counted in the
channel they joined and no longer in the channel they left.

Remote Discord calls and database writes are values of `Call`. `Run` applies them in
order. Each handler returns its decision, the calls it makes, and the world after them.
The modules `VoiceRoomsProperties` and `PortalCommandsProperties` hold the lemmas that
relate several calls or several branches.

Null dereferences in the source crash the handler. They are modelled as `Failure`
results that name the site (`Fault`), with no remote call made:

- `NoVoiceChannel`: both sides of the event are null.
- `NoPortalRow`: the guild has no row. Every guard of the voice handler reads the row, so
  a guild without a portal does not ignore voice events. Every event there ends in this
  fault. The room commands hit it too.
- `NoCategory`: the left channel's category resolves to null. The cache resolves a
  channel's category from its parent id, and gives null when there is no parent or when
  the parent id names no cached category channel of the guild (for example just after
  the category was deleted). This is read at `OnUserStateChange.cs:44` only when the
  member joined the trigger, so such a member gets no room. It is read at line 67 only
  when the left channel is not the trigger.
- `BotNotInVoice`: a room command runs in the settings channel while the bot itself is in
  no voice channel.

Behaviour kept as the code has it, although it looks unintended:

- Line 40 of `PrivateRoomsCommands.cs` tests `savedPortal?.CategoryID != null &&
  savedPortal?.ChannelID != null`. Both fields are passed as plain `ulong` ids to the
  channel lookups, so the test is true exactly when a row was loaded. The entity class is
  not part of this model.
- A row is stale only when all three of its channels are missing. If any one channel
  remains, `invite` refuses.
- The row is loaded once. The `goto N` re-tests the same loaded row, which is still
  stale, so the purge repeats and creation is never reached in that invocation. The model
  follows the jump at most `restarts` times and then reports `Unfinished`. It is proved
  that the outcome and final state do not depend on the bound.
- The create branch never saves a `PrivateRooms` row.
- The room commands test the bot's own voice channel (`Context.Guild.CurrentUser`), not
  the invoker's. A bot channel with no category compares unequal and does not crash.
- A member moving from a room they do not own into the trigger gets a new room. The room
  they left is not deleted in that event, even when it is empty.

## Model

| member | source | states |
|---|---|---|
| VoiceRooms.EventGuild | Squad.Bot/Events/OnUserStateChange.cs:36-42 | the row is looked up in the new channel's guild whenever there is a new channel, in the old channel's guild when there is none, and the lookup faults when both are null |
| VoiceRooms.IsUserOwner | Squad.Bot/Events/OnUserStateChange.cs:77-84 | true iff the channel has a per-user overwrite for the member whose ManageChannel is Allow; no overwrite means false |
| VoiceRooms.DisplayName | Squad.Bot/Events/OnUserStateChange.cs:58-59 | the room name's prefix is the guild nickname if non-null, else the global name if non-null, else the username |
| VoiceRooms.NewRoom | Squad.Bot/Events/OnUserStateChange.cs:52-62 | a spawned room is a voice channel in the portal category, empty, with no role overwrite and one user overwrite that makes the spawning member its owner, named display name + "'s channel" |
| VoiceRooms.BounceGuard | Squad.Bot/Events/OnUserStateChange.cs:44 | holds iff both sides are present, new is the trigger, old's parent is the portal category and is a live category of the guild, and the member owns old; faults exactly when new is the trigger and old's category resolves to null (no parent, or a parent that is not a cached category) |
| VoiceRooms.ReclaimGuard | Squad.Bot/Events/OnUserStateChange.cs:67 | holds iff old is present, is not the trigger, and its parent is the portal category and a live category of the guild; faults exactly when old is not the trigger and its category resolves to null |
| VoiceRooms.Decide | Squad.Bot/Events/OnUserStateChange.cs:34-75 | it faults exactly when there is no channel, no row, or a guard reached in order faults; MoveBack exactly when the bounce-back guard holds; Spawn exactly when that guard is false and new is the trigger; Reclaim or keep exactly when both earlier tests fail and the reclaim guard holds, Reclaim exactly when the room is empty; nothing exactly when no guard holds and none faults |
| VoiceRooms.Plan | Squad.Bot/Events/OnUserStateChange.cs:44-74 | the handler never writes the store, renames or sends a message; only the event's member is moved, into the left room or the new room; only the new room is created, empty, before the member is moved into it; only a reclaimed left room is deleted; a kept room or an ignored event makes no call |
| VoiceRooms.Step | Squad.Bot/Events/OnUserStateChange.cs:44-74 | an event never writes the store, creates at most the new room, and creates it exactly on Spawn; the only channel it can delete is the old one, and only when that is an empty non-trigger channel of the portal category |
| VoiceRooms.PlanEffect | Squad.Bot/Events/OnUserStateChange.cs:44-74 | bounce-back and no-op keep the channel set; spawn adds exactly the new room; reclaim removes exactly the left room; the store is untouched |
| GuildState.MoveMember | Squad.Bot/Events/OnUserStateChange.cs:46-47 | moving a member puts them in the destination and in no other channel, and changes nothing else about any channel |
| VoiceRoomsProperties.NoPortalRowFaults | Squad.Bot/Events/OnUserStateChange.cs:36-67 | in a guild without a row every voice event faults on the missing row |
| VoiceRoomsProperties.OwnerBouncesBack | Squad.Bot/Events/OnUserStateChange.cs:44-48 | an owner leaving their portal-category room for the trigger is moved back to that room; the only call is that move and no channel is created or deleted |
| VoiceRoomsProperties.JoiningTriggerSpawnsOwnedRoom | Squad.Bot/Events/OnUserStateChange.cs:50-65 | when the bounce-back guard fails, joining the trigger adds exactly one voice channel in the portal category, owned through its single owner overwrite, named after the member, holding exactly the member; nothing is deleted |
| VoiceRoomsProperties.OwnerGrantMakesOwner | Squad.Bot/Events/OnUserStateChange.cs:52-57 | the owner grant allows MuteMembers, DeafenMembers and ManageChannel, so its holder passes the ownership test |
| VoiceRoomsProperties.UncategorisedLeftChannelBlocksSpawn | Squad.Bot/Events/OnUserStateChange.cs:44 | joining the trigger from a channel with no category faults, so no room is spawned |
| VoiceRoomsProperties.DanglingCategoryFaults | Squad.Bot/Events/OnUserStateChange.cs:67 | leaving a non-trigger channel whose parent id names no live channel, for anywhere but the trigger, faults, even when the channel is empty |
| VoiceRoomsProperties.UnrelatedEventIsIgnored | Squad.Bot/Events/OnUserStateChange.cs:44-75 | an event that does not join the trigger and does not leave a non-trigger channel of the portal category (for example a move between two channels outside the portal) makes no call and changes nothing |
| VoiceRoomsProperties.EmptyRoomIsReclaimed | Squad.Bot/Events/OnUserStateChange.cs:67-73 | leaving an empty non-trigger room of the portal category for anywhere but the trigger deletes exactly that room |
| VoiceRoomsProperties.OccupiedRoomIsKept | Squad.Bot/Events/OnUserStateChange.cs:67-73 | the same room with at least one occupant is kept: no call, world unchanged |
| VoiceRoomsProperties.NonOwnerLeavingEmptyRoomOnlySpawns | Squad.Bot/Events/OnUserStateChange.cs:44-73 | a non-owner leaving an empty room for the trigger gets a spawn, and the room they left survives the event |
| VoiceRoomsProperties.PortalChannelsSurvive | Squad.Bot/Events/OnUserStateChange.cs:67 | the trigger and every channel outside the portal category survive every event |
| VoiceRoomsProperties.StepPreservesWellFormed | Squad.Bot/Events/OnUserStateChange.cs:44-74 | every handled event keeps occupants only in voice channels and each member in at most one channel |
| PortalCommands.InviteFrom | Squad.Bot/Commands/PrivateRoomsCommands.cs:38-58 | with no row it runs the create plan; with a live row it only replies "already created" with the delete button; with a stale row it only removes the row, once per pass, and ends Unfinished with the row gone |
| PortalCommands.AllMissing | Squad.Bot/Commands/PrivateRoomsCommands.cs:42 | a saved row is stale exactly when none of its category, trigger voice channel and settings text channel is found; any one found makes it live |
| PortalCommands.CreatePlan | Squad.Bot/Commands/PrivateRoomsCommands.cs:67-107 | the create branch creates exactly three empty channels of the invoking guild, the category first and the voice and text channels inside it, then posts the five-button settings message to the new settings channel and sends a public reply; it removes, deletes and moves nothing |
| PortalCommands.Invite | Squad.Bot/Commands/PrivateRoomsCommands.cs:35-108 | creation happens iff the single lookup found no row; refusal iff a row has a live channel; purge iff all three are gone; refusal changes nothing; the store never gains a row |
| PortalCommands.CreatePlanEffect | Squad.Bot/Commands/PrivateRoomsCommands.cs:62-99 | the create branch adds the category, trigger and settings channels and changes nothing else; the messages change no state |
| PortalCommands.SubCommandGuard | Squad.Bot/Commands/PrivateRoomsCommands.cs:117 | holds iff the command runs in the settings channel and the bot's voice channel is in the portal category; faults iff there is no row, or the command is in the settings channel and the bot is in no voice channel |
| PortalCommands.RenameRoom | Squad.Bot/Commands/PrivateRoomsCommands.cs:113-139 | under the guard only the bot's voice channel is renamed and an ephemeral reply is sent; otherwise no call and no change |
| PortalCommands.RunStub | Squad.Bot/Commands/PrivateRoomsCommands.cs:141-187 | hide, kick, limit and owner fault exactly as the guard does and otherwise make no call and change nothing |
| PortalCommandsProperties.InviteBuildsPortal | Squad.Bot/Commands/PrivateRoomsCommands.cs:59-108 | with no row the category is created first, then a voice and a text channel inside it; all three carry the same @everyone template; the topic is "manage private rooms"; the settings message has the five buttons in order; the store is unchanged |
| PortalCommandsProperties.InviteDefaultNames | Squad.Bot/Commands/PrivateRoomsCommands.cs:35 | the default names are "[➕] Create", "[⚙️] Settings" and "Portal" |
| PortalCommandsProperties.OneLiveChannelRefuses | Squad.Bot/Commands/PrivateRoomsCommands.cs:40-57 | a row with any one of its three channels present gives the "already created" reply with the single portal:delete button and no change |
| PortalCommandsProperties.StaleRowNeverRebuilds | Squad.Bot/Commands/PrivateRoomsCommands.cs:37-48 | a stale row is removed, no channel is ever created in that invocation, and the outcome and final state are the same for every restart bound |
| PortalCommandsProperties.InvitePreservesWellFormed | Squad.Bot/Commands/PrivateRoomsCommands.cs:62-74 | invite keeps the occupancy invariant |
| PortalCommandsProperties.GuardIgnoresInvokerVoice | Squad.Bot/Commands/PrivateRoomsCommands.cs:117 | the guard reads the bot's voice channel, not the invoker's: moving the invoker to any channel, or disconnecting them, leaves the guard's answer unchanged |
| PortalCommandsProperties.GuardHoldsWithInvokerOutOfVoice | Squad.Bot/Commands/PrivateRoomsCommands.cs:117 | with the bot in a room of the portal category, the guard holds in the settings channel even when the invoker is in no voice channel |
| PortalCommandsProperties.OutsideSettingsChannelIsQuiet | Squad.Bot/Commands/PrivateRoomsCommands.cs:117-138 | outside the settings channel every room command succeeds without any call or change, even when the bot is in no voice channel |
| PortalCommandsProperties.BotOutOfVoiceFaults | Squad.Bot/Commands/PrivateRoomsCommands.cs:147-159 | in the settings channel, with the bot in no voice channel, rename and the other room commands fault |

## Left out

- Discord and database I/O is modelled as abstract state updates. This covers async
  calls, the gateway cache, embeds, colours, labels of buttons and logging. The rendering
  of errors into replies and command dispatch are not part of this model.
- Server-assigned channel ids are parameters (`roomId`, `NewIds`). They are required to
  be unused, and distinct for `invite`.
- The `@everyone` role is given as the context's role id. The `Roles.First` lookup by
  name, and its exception when no such role exists, are not part of this model.
- `PermissionOverwriteHelper.SetOverwritePermissions` is not part of this model. Its
  argument-less call is modelled as an overwrite that sets no permission. Only the three
  permissions the handler sets or reads are modelled.
- The typed channel lookups are modelled as "present, in this guild, of the asked kind".
  Library details, such as voice channels also answering text-channel lookups, are not
  modelled.
- `Guild.GetUser` returning null and a user missing from the cache are not modelled. The
  event's member is a known user, its channels are live voice channels, and the member
  is connected to the joined channel and not to the channel left.
- The store holds at most one row per guild. `FirstOrDefaultAsync` over several rows of
  one guild is not modelled.
- Invite: the jump back after a purge is cut by the `restarts` bound. What the store does
  when the same removed row is removed and saved again is not part of this model. Either
  way no channel is created.
- StubCommand.Limit: the default value 5 of the `limit` argument is not modelled. The
  command's guarded branch is empty, so the value is never used.
- Concurrency, per-guild ordering and failures of remote calls are not modelled. The
  source has no serialization, retry, rollback or idempotent double delete.
- Snowflakes are unbounded naturals. No arithmetic is done on them.
