/** Properties of the portal commands: what `invite` builds, when it refuses,
    that a stale row is purged but never rebuilt in the same invocation, and
    that the room commands act only under their guard.
 */
module PortalCommandsProperties {
  import opened Wrappers
  import opened GuildState
  import opened PortalCommands

  /** With no saved row, `invite` creates the category first, then the trigger
      voice channel and the settings text channel inside it, all three with
      the same `@everyone` overwrite template; it posts the settings message
      with its five buttons in order; existing channels and the store are
      untouched, so no row is saved for the new portal. */
  lemma InviteBuildsPortal(w: World, ctx: CommandContext, names: PortalNames, ids: NewIds, restarts: nat)
    requires FreshIds(w, ids)
    requires ctx.guild !in w.store
    ensures var r := Invite(w, ctx, names, ids, restarts);
      && r.outcome == Created
      && r.after.store == w.store
      && ctx.guild !in r.after.store
      && r.after.channels.Keys == w.channels.Keys + {ids.category, ids.trigger, ids.settings}
      && (forall c :: c in w.channels ==> r.after.channels[c] == w.channels[c])
      && r.calls[0].Create? && r.calls[0].id == ids.category && r.calls[0].channel.kind == Category
      && r.after.channels[ids.category].kind == Category
      && r.after.channels[ids.category].name == names.category
      && r.after.channels[ids.trigger].kind == Voice
      && r.after.channels[ids.trigger].name == names.trigger
      && r.after.channels[ids.trigger].category == Some(ids.category)
      && r.after.channels[ids.settings].kind == Text
      && r.after.channels[ids.settings].name == names.settings
      && r.after.channels[ids.settings].category == Some(ids.category)
      && r.after.channels[ids.settings].topic == "manage private rooms"
      && r.after.channels[ids.category].roleOverwrites == map[ctx.everyoneRole := Unset]
      && r.after.channels[ids.trigger].roleOverwrites == r.after.channels[ids.category].roleOverwrites
      && r.after.channels[ids.settings].roleOverwrites == r.after.channels[ids.category].roleOverwrites
      && r.calls[3] == Post(ids.settings, ["portal:rename", "portal:hide", "portal:owner", "portal:limit", "portal:kick"])
  {
    CreatePlanEffect(w, ctx, names, ids);
  }

  /** With its arguments omitted, `invite` names the channels "[➕] Create",
      "[⚙️] Settings" and "Portal". */
  lemma InviteDefaultNames(w: World, ctx: CommandContext, ids: NewIds, restarts: nat)
    requires FreshIds(w, ids)
    requires ctx.guild !in w.store
    ensures var r := Invite(w, ctx, DefaultNames, ids, restarts);
      {ids.category, ids.trigger, ids.settings} <= r.after.channels.Keys
    ensures var r := Invite(w, ctx, DefaultNames, ids, restarts);
      && r.after.channels[ids.trigger].name == "[➕] Create"
      && r.after.channels[ids.settings].name == "[⚙️] Settings"
      && r.after.channels[ids.category].name == "Portal"
  {
    InviteBuildsPortal(w, ctx, DefaultNames, ids, restarts);
  }

  /** A saved row with any one of its three channels still present is a live
      portal: `invite` replies "already created" with the single delete button
      and changes nothing. */
  lemma OneLiveChannelRefuses(w: World, ctx: CommandContext, names: PortalNames, ids: NewIds, restarts: nat)
    requires ctx.guild in w.store
    requires var p := w.store[ctx.guild];
      || HasChannel(w, ctx.guild, p.categoryId, Category)
      || HasChannel(w, ctx.guild, p.channelId, Voice)
      || HasChannel(w, ctx.guild, p.settingsChannelId, Text)
    ensures var r := Invite(w, ctx, names, ids, restarts);
      && r.outcome == AlreadyCreated
      && r.after == w
      && r.calls == [Reply(ctx.invoker + ", private rooms already created", ["portal:delete"], true)]
  {
  }

  /** A saved row whose three channels are all gone is removed, and the jump
      back re-tests the same row, so the invocation never creates a channel,
      whatever the restart bound: the outcome and the final state do not depend
      on it, and every remote operation is a removal of the guild's row. */
  lemma {:induction false} StaleRowNeverRebuilds(w: World, ctx: CommandContext, names: PortalNames, ids: NewIds, n: nat, m: nat)
    requires ctx.guild in w.store && AllMissing(w, ctx.guild, w.store[ctx.guild])
    ensures Invite(w, ctx, names, ids, n).outcome == Unfinished
    ensures Invite(w, ctx, names, ids, n).after == Invite(w, ctx, names, ids, m).after
    ensures Invite(w, ctx, names, ids, n).after.channels == w.channels
    ensures ctx.guild !in Invite(w, ctx, names, ids, n).after.store
    ensures forall i :: 0 <= i < |Invite(w, ctx, names, ids, n).calls| ==>
      !Invite(w, ctx, names, ids, n).calls[i].Create?
  {
    var r := InviteFrom(w, ctx, names, ids, Get(w.store, ctx.guild), n);
    var r' := InviteFrom(w, ctx, names, ids, Get(w.store, ctx.guild), m);
    assert r.after == w.(store := w.store - {ctx.guild}) == r'.after;
    forall i | 0 <= i < |r.calls|
      ensures !r.calls[i].Create?
    {
      assert r.calls[i] == RemoveRow(ctx.guild);
    }
  }

  /** `invite` keeps the occupancy invariant: the channels it builds are
      empty. */
  lemma InvitePreservesWellFormed(w: World, ctx: CommandContext, names: PortalNames, ids: NewIds, restarts: nat)
    requires WellFormed(w)
    requires FreshIds(w, ids)
    ensures WellFormed(Invite(w, ctx, names, ids, restarts).after)
  {
    var r := Invite(w, ctx, names, ids, restarts);
    if r.outcome == Created {
      CreatePlanEffect(w, ctx, names, ids);
      var w1 := Apply(w, Create(ids.category, PortalCategory(ctx, names)));
      var w2 := Apply(w1, Create(ids.trigger, PortalTrigger(ctx, names, ids)));
      CreatePreservesWellFormed(w, ids.category, PortalCategory(ctx, names));
      CreatePreservesWellFormed(w1, ids.trigger, PortalTrigger(ctx, names, ids));
      CreatePreservesWellFormed(w2, ids.settings, PortalSettings(ctx, names, ids));
    }
  }

  /** The room-command guard reads the bot's own voice channel, not the
      invoker's: moving the invoker to any channel, or disconnecting them,
      leaves the guard's answer as it was. */
  lemma GuardIgnoresInvokerVoice(w: World, ctx: CommandContext, dest: Option<ChannelId>)
    requires ConnectedTo(w, ctx.bot, ctx.botVoice)
    requires ctx.invokerId != ctx.bot
    requires dest.Some? ==> dest.value in w.channels
    ensures var w' := w.(channels := if dest.Some? then MoveMember(w.channels, ctx.invokerId, dest.value)
                                     else DisconnectMember(w.channels, ctx.invokerId));
      && ConnectedTo(w', ctx.invokerId, dest)
      && ConnectedTo(w', ctx.bot, ctx.botVoice)
      && SubCommandGuard(w', ctx) == SubCommandGuard(w, ctx)
  {
    var w' := w.(channels := if dest.Some? then MoveMember(w.channels, ctx.invokerId, dest.value)
                             else DisconnectMember(w.channels, ctx.invokerId));
    if ctx.botVoice.Some? {
      assert w'.channels[ctx.botVoice.value].category == w.channels[ctx.botVoice.value].category;
    }
  }

  /** So the guard can hold while the invoker is in no voice channel at all:
      only the bot has to sit in a room of the portal category. */
  lemma GuardHoldsWithInvokerOutOfVoice(w: World, ctx: CommandContext)
    requires ConnectedTo(w, ctx.bot, ctx.botVoice)
    requires ctx.invokerId != ctx.bot
    requires InPortalSettings(w, ctx)
    ensures var w' := w.(channels := DisconnectMember(w.channels, ctx.invokerId));
      && ConnectedTo(w', ctx.invokerId, None)
      && ConnectedTo(w', ctx.bot, ctx.botVoice)
      && SubCommandGuard(w', ctx) == Success(true)
  {
    GuardIgnoresInvokerVoice(w, ctx, None);
  }

  /** Outside the settings channel a room command never faults and never acts,
      even when the bot is in no voice channel. */
  lemma OutsideSettingsChannelIsQuiet(w: World, ctx: CommandContext, newName: string, cmd: StubCommand)
    requires ctx.botVoice.Some? ==> ctx.botVoice.value in w.channels
    requires ctx.guild in w.store && ctx.channel != w.store[ctx.guild].settingsChannelId
    ensures RenameRoom(w, ctx, newName) == Success(CommandResult([], w))
    ensures RunStub(w, ctx, cmd) == Success(CommandResult([], w))
  {
  }

  /** In the settings channel, with the bot in no voice channel, every room
      command dereferences null. */
  lemma BotOutOfVoiceFaults(w: World, ctx: CommandContext, newName: string, cmd: StubCommand)
    requires ctx.guild in w.store && ctx.channel == w.store[ctx.guild].settingsChannelId
    requires ctx.botVoice.None?
    ensures RenameRoom(w, ctx, newName) == Failure(BotNotInVoice)
    ensures RunStub(w, ctx, cmd) == Failure(BotNotInVoice)
  {
  }
}
