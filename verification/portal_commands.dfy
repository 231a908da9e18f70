/** The `private_rooms` slash commands (`PrivateRoomsCommands`): `invite`
    builds a portal (a category holding the trigger voice channel and the
    settings text channel) or refuses because one exists, and purges a row
    whose three channels are all gone; `rename`, `hide`, `kick`, `limit` and
    `owner` test whether they run in the portal's settings channel while the
    bot sits in a room of the portal category, and only `rename` acts.
 */
module PortalCommands {
  import opened Wrappers
  import opened GuildState

  const DefaultTriggerName := "[➕] Create"
  const DefaultSettingsName := "[⚙️] Settings"
  const DefaultCategoryName := "Portal"
  const SettingsTopic := "manage private rooms"
  const DeleteButton := "portal:delete"
  /** The buttons of the settings message, in the order they are added. */
  const SettingsButtons := ["portal:rename", "portal:hide", "portal:owner", "portal:limit", "portal:kick"]
  const AlreadyCreatedText := ", private rooms already created"
  const CreatedTitle := "✅ Created private rooms."
  const RenamedTitle := "Channel was successfully renamed"

  /** A 16-bit unsigned integer, the type of the `limit` argument. */
  type UShort = x: nat | x < 0x1_0000

  /** What a command sees of its invocation: the guild, the channel it was
      typed in, the invoker's username and member id, the bot's own member
      id and the voice channel the bot is connected to (null when none), and
      the id of the guild's `@everyone` role. The invoker's voice channel is
      not part of the context: it is whatever the world's occupants say. */
  datatype CommandContext = CommandContext(
    guild: GuildId,
    channel: ChannelId,
    invoker: string,
    invokerId: MemberId,
    bot: MemberId,
    botVoice: Option<ChannelId>,
    everyoneRole: RoleId)

  datatype PortalNames = PortalNames(trigger: string, settings: string, category: string)

  /** The names `invite` uses when its arguments are omitted. */
  const DefaultNames := PortalNames(DefaultTriggerName, DefaultSettingsName, DefaultCategoryName)

  /** The ids the server assigns to the three channels `invite` creates. */
  datatype NewIds = NewIds(category: ChannelId, trigger: ChannelId, settings: ChannelId)

  /** The server assigns three distinct ids not used by any channel. */
  predicate FreshIds(w: World, ids: NewIds) {
    && ids.category !in w.channels && ids.trigger !in w.channels && ids.settings !in w.channels
    && ids.category != ids.trigger && ids.category != ids.settings && ids.trigger != ids.settings
  }

  datatype InviteOutcome =
    | AlreadyCreated  // a live portal exists: refusal with a delete button
    | Created         // category, trigger and settings channels were built
    | Unfinished      // the stale-row purge repeated until the restart bound

  datatype InviteResult = InviteResult(outcome: InviteOutcome, calls: seq<Call>, after: World)

  /** The effect of a room command that passed or failed its guard. */
  datatype CommandResult = CommandResult(calls: seq<Call>, after: World)

  /** The overwrite template put on all three portal channels: one overwrite
      for the `@everyone` role that sets no permission. */
  function Template(ctx: CommandContext): map<RoleId, Perms> {
    map[ctx.everyoneRole := Unset]
  }

  /** A saved row is stale iff its category, its trigger voice channel and its
      settings text channel are all missing from the guild: a row is live as
      soon as any one of the three is still found. */
  predicate AllMissing(w: World, g: GuildId, p: Portal): (r: bool)
    ensures !r <==>
      || HasChannel(w, g, p.categoryId, Category)
      || HasChannel(w, g, p.channelId, Voice)
      || HasChannel(w, g, p.settingsChannelId, Text)
  {
    && !HasChannel(w, g, p.categoryId, Category)
    && !HasChannel(w, g, p.channelId, Voice)
    && !HasChannel(w, g, p.settingsChannelId, Text)
  }

  /** The channels `invite` builds: the category, then the trigger voice
      channel and the settings text channel inside it. */
  function PortalCategory(ctx: CommandContext, names: PortalNames): Channel {
    Channel(Category, ctx.guild, None, {}, map[], Template(ctx), names.category, "")
  }

  function PortalTrigger(ctx: CommandContext, names: PortalNames, ids: NewIds): Channel {
    Channel(Voice, ctx.guild, Some(ids.category), {}, map[], Template(ctx), names.trigger, "")
  }

  function PortalSettings(ctx: CommandContext, names: PortalNames, ids: NewIds): Channel {
    Channel(Text, ctx.guild, Some(ids.category), {}, map[], Template(ctx), names.settings, SettingsTopic)
  }

  /** The remote operations of the create branch, in source order: exactly
      three channels of the invoking guild are created, all empty, the
      category first and the two others inside it; then come the settings
      message, posted to the new settings channel, and the public reply. No
      row is removed and no row is saved. */
  function CreatePlan(ctx: CommandContext, names: PortalNames, ids: NewIds): (r: seq<Call>)
    ensures |r| == 5
    ensures forall i :: 0 <= i < |r| ==> (r[i].Create? <==> i < 3)
    ensures forall i :: 0 <= i < |r| ==> !r[i].RemoveRow? && !r[i].Delete? && !r[i].Move?
    ensures forall i :: 0 <= i < 3 ==> r[i].channel.guild == ctx.guild && r[i].channel.occupants == {}
    ensures r[0].id == ids.category && r[0].channel.kind == Category && r[0].channel.category == None
    ensures r[1].id == ids.trigger && r[1].channel.kind == Voice && r[1].channel.category == Some(r[0].id)
    ensures r[2].id == ids.settings && r[2].channel.kind == Text && r[2].channel.category == Some(r[0].id)
    ensures r[3] == Post(r[2].id, SettingsButtons)
    ensures r[4].Reply? && !r[4].ephemeral
  {
    [ Create(ids.category, PortalCategory(ctx, names)),
      Create(ids.trigger, PortalTrigger(ctx, names, ids)),
      Create(ids.settings, PortalSettings(ctx, names, ids)),
      Post(ids.settings, SettingsButtons),
      Reply(CreatedTitle, [], false) ]
  }

  /** The `invite` body from its label on, with the row `saved` that was
      loaded once before the label. The stale branch removes the row and jumps
      back without loading it again, so the same stale `saved` is tested
      again; `restarts` bounds how often the jump is followed. A stale row
      therefore never leads to creation, whatever the bound. */
  function InviteFrom(w: World, ctx: CommandContext, names: PortalNames, ids: NewIds,
                      saved: Option<Portal>, restarts: nat): (r: InviteResult)
    ensures saved.None? ==> r.outcome == Created && r.calls == CreatePlan(ctx, names, ids)
    ensures saved.Some? && !AllMissing(w, ctx.guild, saved.value) ==>
      r == InviteResult(AlreadyCreated, [Reply(ctx.invoker + AlreadyCreatedText, [DeleteButton], true)], w)
    ensures saved.Some? && AllMissing(w, ctx.guild, saved.value) ==>
      && r.outcome == Unfinished
      && r.after == w.(store := w.store - {ctx.guild})
      && |r.calls| == restarts + 1
      && (forall i :: 0 <= i < |r.calls| ==> r.calls[i] == RemoveRow(ctx.guild))
    ensures r.after == Run(w, r.calls)
    decreases restarts
  {
    match saved
    case None =>
      var calls := CreatePlan(ctx, names, ids);
      InviteResult(Created, calls, Run(w, calls))
    case Some(p) =>
      if AllMissing(w, ctx.guild, p) then
        var w1 := Apply(w, RemoveRow(ctx.guild));
        if restarts == 0 then
          RunOne(w, RemoveRow(ctx.guild));
          InviteResult(Unfinished, [RemoveRow(ctx.guild)], w1)
        else
          var rest := InviteFrom(w1, ctx, names, ids, saved, restarts - 1);
          RunAppend(w, [RemoveRow(ctx.guild)], rest.calls);
          RunOne(w, RemoveRow(ctx.guild));
          InviteResult(rest.outcome, [RemoveRow(ctx.guild)] + rest.calls, rest.after)
      else
        var reply := Reply(ctx.invoker + AlreadyCreatedText, [DeleteButton], true);
        RunOne(w, reply);
        InviteResult(AlreadyCreated, [reply], w)
  }

  /** `invite`: loads the guild's row once, then refuses, purges or creates.
      Creation happens exactly when no row was loaded, and the store is never
      given a new row. */
  function Invite(w: World, ctx: CommandContext, names: PortalNames, ids: NewIds, restarts: nat): (r: InviteResult)
    ensures r.outcome == Created <==> ctx.guild !in w.store
    ensures r.outcome == AlreadyCreated <==> ctx.guild in w.store && !AllMissing(w, ctx.guild, w.store[ctx.guild])
    ensures r.outcome == Unfinished <==> ctx.guild in w.store && AllMissing(w, ctx.guild, w.store[ctx.guild])
    ensures r.outcome == AlreadyCreated ==> r.after == w
    ensures r.outcome == Unfinished ==> r.after.store == w.store - {ctx.guild} && r.after.channels == w.channels
    ensures r.outcome == Created ==> r.after.store == w.store
    ensures r.after.store.Keys <= w.store.Keys
  {
    var r := InviteFrom(w, ctx, names, ids, Get(w.store, ctx.guild), restarts);
    if r.outcome == Created then
      CreatePlanEffect(w, ctx, names, ids);
      r
    else
      r
  }

  /** Running the create branch adds the three portal channels and changes
      nothing else; the settings message and the reply change no state. */
  lemma CreatePlanEffect(w: World, ctx: CommandContext, names: PortalNames, ids: NewIds)
    ensures Run(w, CreatePlan(ctx, names, ids)) ==
      w.(channels := w.channels[ids.category := PortalCategory(ctx, names)]
                               [ids.trigger := PortalTrigger(ctx, names, ids)]
                               [ids.settings := PortalSettings(ctx, names, ids)])
  {
    var plan := CreatePlan(ctx, names, ids);
    var creates := plan[..3];
    var messages := plan[3..];
    assert plan == creates + messages;
    RunAppend(w, creates, messages);
    assert creates == [plan[0]] + ([plan[1]] + [plan[2]]);
    RunAppend(w, [plan[0]], [plan[1]] + [plan[2]]);
    var w1 := Run(w, [plan[0]]);
    RunAppend(w1, [plan[1]], [plan[2]]);
    var w2 := Run(w1, [plan[1]]);
    RunOne(w, plan[0]);
    RunOne(w1, plan[1]);
    RunOne(w2, plan[2]);
    RunMessages(Run(w, creates), messages);
  }

  /** True iff a room command runs in the portal's settings channel while the
      bot is connected to a voice channel of the portal category. */
  predicate InPortalSettings(w: World, ctx: CommandContext)
    requires ctx.botVoice.Some? ==> ctx.botVoice.value in w.channels
  {
    && ctx.guild in w.store
    && ctx.channel == w.store[ctx.guild].settingsChannelId
    && ctx.botVoice.Some?
    && w.channels[ctx.botVoice.value].category == Some(w.store[ctx.guild].categoryId)
  }

  /** The guard shared by the room commands. A missing row is dereferenced
      first; the bot's voice channel is dereferenced only in the settings
      channel; a bot channel without a category compares unequal. */
  function SubCommandGuard(w: World, ctx: CommandContext): (r: Result<bool, Fault>)
    requires ctx.botVoice.Some? ==> ctx.botVoice.value in w.channels
    ensures r == Success(true) <==> InPortalSettings(w, ctx)
    ensures r == Failure(NoPortalRow) <==> ctx.guild !in w.store
    ensures r == Failure(BotNotInVoice) <==>
      ctx.guild in w.store && ctx.channel == w.store[ctx.guild].settingsChannelId && ctx.botVoice.None?
    ensures r.Failure? ==> r.error == NoPortalRow || r.error == BotNotInVoice
  {
    var p :- Get(w.store, ctx.guild).ToResult(NoPortalRow);
    if ctx.channel != p.settingsChannelId then
      Success(false)
    else
      var v :- ctx.botVoice.ToResult(BotNotInVoice);
      Success(w.channels[v].category == Some(p.categoryId))
  }

  /** `rename`: when the guard holds, renames the bot's own voice channel and
      replies; otherwise sends nothing and changes nothing. No other channel
      and no row is touched. */
  function RenameRoom(w: World, ctx: CommandContext, newName: string): (r: Result<CommandResult, Fault>)
    requires ctx.botVoice.Some? ==> ctx.botVoice.value in w.channels
    ensures r.Failure? <==> SubCommandGuard(w, ctx).Failure?
    ensures r.Success? && !InPortalSettings(w, ctx) ==> r.value == CommandResult([], w)
    ensures r.Success? && InPortalSettings(w, ctx) ==>
      var v := ctx.botVoice.value;
      && r.value.calls == [Rename(v, newName), Reply(RenamedTitle, [], true)]
      && r.value.after.store == w.store
      && r.value.after.channels.Keys == w.channels.Keys
      && r.value.after.channels[v].name == newName
      && r.value.after.channels[v] == w.channels[v].(name := newName)
      && (forall c :: c in w.channels && c != v ==> r.value.after.channels[c] == w.channels[c])
  {
    var ok :- SubCommandGuard(w, ctx);
    if ok then
      var v := ctx.botVoice.value;
      var calls := [Rename(v, newName), Reply(RenamedTitle, [], true)];
      assert calls == [calls[0]] + [calls[1]];
      RunAppend(w, [calls[0]], [calls[1]]);
      RunOne(w, calls[0]);
      RunOne(Apply(w, calls[0]), calls[1]);
      Success(CommandResult(calls, Run(w, calls)))
    else
      Success(CommandResult([], w))
  }

  /** The room commands whose guarded branch is empty, with their arguments. */
  datatype StubCommand =
    | Hide
    | Kick(user: MemberId)
    | Limit(limit: UShort)
    | Owner(newOwner: MemberId)

  /** `hide`, `kick`, `limit` and `owner`: they can only fail in the guard;
      otherwise they send nothing and change nothing, whichever way the guard
      goes. */
  function RunStub(w: World, ctx: CommandContext, cmd: StubCommand): (r: Result<CommandResult, Fault>)
    requires ctx.botVoice.Some? ==> ctx.botVoice.value in w.channels
    ensures r.Failure? <==> ctx.guild !in w.store || (ctx.channel == w.store[ctx.guild].settingsChannelId && ctx.botVoice.None?)
    ensures r.Success? ==> r.value == CommandResult([], w)
  {
    var _ :- SubCommandGuard(w, ctx);
    Success(CommandResult([], w))
  }
}
