/** The voice-state handler of the private rooms (`OnUserStateChange`): one
    voice-state event makes exactly one of four decisions, tested in this
    order: move an owner back into their room, spawn a new room from the
    trigger channel, delete an empty room, or do nothing. A null dereference
    in the handler is a `Failure` naming its site; it changes nothing.
 */
module VoiceRooms {
  import opened Wrappers
  import opened GuildState

  /** A voice-state change of `member`: the channel they left and the channel
      they joined, either of which may be null (connect, disconnect). Both
      are the same channel for a mute or deafen change. */
  datatype VoiceEvent = VoiceEvent(member: MemberId, oldChannel: Option<ChannelId>, newChannel: Option<ChannelId>)

  datatype Decision =
    | MoveBack(room: ChannelId)       // the owner re-entered the trigger: back to their room
    | Spawn                           // a new room is created for the member
    | Reclaim(room: ChannelId)        // the left room is empty and is deleted
    | LeaveOccupied(room: ChannelId)  // the left room still has members
    | Ignore                          // no branch applies

  /** The effect of a handled event. */
  datatype Transition = Transition(decision: Decision, calls: seq<Call>, after: World)

  /** The permissions of a room owner: mute, deafen and manage the channel. */
  const OwnerGrant := Perms(muteMembers := Allow, deafenMembers := Allow, manageChannel := Allow)

  const RoomSuffix := "'s channel"

  /** The event's channels are live voice channels, and its member is a known
      user; the gateway only delivers such events. `w` is the cache as it is
      after the change, which the gateway applies before raising the event:
      the member is connected to the joined channel and no longer to the
      channel they left. */
  predicate EventWellFormed(w: World, e: VoiceEvent) {
    && (e.oldChannel.Some? ==> e.oldChannel.value in w.channels && w.channels[e.oldChannel.value].kind == Voice)
    && (e.newChannel.Some? ==> e.newChannel.value in w.channels && w.channels[e.newChannel.value].kind == Voice)
    && (e.newChannel.Some? ==> e.member in w.channels[e.newChannel.value].occupants)
    && (e.oldChannel.Some? && e.oldChannel != e.newChannel ==> e.member !in w.channels[e.oldChannel.value].occupants)
    && e.member in w.users
  }

  /** The guild whose portal row the handler loads: the joined channel's guild
      whenever there is a joined channel, otherwise the left channel's. None
      when both sides are null (the lookup itself dereferences null then). */
  function EventGuild(w: World, e: VoiceEvent): (r: Option<GuildId>)
    requires EventWellFormed(w, e)
    ensures r.None? <==> e.oldChannel.None? && e.newChannel.None?
    ensures e.newChannel.Some? ==> r == Some(w.channels[e.newChannel.value].guild)
    ensures e.newChannel.None? && e.oldChannel.Some? ==> r == Some(w.channels[e.oldChannel.value].guild)
  {
    if e.oldChannel.None? then
      if e.newChannel.None? then None else Some(w.channels[e.newChannel.value].guild)
    else if e.newChannel.None? then
      Some(w.channels[e.oldChannel.value].guild)
    else
      Some(w.channels[e.newChannel.value].guild)
  }

  /** The member is an owner of the channel iff the channel has a per-user
      overwrite for them whose ManageChannel is Allow. */
  function IsUserOwner(ch: Channel, m: MemberId): (r: bool)
    ensures r <==> m in ch.userOverwrites && ch.userOverwrites[m].manageChannel == Allow
    ensures m !in ch.userOverwrites ==> !r
  {
    match Get(ch.userOverwrites, m)
    case None => false
    case Some(p) => p.manageChannel == Allow
  }

  /** The first non-null of the guild nickname, the global name and the
      username. */
  function DisplayName(w: World, g: GuildId, m: MemberId): (r: string)
    requires m in w.users
    ensures (g, m) in w.nicknames ==> r == w.nicknames[(g, m)]
    ensures (g, m) !in w.nicknames && w.users[m].globalName.Some? ==> r == w.users[m].globalName.value
    ensures (g, m) !in w.nicknames && w.users[m].globalName.None? ==> r == w.users[m].username
  {
    match Get(w.nicknames, (g, m))
    case Some(nick) => nick
    case None =>
      match w.users[m].globalName
      case Some(global) => global
      case None => w.users[m].username
  }

  /** The channel spawned for member `m` of guild `g` under portal `p`: a voice
      channel in the portal category whose only overwrite grants `m` the owner
      permissions. */
  function NewRoom(w: World, g: GuildId, p: Portal, m: MemberId): (ch: Channel)
    requires m in w.users
    ensures ch.kind == Voice && ch.guild == g && ch.category == Some(p.categoryId)
    ensures ch.occupants == {} && ch.roleOverwrites == map[]
    ensures ch.userOverwrites.Keys == {m} && IsUserOwner(ch, m)
    ensures ch.name == DisplayName(w, g, m) + RoomSuffix
  {
    Channel(Voice, g, Some(p.categoryId), {}, map[m := OwnerGrant], map[], DisplayName(w, g, m) + RoomSuffix, "")
  }

  /** A channel's category as the cache resolves it: the parent id when it
      names a live category channel of the same guild, and null when the
      channel has no parent or its parent is not in the cache. */
  function ParentCategory(w: World, ch: Channel): Option<ChannelId> {
    if ch.category.Some? && HasChannel(w, ch.guild, ch.category.value, Category) then ch.category else None
  }

  /** The owner bounce-back guard: both sides present, the joined channel is
      the trigger, the left channel is in the portal category and the member
      owns it. The left channel's category is only read once the first three
      conjuncts hold; reading it when it resolves to null is a fault. */
  function BounceGuard(w: World, e: VoiceEvent, p: Portal): (r: Result<bool, Fault>)
    requires EventWellFormed(w, e)
    ensures r.Failure? <==>
      && e.oldChannel.Some? && e.newChannel == Some(p.channelId)
      && !(w.channels[e.oldChannel.value].category.Some?
           && HasChannel(w, w.channels[e.oldChannel.value].guild, w.channels[e.oldChannel.value].category.value, Category))
    ensures r == Success(true) <==>
      && e.oldChannel.Some? && e.newChannel == Some(p.channelId)
      && w.channels[e.oldChannel.value].category == Some(p.categoryId)
      && HasChannel(w, w.channels[e.oldChannel.value].guild, p.categoryId, Category)
      && IsUserOwner(w.channels[e.oldChannel.value], e.member)
    ensures r.Failure? ==> r.error == NoCategory
  {
    if e.newChannel.None? || e.oldChannel.None? || e.newChannel.value != p.channelId then
      Success(false)
    else
      var left := w.channels[e.oldChannel.value];
      match ParentCategory(w, left)
      case None => Failure(NoCategory)
      case Some(c) => Success(c == p.categoryId && IsUserOwner(left, e.member))
  }

  /** The reclaim guard: the left channel is present, is not the trigger, and
      is in the portal category. Its category is only read when it is not the
      trigger; reading it when it resolves to null is a fault. */
  function ReclaimGuard(w: World, e: VoiceEvent, p: Portal): (r: Result<bool, Fault>)
    requires EventWellFormed(w, e)
    ensures r.Failure? <==>
      && e.oldChannel.Some? && e.oldChannel.value != p.channelId
      && !(w.channels[e.oldChannel.value].category.Some?
           && HasChannel(w, w.channels[e.oldChannel.value].guild, w.channels[e.oldChannel.value].category.value, Category))
    ensures r == Success(true) <==>
      && e.oldChannel.Some? && e.oldChannel.value != p.channelId
      && w.channels[e.oldChannel.value].category == Some(p.categoryId)
      && HasChannel(w, w.channels[e.oldChannel.value].guild, p.categoryId, Category)
    ensures r.Failure? ==> r.error == NoCategory
  {
    if e.oldChannel.None? || e.oldChannel.value == p.channelId then
      Success(false)
    else
      match ParentCategory(w, w.channels[e.oldChannel.value])
      case None => Failure(NoCategory)
      case Some(c) => Success(c == p.categoryId)
  }

  /** True iff the event's guild is resolved and has a portal row. */
  predicate HasPortal(w: World, e: VoiceEvent)
    requires EventWellFormed(w, e)
  {
    EventGuild(w, e).Some? && EventGuild(w, e).value in w.store
  }

  /** The portal row of the event's guild. */
  function EventPortal(w: World, e: VoiceEvent): Portal
    requires EventWellFormed(w, e) && HasPortal(w, e)
  {
    w.store[EventGuild(w, e).value]
  }

  /** The handler's decision for one event: the portal row of the event's guild
      is loaded, then the guards are tried in source order and the first that
      holds decides. Every guard reads the row, so a guild without one always
      faults. Each decision is taken exactly when its guard is the first to
      hold, and nothing happens exactly when no guard holds and none faults.
      A room is reclaimed only when it is an empty non-trigger channel of the
      portal category that the member left. */
  function Decide(w: World, e: VoiceEvent): (r: Result<Decision, Fault>)
    requires EventWellFormed(w, e)
    ensures r.Success? ==> HasPortal(w, e)
    ensures r.Failure? <==>
      || EventGuild(w, e).None?
      || EventGuild(w, e).value !in w.store
      || BounceGuard(w, e, EventPortal(w, e)).Failure?
      || (&& BounceGuard(w, e, EventPortal(w, e)) == Success(false)
          && e.newChannel != Some(EventPortal(w, e).channelId)
          && ReclaimGuard(w, e, EventPortal(w, e)).Failure?)
    ensures r.Success? && r.value.MoveBack? <==>
      HasPortal(w, e) && BounceGuard(w, e, EventPortal(w, e)) == Success(true)
    ensures r == Success(Spawn) <==>
      && HasPortal(w, e)
      && BounceGuard(w, e, EventPortal(w, e)) == Success(false)
      && e.newChannel == Some(EventPortal(w, e).channelId)
    ensures r.Success? && (r.value.Reclaim? || r.value.LeaveOccupied?) <==>
      && HasPortal(w, e)
      && BounceGuard(w, e, EventPortal(w, e)) == Success(false)
      && e.newChannel != Some(EventPortal(w, e).channelId)
      && ReclaimGuard(w, e, EventPortal(w, e)) == Success(true)
    ensures r == Success(Ignore) <==>
      && HasPortal(w, e)
      && BounceGuard(w, e, EventPortal(w, e)) == Success(false)
      && e.newChannel != Some(EventPortal(w, e).channelId)
      && ReclaimGuard(w, e, EventPortal(w, e)) == Success(false)
    ensures r.Success? && r.value.MoveBack? ==> e.oldChannel == Some(r.value.room)
    ensures r == Success(Spawn) ==> e.newChannel == Some(EventPortal(w, e).channelId)
    ensures r.Success? && (r.value.Reclaim? || r.value.LeaveOccupied?) ==>
      && e.oldChannel == Some(r.value.room)
      && r.value.room != EventPortal(w, e).channelId
      && w.channels[r.value.room].category == Some(EventPortal(w, e).categoryId)
      && (r.value.Reclaim? <==> w.channels[r.value.room].occupants == {})
  {
    var g :- EventGuild(w, e).ToResult(NoVoiceChannel);
    var p :- Get(w.store, g).ToResult(NoPortalRow);
    var bounce :- BounceGuard(w, e, p);
    if bounce then
      Success(MoveBack(e.oldChannel.value))
    else if e.newChannel == Some(p.channelId) then
      Success(Spawn)
    else
      var reclaim :- ReclaimGuard(w, e, p);
      if !reclaim then
        Success(Ignore)
      else if w.channels[e.oldChannel.value].occupants == {} then
        Success(Reclaim(e.oldChannel.value))
      else
        Success(LeaveOccupied(e.oldChannel.value))
  }

  /** The remote operations a decision performs. A spawned room gets the id
      `roomId`, which the server assigns. The handler only creates, deletes
      and moves: it never writes the store, renames or sends a message. Only
      the event's member is moved, into the left room or the spawned one; the
      spawned room is created empty before the member is moved into it; only
      a reclaimed left room is deleted; and a kept or ignored event makes no
      call. */
  function Plan(w: World, e: VoiceEvent, d: Decision, roomId: ChannelId): (r: seq<Call>)
    requires EventWellFormed(w, e)
    requires Decide(w, e) == Success(d)
    ensures |r| == 0 <==> d.LeaveOccupied? || d.Ignore?
    ensures d.MoveBack? || d.Reclaim? ==> |r| == 1
    ensures d.Spawn? ==> |r| == 2 && r[1] == Move(e.member, roomId)
    ensures forall i :: 0 <= i < |r| ==> !IsMessage(r[i]) && !r[i].RemoveRow? && !r[i].Rename?
    ensures forall i :: 0 <= i < |r| && r[i].Move? ==>
      r[i].member == e.member && (r[i].dest == roomId || e.oldChannel == Some(r[i].dest))
    ensures forall i :: 0 <= i < |r| && r[i].Create? ==>
      d.Spawn? && i == 0 && r[i].id == roomId && r[i].channel.occupants == {}
    ensures forall i :: 0 <= i < |r| && r[i].Delete? ==>
      d == Reclaim(r[i].id) && e.oldChannel == Some(r[i].id)
  {
    match d
    case MoveBack(room) => [Move(e.member, room)]
    case Spawn =>
      var g := EventGuild(w, e).value;
      [Create(roomId, NewRoom(w, g, w.store[g], e.member)), Move(e.member, roomId)]
    case Reclaim(room) => [Delete(room)]
    case LeaveOccupied(_) => []
    case Ignore => []
  }

  /** Handles one voice-state event. The portal store is never written; at
      most the spawned room is created; at most the left channel is deleted,
      and only when it is an empty non-trigger channel of the portal
      category; and a channel is created exactly when the decision is Spawn. */
  function Step(w: World, e: VoiceEvent, roomId: ChannelId): (r: Result<Transition, Fault>)
    requires EventWellFormed(w, e)
    requires roomId !in w.channels
    ensures r.Failure? <==> Decide(w, e).Failure?
    ensures r.Success? ==> HasPortal(w, e) && Decide(w, e) == Success(r.value.decision)
    ensures r.Success? ==> r.value.after.store == w.store
    ensures r.Success? ==> r.value.after.channels.Keys <= w.channels.Keys + {roomId}
    ensures r.Success? ==> (roomId in r.value.after.channels <==> r.value.decision == Spawn)
    ensures r.Success? ==> forall c :: c in w.channels && c !in r.value.after.channels ==>
      && e.oldChannel == Some(c)
      && c != EventPortal(w, e).channelId
      && w.channels[c].category == Some(EventPortal(w, e).categoryId)
      && w.channels[c].occupants == {}
  {
    var d :- Decide(w, e);
    var calls := Plan(w, e, d, roomId);
    PlanEffect(w, e, d, roomId);
    Success(Transition(d, calls, Run(w, calls)))
  }

  /** What running a decision's plan does to the channel map and the store. */
  lemma PlanEffect(w: World, e: VoiceEvent, d: Decision, roomId: ChannelId)
    requires EventWellFormed(w, e)
    requires Decide(w, e) == Success(d)
    requires roomId !in w.channels
    ensures Run(w, Plan(w, e, d, roomId)).store == w.store
    ensures d.MoveBack? || d.LeaveOccupied? || d.Ignore? ==>
      Run(w, Plan(w, e, d, roomId)).channels.Keys == w.channels.Keys
    ensures d.Spawn? ==> Run(w, Plan(w, e, d, roomId)).channels.Keys == w.channels.Keys + {roomId}
    ensures d.Reclaim? ==> Run(w, Plan(w, e, d, roomId)).channels.Keys == w.channels.Keys - {d.room}
  {
    var calls := Plan(w, e, d, roomId);
    match d
    case MoveBack(room) =>
      RunAppend(w, [calls[0]], []);
    case Spawn =>
      assert calls == [calls[0]] + [calls[1]];
      RunAppend(w, [calls[0]], [calls[1]]);
    case Reclaim(room) =>
      RunAppend(w, [calls[0]], []);
    case LeaveOccupied(_) =>
    case Ignore =>
  }
}
