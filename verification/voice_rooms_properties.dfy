/** Properties of the voice-state handler: what each branch does to the guild,
    which branch wins when several could apply, what is never deleted, and
    that the occupancy invariant survives every event.
 */
module VoiceRoomsProperties {
  import opened Wrappers
  import opened GuildState
  import opened VoiceRooms

  /** A guild with no portal row cannot handle any voice event: every guard
      dereferences the missing row. */
  lemma NoPortalRowFaults(w: World, e: VoiceEvent, roomId: ChannelId)
    requires EventWellFormed(w, e) && roomId !in w.channels
    requires EventGuild(w, e).Some? && EventGuild(w, e).value !in w.store
    ensures Step(w, e, roomId) == Failure(NoPortalRow)
  {
  }

  /** Bounce-back: an owner who leaves their room in the portal category for
      the trigger is moved back into that room, and nothing is created or
      deleted. */
  lemma OwnerBouncesBack(w: World, e: VoiceEvent, roomId: ChannelId)
    requires EventWellFormed(w, e) && roomId !in w.channels && HasPortal(w, e)
    requires e.oldChannel.Some? && e.newChannel == Some(EventPortal(w, e).channelId)
    requires ParentCategory(w, w.channels[e.oldChannel.value]) == Some(EventPortal(w, e).categoryId)
    requires IsUserOwner(w.channels[e.oldChannel.value], e.member)
    ensures Step(w, e, roomId).Success?
    ensures var t := Step(w, e, roomId).value;
      && t.decision == MoveBack(e.oldChannel.value)
      && t.calls == [Move(e.member, e.oldChannel.value)]
      && t.after.store == w.store
      && t.after.channels.Keys == w.channels.Keys
      && e.member in t.after.channels[e.oldChannel.value].occupants
      && (forall c :: c in t.after.channels && c != e.oldChannel.value ==> e.member !in t.after.channels[c].occupants)
  {
    PlanEffect(w, e, MoveBack(e.oldChannel.value), roomId);
  }

  /** Spawn: joining the trigger when the bounce-back guard fails creates
      exactly one voice channel, in the portal category, named after the
      member, whose only overwrite makes the member its owner; the member is
      moved into it and no channel is deleted. */
  lemma JoiningTriggerSpawnsOwnedRoom(w: World, e: VoiceEvent, roomId: ChannelId)
    requires EventWellFormed(w, e) && roomId !in w.channels && HasPortal(w, e)
    requires e.newChannel == Some(EventPortal(w, e).channelId)
    requires e.oldChannel.Some? ==>
      var left := w.channels[e.oldChannel.value];
      ParentCategory(w, left).Some?
      && (ParentCategory(w, left).value != EventPortal(w, e).categoryId || !IsUserOwner(left, e.member))
    ensures Step(w, e, roomId).Success?
    ensures var t := Step(w, e, roomId).value;
      var g := w.channels[e.newChannel.value].guild;
      && t.decision == Spawn
      && t.after.store == w.store
      && t.after.channels.Keys == w.channels.Keys + {roomId}
      && t.after.channels[roomId].kind == Voice
      && t.after.channels[roomId].guild == g
      && t.after.channels[roomId].category == Some(EventPortal(w, e).categoryId)
      && t.after.channels[roomId].userOverwrites == map[e.member := OwnerGrant]
      && t.after.channels[roomId].roleOverwrites == map[]
      && IsUserOwner(t.after.channels[roomId], e.member)
      && t.after.channels[roomId].name == DisplayName(w, g, e.member) + "'s channel"
      && t.after.channels[roomId].occupants == {e.member}
  {
    var t := Step(w, e, roomId).value;
    var g := EventGuild(w, e).value;
    var room := NewRoom(w, g, EventPortal(w, e), e.member);
    var w1 := Apply(w, Create(roomId, room));
    assert t.calls == [Create(roomId, room), Move(e.member, roomId)];
    RunAppend(w, [Create(roomId, room)], [Move(e.member, roomId)]);
    assert t.after == Apply(w1, Move(e.member, roomId));
    assert t.after.channels[roomId] == room.(occupants := room.occupants + {e.member});
  }

  /** The owner grant carries exactly MuteMembers, DeafenMembers and
      ManageChannel, all allowed, so its holder passes the ownership test. */
  lemma OwnerGrantMakesOwner(ch: Channel, m: MemberId)
    requires m in ch.userOverwrites && ch.userOverwrites[m] == OwnerGrant
    ensures IsUserOwner(ch, m)
    ensures OwnerGrant.muteMembers == Allow && OwnerGrant.deafenMembers == Allow
  {
  }

  /** Leaving a channel that has no category for the trigger is a null
      dereference in the bounce-back guard: no room is spawned. */
  lemma UncategorisedLeftChannelBlocksSpawn(w: World, e: VoiceEvent, roomId: ChannelId)
    requires EventWellFormed(w, e) && roomId !in w.channels && HasPortal(w, e)
    requires e.newChannel == Some(EventPortal(w, e).channelId)
    requires e.oldChannel.Some? && w.channels[e.oldChannel.value].category.None?
    ensures Step(w, e, roomId) == Failure(NoCategory)
  {
  }

  /** A left channel whose parent id names no cached category resolves to a
      null category: leaving it for anywhere but the trigger is a null
      dereference in the reclaim guard, even when the channel is empty. */
  lemma DanglingCategoryFaults(w: World, e: VoiceEvent, roomId: ChannelId)
    requires EventWellFormed(w, e) && roomId !in w.channels && HasPortal(w, e)
    requires e.newChannel != Some(EventPortal(w, e).channelId)
    requires e.oldChannel.Some? && e.oldChannel.value != EventPortal(w, e).channelId
    requires var left := w.channels[e.oldChannel.value];
      left.category.Some? && left.category.value !in w.channels
    ensures Step(w, e, roomId) == Failure(NoCategory)
  {
  }

  /** No-op: an event that neither joins the trigger nor leaves a resolvable
      channel of the portal category other than the trigger makes no call and
      changes nothing, for example a move between two channels outside the
      portal. */
  lemma UnrelatedEventIsIgnored(w: World, e: VoiceEvent, roomId: ChannelId)
    requires EventWellFormed(w, e) && roomId !in w.channels && HasPortal(w, e)
    requires e.newChannel != Some(EventPortal(w, e).channelId)
    requires e.oldChannel.Some? && e.oldChannel.value != EventPortal(w, e).channelId ==>
      var parent := ParentCategory(w, w.channels[e.oldChannel.value]);
      parent.Some? && parent.value != EventPortal(w, e).categoryId
    ensures Step(w, e, roomId) == Success(Transition(Ignore, [], w))
  {
  }

  /** Reclaim: leaving an empty non-trigger room of the portal category, for
      anywhere but the trigger, deletes exactly that room. */
  lemma EmptyRoomIsReclaimed(w: World, e: VoiceEvent, roomId: ChannelId)
    requires EventWellFormed(w, e) && roomId !in w.channels && HasPortal(w, e)
    requires e.newChannel != Some(EventPortal(w, e).channelId)
    requires e.oldChannel.Some? && e.oldChannel.value != EventPortal(w, e).channelId
    requires ParentCategory(w, w.channels[e.oldChannel.value]) == Some(EventPortal(w, e).categoryId)
    requires w.channels[e.oldChannel.value].occupants == {}
    ensures Step(w, e, roomId).Success?
    ensures var t := Step(w, e, roomId).value;
      && t.decision == Reclaim(e.oldChannel.value)
      && t.calls == [Delete(e.oldChannel.value)]
      && t.after.channels.Keys == w.channels.Keys - {e.oldChannel.value}
      && t.after.store == w.store
  {
    PlanEffect(w, e, Reclaim(e.oldChannel.value), roomId);
  }

  /** The same room with at least one member left in it is not touched: the
      event changes nothing. */
  lemma OccupiedRoomIsKept(w: World, e: VoiceEvent, roomId: ChannelId)
    requires EventWellFormed(w, e) && roomId !in w.channels && HasPortal(w, e)
    requires e.newChannel != Some(EventPortal(w, e).channelId)
    requires e.oldChannel.Some? && e.oldChannel.value != EventPortal(w, e).channelId
    requires ParentCategory(w, w.channels[e.oldChannel.value]) == Some(EventPortal(w, e).categoryId)
    requires w.channels[e.oldChannel.value].occupants != {}
    ensures Step(w, e, roomId) == Success(Transition(LeaveOccupied(e.oldChannel.value), [], w))
  {
  }

  /** One branch per event: a member who does not own the empty room they
      leave for the trigger gets a new room, and the room they left is not
      deleted by this event. */
  lemma NonOwnerLeavingEmptyRoomOnlySpawns(w: World, e: VoiceEvent, roomId: ChannelId)
    requires EventWellFormed(w, e) && roomId !in w.channels && HasPortal(w, e)
    requires e.newChannel == Some(EventPortal(w, e).channelId)
    requires e.oldChannel.Some? && e.oldChannel.value != EventPortal(w, e).channelId
    requires ParentCategory(w, w.channels[e.oldChannel.value]) == Some(EventPortal(w, e).categoryId)
    requires w.channels[e.oldChannel.value].occupants == {}
    requires !IsUserOwner(w.channels[e.oldChannel.value], e.member)
    ensures Step(w, e, roomId).Success?
    ensures Step(w, e, roomId).value.decision == Spawn
    ensures e.oldChannel.value in Step(w, e, roomId).value.after.channels
  {
    JoiningTriggerSpawnsOwnedRoom(w, e, roomId);
  }

  /** The trigger channel, and every channel outside the portal category,
      survive every event. */
  lemma PortalChannelsSurvive(w: World, e: VoiceEvent, roomId: ChannelId, c: ChannelId)
    requires EventWellFormed(w, e) && roomId !in w.channels
    requires Step(w, e, roomId).Success?
    requires c in w.channels
    requires c == EventPortal(w, e).channelId || w.channels[c].category != Some(EventPortal(w, e).categoryId)
    ensures c in Step(w, e, roomId).value.after.channels
  {
  }

  /** Every handled event keeps the occupancy invariant: the member is only
      ever moved into a voice channel, and created rooms start empty. */
  lemma StepPreservesWellFormed(w: World, e: VoiceEvent, roomId: ChannelId)
    requires WellFormed(w)
    requires EventWellFormed(w, e) && roomId !in w.channels
    requires Step(w, e, roomId).Success?
    ensures WellFormed(Step(w, e, roomId).value.after)
  {
    var t := Step(w, e, roomId).value;
    PlanPreservesWellFormed(w, e, t.decision, roomId);
  }

  /** Each decision's remote operations keep the occupancy invariant. */
  lemma PlanPreservesWellFormed(w: World, e: VoiceEvent, d: Decision, roomId: ChannelId)
    requires WellFormed(w)
    requires EventWellFormed(w, e) && roomId !in w.channels
    requires Decide(w, e) == Success(d)
    ensures WellFormed(Run(w, Plan(w, e, d, roomId)))
  {
    match d
    case MoveBack(room) =>
      RunOne(w, Move(e.member, room));
      MovePreservesWellFormed(w, e.member, room);
    case Spawn =>
      var room := NewRoom(w, EventGuild(w, e).value, EventPortal(w, e), e.member);
      var w1 := Apply(w, Create(roomId, room));
      assert Plan(w, e, d, roomId) == [Create(roomId, room)] + [Move(e.member, roomId)];
      RunAppend(w, [Create(roomId, room)], [Move(e.member, roomId)]);
      RunOne(w, Create(roomId, room));
      RunOne(w1, Move(e.member, roomId));
      CreatePreservesWellFormed(w, roomId, room);
      MovePreservesWellFormed(w1, e.member, roomId);
    case Reclaim(room) =>
      RunOne(w, Delete(room));
      DeletePreservesWellFormed(w, room);
    case LeaveOccupied(_) =>
    case Ignore =>
  }
}
