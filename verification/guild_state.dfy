/** The abstract state the private-rooms logic reads and mutates: the portal
    store (one `PrivateRooms` row per guild), the live channels of every guild
    as the gateway cache sees them, and the users the bot knows. Remote
    operations (channel creation and deletion, member moves, renames, store
    removals, messages) are values of `Call`; `Run` applies a sequence of them
    in order.
 */
module GuildState {
  import opened Wrappers

  /** Discord snowflakes are 64-bit unsigned integers. No arithmetic is done on
      them, so they are modelled as unbounded naturals. */
  type Snowflake = nat
  type GuildId = Snowflake
  type ChannelId = Snowflake
  type MemberId = Snowflake
  type RoleId = Snowflake

  /** The three states of a single permission in an overwrite. */
  datatype PermValue = Allow | Deny | Inherit

  /** The part of an overwrite the private-rooms logic sets or reads. */
  datatype Perms = Perms(muteMembers: PermValue, deafenMembers: PermValue, manageChannel: PermValue)

  /** An overwrite that leaves every permission inherited. */
  const Unset := Perms(Inherit, Inherit, Inherit)

  datatype ChannelKind = Category | Voice | Text

  /** A live guild channel. `category` is the parent category id (null for a
      channel outside any category); `occupants` are the connected members of a
      voice channel; overwrites are kept apart by target kind, as a per-user
      overwrite lookup never matches a role overwrite. */
  datatype Channel = Channel(
    kind: ChannelKind,
    guild: GuildId,
    category: Option<ChannelId>,
    occupants: set<MemberId>,
    userOverwrites: map<MemberId, Perms>,
    roleOverwrites: map<RoleId, Perms>,
    name: string,
    topic: string)

  /** Global account data of a user; `globalName` may be null. */
  datatype User = User(globalName: Option<string>, username: string)

  /** A `PrivateRooms` row: the portal category, the trigger voice channel
      (`ChannelID`) and the settings text channel. */
  datatype Portal = Portal(categoryId: ChannelId, channelId: ChannelId, settingsChannelId: ChannelId)

  /** `nicknames` holds the guild nickname of a member when it is not null. */
  datatype World = World(
    store: map<GuildId, Portal>,
    channels: map<ChannelId, Channel>,
    users: map<MemberId, User>,
    nicknames: map<(GuildId, MemberId), string>)

  /** The null dereferences the handlers can hit; each one ends the
      handler with an exception and no further remote operation. */
  datatype Fault =
    | NoVoiceChannel   // both sides of the event are null
    | NoPortalRow      // the guild has no `PrivateRooms` row
    | NoCategory       // the left channel's category resolves to null
    | BotNotInVoice    // a room command while the bot is in no voice channel

  /** One remote operation. `Post` and `Reply` send messages and change no
      modelled state; `Reply` is the response to the invoking interaction, whose
      `text` is the message text or, for an embed, its title. */
  datatype Call =
    | Create(id: ChannelId, channel: Channel)
    | Delete(id: ChannelId)
    | Move(member: MemberId, dest: ChannelId)
    | Rename(id: ChannelId, newName: string)
    | RemoveRow(guild: GuildId)
    | Post(target: ChannelId, buttons: seq<string>)
    | Reply(text: string, buttons: seq<string>, ephemeral: bool)

  /** True iff `c` only sends a message. */
  predicate IsMessage(c: Call) {
    c.Post? || c.Reply?
  }

  /** The guild's channel `id`, as the typed cache accessors
      (`GetCategoryChannel`, `GetVoiceChannel`, `GetTextChannel`) find it:
      present, in guild `g`, and of the asked kind. */
  predicate HasChannel(w: World, g: GuildId, id: ChannelId, kind: ChannelKind) {
    id in w.channels && w.channels[id].guild == g && w.channels[id].kind == kind
  }

  /** Moving a member to `dest` disconnects them from every other channel and
      connects them to `dest`; nothing else about any channel changes. */
  function MoveMember(channels: map<ChannelId, Channel>, m: MemberId, dest: ChannelId): (r: map<ChannelId, Channel>)
    ensures r.Keys == channels.Keys
    ensures dest in r ==> m in r[dest].occupants
    ensures forall c :: c in r && c != dest ==> m !in r[c].occupants
    ensures forall c, x :: c in r && x != m ==> (x in r[c].occupants <==> x in channels[c].occupants)
    ensures forall c :: c in r ==> r[c] == channels[c].(occupants := r[c].occupants)
  {
    map c | c in channels ::
      var ch := channels[c];
      ch.(occupants := if c == dest then ch.occupants + {m} else ch.occupants - {m})
  }

  /** Disconnecting a member removes them from every channel; nothing else
      about any channel changes. */
  function DisconnectMember(channels: map<ChannelId, Channel>, m: MemberId): (r: map<ChannelId, Channel>)
    ensures r.Keys == channels.Keys
    ensures forall c :: c in r ==> m !in r[c].occupants
    ensures forall c, x :: c in r && x != m ==> (x in r[c].occupants <==> x in channels[c].occupants)
    ensures forall c :: c in r ==> r[c] == channels[c].(occupants := r[c].occupants)
  {
    map c | c in channels :: channels[c].(occupants := channels[c].occupants - {m})
  }

  /** Member `m` is connected to voice channel `v` (to none when `v` is null),
      as the cache reports it. */
  predicate ConnectedTo(w: World, m: MemberId, v: Option<ChannelId>) {
    match v
    case Some(c) => c in w.channels && m in w.channels[c].occupants
    case None => forall c :: c in w.channels ==> m !in w.channels[c].occupants
  }

  /** The effect of one remote operation on the world. */
  function Apply(w: World, call: Call): World {
    match call
    case Create(id, ch) => w.(channels := w.channels[id := ch])
    case Delete(id) => w.(channels := w.channels - {id})
    case Move(m, dest) => w.(channels := MoveMember(w.channels, m, dest))
    case Rename(id, newName) =>
      if id in w.channels then w.(channels := w.channels[id := w.channels[id].(name := newName)]) else w
    case RemoveRow(g) => w.(store := w.store - {g})
    case Post(_, _) => w
    case Reply(_, _, _) => w
  }

  /** The world after performing `calls` in order. */
  function Run(w: World, calls: seq<Call>): World
    decreases |calls|
  {
    if |calls| == 0 then w else Run(Apply(w, calls[0]), calls[1..])
  }

  /** Messages change no modelled state, so running only messages is the
      identity. */
  lemma {:induction false} RunMessages(w: World, calls: seq<Call>)
    requires forall i :: 0 <= i < |calls| ==> IsMessage(calls[i])
    ensures Run(w, calls) == w
    decreases |calls|
  {
    if |calls| > 0 {
      assert IsMessage(calls[0]);
      RunMessages(w, calls[1..]);
    }
  }

  /** Running one call is applying it. */
  lemma RunOne(w: World, c: Call)
    ensures Run(w, [c]) == Apply(w, c)
  {
    assert [c][1..] == [];
  }

  /** Running `a + b` is running `a`, then `b`. */
  lemma {:induction false} RunAppend(w: World, a: seq<Call>, b: seq<Call>)
    ensures Run(w, a + b) == Run(Run(w, a), b)
    decreases |a|
  {
    if |a| > 0 {
      assert (a + b)[0] == a[0];
      assert (a + b)[1..] == a[1..] + b;
      RunAppend(Apply(w, a[0]), a[1..], b);
    } else {
      assert a + b == b;
    }
  }

  /** The occupancy invariant of the gateway's voice state: only voice
      channels have connected members, and a member is connected to at most
      one channel. */
  ghost predicate WellFormed(w: World) {
    && (forall c :: c in w.channels && w.channels[c].occupants != {} ==> w.channels[c].kind == Voice)
    && (forall c, d, m :: c in w.channels && d in w.channels && m in w.channels[c].occupants && m in w.channels[d].occupants ==> c == d)
  }

  /** A move into a voice channel keeps the occupancy invariant. */
  lemma MovePreservesWellFormed(w: World, m: MemberId, dest: ChannelId)
    requires WellFormed(w)
    requires dest in w.channels && w.channels[dest].kind == Voice
    ensures WellFormed(Apply(w, Move(m, dest)))
  {
    var w' := Apply(w, Move(m, dest));
    forall c | c in w'.channels && w'.channels[c].occupants != {}
      ensures w'.channels[c].kind == Voice
    {
      if c != dest {
        var x :| x in w'.channels[c].occupants;
        assert x in w.channels[c].occupants;
      }
    }
  }

  /** Creating a channel with no members under a new id keeps the occupancy
      invariant. */
  lemma CreatePreservesWellFormed(w: World, id: ChannelId, ch: Channel)
    requires WellFormed(w)
    requires id !in w.channels && ch.occupants == {}
    ensures WellFormed(Apply(w, Create(id, ch)))
  {
    var w' := Apply(w, Create(id, ch));
    forall c, d, m | c in w'.channels && d in w'.channels && m in w'.channels[c].occupants && m in w'.channels[d].occupants
      ensures c == d
    {
      assert c != id && d != id;
    }
  }

  /** Deleting a channel keeps the occupancy invariant. */
  lemma DeletePreservesWellFormed(w: World, id: ChannelId)
    requires WellFormed(w)
    ensures WellFormed(Apply(w, Delete(id)))
  {
  }
}
