/** The guild member structure (Member.js): construction with its user lookup, the partial
    update, and the guild-wide `permission` getter. `Client` and `Guild` hold only the state
    the member and channel structures read from them (Client.js and Guild.js are not part of
    this model); they share this module with `Member` because a guild holds its members and
    a member points back at its guild. */
module Members {
  import opened Wrappers
  import Permissions

  /** A user as the member structures see it (User.js is not part of this model). */
  datatype User = User(id: string, username: string)

  datatype Game = Game(name: string, kind: int, url: Nullable<string>)

  datatype Activity = Activity(name: string, kind: int)

  /** Per-client status strings, as stored on a member. */
  datatype ClientStatus = ClientStatus(web: string, desktop: string, mobile: string)

  /** `client_status` as a payload carries it: any of the three may be missing. */
  datatype ClientStatusData = ClientStatusData(web: Option<string>, desktop: Option<string>, mobile: Option<string>)

  /** The member payload. `None` is a missing key; `joinedAt` carries the value `Date.parse`
      gives for `joined_at`. */
  datatype MemberData = MemberData(
    id: string,
    user: Option<User>,
    status: Option<string>,
    game: Option<Nullable<Game>>,
    joinedAt: Option<int>,
    clientStatus: Option<ClientStatusData>,
    activities: Option<seq<Activity>>,
    nick: Option<Nullable<string>>,
    roles: Option<seq<string>>)

  /** The fields `update` writes. `status` is `None` and `roles`, `joinedAt`, `clientStatus`
      and `activities` are `None` while undefined; `game` and `nick` start as null, since
      `undefined || null` and `null || null` are both null. */
  datatype MemberFields = MemberFields(
    status: Option<string>,
    game: Nullable<Game>,
    joinedAt: Option<int>,
    clientStatus: Option<ClientStatus>,
    activities: Option<seq<Activity>>,
    nick: Nullable<string>,
    roles: Option<seq<string>>)

  /** The fields of a member object before its first update. */
  function FreshFields(): MemberFields {
    MemberFields(None, Null, None, None, None, Null, None)
  }

  const Offline: string := "offline"

  /** `Object.assign({web: "offline", desktop: "offline", mobile: "offline"}, data)`: a key the
      payload supplies keeps its value, a missing one is "offline". */
  function WithOfflineDefaults(d: ClientStatusData): (c: ClientStatus)
    ensures d.web.Some? ==> c.web == d.web.value
    ensures d.web.None? ==> c.web == Offline
    ensures d.desktop.Some? ==> c.desktop == d.desktop.value
    ensures d.desktop.None? ==> c.desktop == Offline
    ensures d.mobile.Some? ==> c.mobile == d.mobile.value
    ensures d.mobile.None? ==> c.mobile == Offline
  {
    ClientStatus(d.web.GetOr(Offline), d.desktop.GetOr(Offline), d.mobile.GetOr(Offline))
  }

  /** JavaScript truthiness of a string field: undefined and "" are falsy. */
  predicate TruthyString(s: Option<string>) {
    s.Some? && s.value != ""
  }

  /** `status`: the payload's value, else the old one if truthy, else "offline". */
  function PatchStatus(prev: Option<string>, d: Option<string>): Option<string> {
    if d.Some? then d else if TruthyString(prev) then prev else Some(Offline)
  }

  /** `game`: the payload's value (null included), else the old one (`|| null` keeps an object). */
  function PatchGame(prev: Nullable<Game>, d: Option<Nullable<Game>>): Nullable<Game> {
    if d.Some? then d.value else prev
  }

  function PatchClientStatus(prev: Option<ClientStatus>, d: Option<ClientStatusData>): Option<ClientStatus> {
    if d.Some? then Some(WithOfflineDefaults(d.value)) else prev
  }

  /** `nick`: the payload's value (null included), else the old one unless it is "" or null. */
  function PatchNick(prev: Nullable<string>, d: Option<Nullable<string>>): Nullable<string> {
    if d.Some? then d.value else if prev.NonNull? && prev.value != "" then prev else Null
  }

  /** `update(data)` on fields `f`; `activities` is overwritten even when the payload has none. */
  function PatchMember(f: MemberFields, d: MemberData): MemberFields {
    MemberFields(
      status := PatchStatus(f.status, d.status),
      game := PatchGame(f.game, d.game),
      joinedAt := d.joinedAt.OrElse(f.joinedAt),
      clientStatus := PatchClientStatus(f.clientStatus, d.clientStatus),
      activities := d.activities,
      nick := PatchNick(f.nick, d.nick),
      roles := d.roles.OrElse(f.roles))
  }

  /** Every field after an update with any payload: a key the payload carries gives the
      field its value (null included); a missing key keeps the old value, except that a
      falsy status becomes "offline", an empty nick becomes null, and `activities` is always
      the payload's. A present `client_status` is completed with "offline" per client. */
  lemma PatchMemberFields(f: MemberFields, d: MemberData)
    ensures var r := PatchMember(f, d);
            r.status == (if d.status.Some? then d.status else if TruthyString(f.status) then f.status else Some(Offline))
            && r.game == (if d.game.Some? then d.game.value else f.game)
            && r.joinedAt == (if d.joinedAt.Some? then d.joinedAt else f.joinedAt)
            && r.activities == d.activities
            && r.nick == (if d.nick.Some? then d.nick.value else if f.nick == NonNull("") then Null else f.nick)
            && r.roles == (if d.roles.Some? then d.roles else f.roles)
    ensures d.clientStatus.None? ==> PatchMember(f, d).clientStatus == f.clientStatus
    ensures d.clientStatus.Some? ==>
              var c := d.clientStatus.value;
              PatchMember(f, d).clientStatus ==
                Some(ClientStatus(if c.web.Some? then c.web.value else Offline,
                                  if c.desktop.Some? then c.desktop.value else Offline,
                                  if c.mobile.Some? then c.mobile.value else Offline))
  {
  }

  /** A payload with nothing but an id. */
  function EmptyPayload(id: string): MemberData {
    MemberData(id, None, None, None, None, None, None, None, None)
  }

  /** An update with nothing in it keeps every field except three: a falsy status becomes
      "offline", an empty nick becomes null, and `activities` becomes undefined. */
  lemma PatchMemberEmpty(f: MemberFields, id: string)
    ensures var r := PatchMember(f, EmptyPayload(id));
            r.game == f.game && r.joinedAt == f.joinedAt && r.clientStatus == f.clientStatus
            && r.roles == f.roles && r.activities.None?
            && r.status == (if TruthyString(f.status) then f.status else Some(Offline))
            && r.nick == (if f.nick == NonNull("") then Null else f.nick)
  {
  }

  /** After any update the status is defined and never empty unless the payload sent "". */
  lemma PatchMemberStatusDefined(f: MemberFields, d: MemberData)
    ensures PatchMember(f, d).status.Some?
    ensures d.status.None? ==> TruthyString(PatchMember(f, d).status)
  {
  }

  /** Applying the same payload twice is the same as applying it once. */
  lemma PatchMemberIdempotent(f: MemberFields, d: MemberData)
    ensures PatchMember(PatchMember(f, d), d) == PatchMember(f, d)
  {
  }

  /** A payload that carries every key determines the fields completely: the previous state
      is forgotten. */
  lemma PatchMemberFullPayload(f1: MemberFields, f2: MemberFields, d: MemberData)
    requires d.status.Some? && d.game.Some? && d.joinedAt.Some? && d.clientStatus.Some?
    requires d.nick.Some? && d.roles.Some?
    ensures PatchMember(f1, d) == PatchMember(f2, d)
  {
  }

  /** The roles are replaced when the payload carries them and left untouched otherwise;
      `activities` is the payload's in every case, undefined included. */
  lemma PatchMemberRoles(f: MemberFields, d: MemberData)
    ensures d.roles.None? ==> PatchMember(f, d).roles == f.roles
    ensures d.roles.Some? ==> PatchMember(f, d).roles == d.roles
    ensures PatchMember(f, d).activities == d.activities
  {
  }

  const UserNotFound: string := "User associated with Member not found: "

  /** The user lookup of the constructor, on registry `users` (`guild.shard.client.users`):
      with a guild, the member's id is looked up and, failing that, the payload's user is
      added (an id already present keeps its user); without a guild, the payload's user is
      wrapped and stays out of the registry. The result is the user and the new registry. */
  function ResolveUser(users: map<string, User>, hasGuild: bool, data: MemberData)
    : (r: Result<(Nullable<User>, map<string, User>), string>)
    ensures r.Failure? <==> hasGuild && data.id !in users && data.user.None?
    ensures r.Failure? ==> r.error == UserNotFound + data.id
    ensures r.Success? && hasGuild ==> r.value.0.NonNull? && r.value.0.value in r.value.1.Values
    ensures r.Success? ==> users.Keys <= r.value.1.Keys && forall k :: k in users ==> r.value.1[k] == users[k]
    ensures r.Success? && (!hasGuild || data.id in users || data.user.value.id in users) ==> r.value.1 == users
    ensures !hasGuild ==> r == Success((if data.user.Some? then NonNull(data.user.value) else Null, users))
    ensures hasGuild && data.id !in users && data.user.Some? && data.user.value.id in users ==>
              r == Success((NonNull(users[data.user.value.id]), users))
  {
    if hasGuild then
      if data.id in users then Success((NonNull(users[data.id]), users))
      else if data.user.Some? then
        var u := data.user.value;
        if u.id in users then Success((NonNull(users[u.id]), users))
        else
          assert users[u.id := u][u.id] == u;
          Success((NonNull(u), users[u.id := u]))
      else Failure(UserNotFound + data.id)
    else if data.user.Some? then Success((NonNull(data.user.value), users))
    else Success((Null, users))
  }

  /** With a guild, a user registered under the member's id always wins over the payload's user. */
  lemma ResolveUserPrefersRegistry(users: map<string, User>, data: MemberData)
    requires data.id in users
    ensures ResolveUser(users, true, data) == Success((NonNull(users[data.id]), users))
  {
  }

  /** Adding the payload's user is a first-wins `add`: the registry grows by at most that one
      user, under that user's own id. */
  lemma ResolveUserAddsPayloadUser(users: map<string, User>, data: MemberData)
    requires data.id !in users && data.user.Some? && data.user.value.id !in users
    ensures ResolveUser(users, true, data) ==
            Success((NonNull(data.user.value), users[data.user.value.id := data.user.value]))
  {
  }

  /** The client: the user registry and the `messageLimit` option. */
  class Client {
    var users: map<string, User>
    var messageLimit: int

    constructor(users: map<string, User>, messageLimit: int)
      ensures this.users == users && this.messageLimit == messageLimit
    {
      this.users := users;
      this.messageLimit := messageLimit;
    }
  }

  /** A guild, reduced to what the member and channel structures read: its id, its owner, its
      roles and members keyed by id, and the client of its shard. */
  class Guild {
    const id: string
    var ownerID: string
    var roles: map<string, Permissions.Role>
    var members: map<string, Member>
    const client: Client

    constructor(id: string, ownerID: string, roles: map<string, Permissions.Role>, client: Client)
      ensures this.id == id && this.ownerID == ownerID && this.roles == roles
      ensures this.members == map[] && this.client == client
    {
      this.id := id;
      this.ownerID := ownerID;
      this.roles := roles;
      this.members := map[];
      this.client := client;
    }
  }

  class Member {
    const id: string
    const guild: Guild?
    var user: Nullable<User>
    var status: Option<string>
    var game: Nullable<Game>
    var joinedAt: Option<int>
    var clientStatus: Option<ClientStatus>
    var activities: Option<seq<Activity>>
    var nick: Nullable<string>
    var roles: Option<seq<string>>

    function Fields(): MemberFields
      reads this
    {
      MemberFields(status, game, joinedAt, clientStatus, activities, nick, roles)
    }

    /** The object as `super(data.id)` and the user lookup leave it, before `update`. */
    constructor Init(id: string, guild: Guild?, user: Nullable<User>)
      ensures this.id == id && this.guild == guild && this.user == user
      ensures Fields() == FreshFields()
    {
      this.id := id;
      this.guild := guild;
      this.user := user;
      status := None;
      game := Null;
      joinedAt := None;
      clientStatus := None;
      activities := None;
      nick := Null;
      roles := None;
    }

    /** `new Member(data, guild, client)`: the error case of the user lookup is the thrown
        error; otherwise the member carries the resolved user and the fields of one update. */
    static method Create(data: MemberData, guild: Guild?) returns (r: Result<Member, string>)
      modifies (if guild == null then {} else {guild.client})`users
      ensures var res := ResolveUser(old(if guild == null then map[] else guild.client.users), guild != null, data);
              (r.Failure? <==> res.Failure?)
              && (r.Failure? ==> r.error == res.error)
              && (r.Success? ==> fresh(r.value) && r.value.id == data.id && r.value.guild == guild
                                 && r.value.user == res.value.0
                                 && r.value.Fields() == PatchMember(FreshFields(), data))
              && (guild != null ==> guild.client.users == if res.Success? then res.value.1 else old(guild.client.users))
              && (guild != null ==> guild.client.messageLimit == old(guild.client.messageLimit))
    {
      var users := if guild == null then map[] else guild.client.users;
      var res := ResolveUser(users, guild != null, data);
      if res.Failure? {
        return Failure(res.error);
      }
      if guild != null {
        guild.client.users := res.value.1;
      }
      var m := new Member.Init(data.id, guild, res.value.0);
      m.Update(data);
      r := Success(m);
    }

    /** `update(data)`; the voice state part is not part of this model. */
    method Update(data: MemberData)
      modifies this
      ensures Fields() == PatchMember(old(Fields()), data)
      ensures user == old(user)
    {
      status := PatchStatus(status, data.status);
      game := PatchGame(game, data.game);
      joinedAt := data.joinedAt.OrElse(joinedAt);
      clientStatus := PatchClientStatus(clientStatus, data.clientStatus);
      activities := data.activities;
      nick := PatchNick(nick, data.nick);
      if data.roles.Some? {
        roles := data.roles;
      }
    }

    /** The getter `permission`: the owner gets `Permissions.all`; anyone else starts from the
        default role's allow mask and runs through the role ids, skipping missing roles and
        stopping at the first role that carries administrator. */
    method Permission() returns (p: Permissions.Permission)
      requires guild != null
      requires id != guild.ownerID ==> guild.id in guild.roles && roles.Some?
      ensures p.allow == Permissions.GuildPermission(id, roles.GetOr([]), guild.id, guild.ownerID, guild.roles)
    {
      if id == guild.ownerID {
        return Permissions.Permission(Permissions.All);
      }
      var table := guild.roles;
      var start := table[guild.id].allow;
      var rs := roles.value;
      var permissions := start;
      var i := 0;
      while i < |rs|
        invariant 0 <= i <= |rs|
        invariant Permissions.AccumulateRoles(permissions, table, rs[i..]) ==
                  Permissions.AccumulateRoles(start, table, rs)
      {
        assert rs[i..][1..] == rs[i + 1..];
        if rs[i] !in table {
          i := i + 1;
          continue;
        }
        var perm := table[rs[i]].allow;
        if Permissions.HasAdministrator(perm) {
          permissions := Permissions.All;
          break;
        }
        permissions := permissions | perm;
        i := i + 1;
      }
      p := Permissions.Permission(permissions);
    }
  }
}
