/** The guild channel structure (GuildChannel.js): the guild link of the constructor, the
    partial update with its nsfw rule and overwrite rebuild, the channel-level permission
    resolution `permissionsOf`, and `toJSON`. The base channel's part (`type`, `mention`,
    the type table) comes from `Channels`; a guild channel holds those fields itself. */
module GuildChannels {
  import opened Wrappers
  import Permissions
  import Channels
  import Members

  /** What `this.guild` holds: nothing, the stub `{id: data.guild_id}` built when no guild
      was passed, or the guild object itself. */
  datatype GuildLink = NoGuild | GuildStub(id: string) | GuildObject(guild: Members.Guild)

  /** The constructor's choice: a falsy guild with a truthy `guild_id` gives the stub. */
  function LinkFor(guild: Members.Guild?, guildId: Option<string>): (link: GuildLink)
    ensures guild != null ==> link == GuildObject(guild)
    ensures guild == null && guildId.Some? && guildId.value != "" ==> link == GuildStub(guildId.value)
    ensures guild == null && (guildId.None? || guildId.value == "") ==> link == NoGuild
  {
    if guild != null then GuildObject(guild)
    else if guildId.Some? && guildId.value != "" then GuildStub(guildId.value)
    else NoGuild
  }

  /** The channel payload. `None` is a missing key; `permissionOverwrites` is `None` also
      when the payload sends null, since the update only tests it for truthiness (every
      array, even an empty one, is truthy). */
  datatype ChannelData = ChannelData(
    id: string,
    channelType: Option<int>,
    name: Option<string>,
    position: Option<int>,
    parentId: Option<Nullable<string>>,
    nsfw: Option<bool>,
    permissionOverwrites: Option<seq<Permissions.Overwrite>>,
    guildId: Option<string>)

  /** The fields `update` writes. `name` is always a string once the constructor has run,
      because the nsfw rule reads its length; the others may stay undefined. */
  datatype ChannelFields = ChannelFields(
    channelType: Option<int>,
    name: string,
    position: Option<int>,
    parentID: Option<Nullable<string>>,
    nsfw: Option<bool>,
    permissionOverwrites: Option<map<string, Permissions.Overwrite>>)

  const NsfwName: string := "nsfw"
  const NsfwPrefix: string := "nsfw-"

  /** The nsfw rule on names, as written: a four-character name must be "nsfw", any other
      must start with "nsfw-". */
  predicate NameIsNsfw(name: string) {
    if |name| == 4 then name == NsfwName
    else |NsfwPrefix| <= |name| && name[..|NsfwPrefix|] == NsfwPrefix
  }

  /** A name is nsfw exactly when it is "nsfw" or starts with "nsfw-". */
  lemma NameIsNsfwMeaning(name: string)
    ensures NameIsNsfw(name) <==> name == NsfwName || (|name| >= 5 && name[..5] == NsfwPrefix)
  {
  }

  /** "nsfwx" is not nsfw, "nsfw-chat" is, and so is "nsfw" itself. */
  lemma NameIsNsfwExamples()
    ensures !NameIsNsfw("nsfwx") && !NameIsNsfw("nsf") && NameIsNsfw("nsfw-chat") && NameIsNsfw("nsfw")
  {
    assert "nsfw-chat"[..5] == NsfwPrefix;
    assert "nsfwx"[4] == 'x' && NsfwPrefix[4] == '-';
  }

  /** The collection the loop of `add` calls builds from the payload's list: an id already in
      the collection keeps its first overwrite. */
  function OverwritesFrom(list: seq<Permissions.Overwrite>): map<string, Permissions.Overwrite>
    decreases |list|
  {
    if list == [] then map[]
    else
      var m := OverwritesFrom(list[..|list| - 1]);
      var o := list[|list| - 1];
      if o.id in m then m else m[o.id := o]
  }

  /** Every overwrite is stored under its own id. */
  lemma {:induction false} OverwritesFromIds(list: seq<Permissions.Overwrite>, k: string)
    requires k in OverwritesFrom(list)
    ensures OverwritesFrom(list)[k].id == k
    decreases |list|
  {
    if list != [] {
      var m := OverwritesFrom(list[..|list| - 1]);
      if k in m {
        OverwritesFromIds(list[..|list| - 1], k);
      }
    }
  }

  /** The collection holds exactly the ids of the list. */
  lemma {:induction false} OverwritesFromKeys(list: seq<Permissions.Overwrite>, k: string)
    ensures k in OverwritesFrom(list) <==> exists i :: 0 <= i < |list| && list[i].id == k
    decreases |list|
  {
    if list != [] {
      var init := list[..|list| - 1];
      OverwritesFromKeys(init, k);
      assert forall i :: 0 <= i < |init| ==> init[i] == list[i];
      if exists i :: 0 <= i < |list| && list[i].id == k {
        var i :| 0 <= i < |list| && list[i].id == k;
        if i < |init| {
          assert init[i].id == k;
        }
      }
    }
  }

  /** The overwrite stored under an id is the first one in the list that carries it. */
  lemma {:induction false} OverwritesFromFirst(list: seq<Permissions.Overwrite>, i: int)
    requires 0 <= i < |list|
    requires forall j :: 0 <= j < i ==> list[j].id != list[i].id
    ensures list[i].id in OverwritesFrom(list) && OverwritesFrom(list)[list[i].id] == list[i]
    decreases |list|
  {
    var init := list[..|list| - 1];
    if i < |init| {
      assert forall j :: 0 <= j < i ==> init[j] == list[j];
      OverwritesFromFirst(init, i);
    } else {
      OverwritesFromKeys(init, list[i].id);
      assert forall j :: 0 <= j < |init| ==> init[j] == list[j];
    }
  }

  /** `update(data)` on fields `f`. */
  function PatchChannel(f: ChannelFields, d: ChannelData): ChannelFields {
    var name := d.name.GetOr(f.name);
    ChannelFields(
      channelType := d.channelType.OrElse(f.channelType),
      name := name,
      position := d.position.OrElse(f.position),
      parentID := d.parentId.OrElse(f.parentID),
      nsfw := if NameIsNsfw(name) then Some(true) else d.nsfw,
      permissionOverwrites := if d.permissionOverwrites.Some? then Some(OverwritesFrom(d.permissionOverwrites.value))
                              else f.permissionOverwrites)
  }

  /** `type`, `name`, `position`, `parentID` and the overwrites keep their values when the
      payload leaves them out; otherwise they take the payload's. */
  lemma PatchChannelFields(f: ChannelFields, d: ChannelData)
    ensures var r := PatchChannel(f, d);
            r.channelType == (if d.channelType.Some? then d.channelType else f.channelType)
            && r.name == (if d.name.Some? then d.name.value else f.name)
            && r.position == (if d.position.Some? then d.position else f.position)
            && r.parentID == (if d.parentId.Some? then d.parentId else f.parentID)
            && (d.permissionOverwrites.None? ==> r.permissionOverwrites == f.permissionOverwrites)
  {
  }

  /** The nsfw flag is recomputed on every update: a nsfw name forces it, and otherwise it is
      whatever the payload sends, so an update that leaves `nsfw` out loses an explicit flag. */
  lemma PatchChannelNsfw(f: ChannelFields, d: ChannelData)
    ensures var r := PatchChannel(f, d);
            (NameIsNsfw(r.name) ==> r.nsfw == Some(true))
            && (!NameIsNsfw(r.name) ==> r.nsfw == d.nsfw)
  {
  }

  /** An explicit nsfw flag on a channel with an ordinary name does not survive an update
      without one. */
  lemma NsfwFlagLost(f: ChannelFields, d: ChannelData)
    requires f.nsfw == Some(true) && !NameIsNsfw(f.name) && d.name.None? && d.nsfw.None?
    ensures PatchChannel(f, d).nsfw.None?
  {
  }

  /** A present overwrite list replaces the collection wholesale: the new one holds exactly
      the list's ids, each with its first overwrite, and nothing of the old one. */
  lemma {:induction false} PatchChannelOverwrites(f: ChannelFields, d: ChannelData, k: string)
    requires d.permissionOverwrites.Some?
    ensures var r := PatchChannel(f, d);
            var list := d.permissionOverwrites.value;
            r.permissionOverwrites == Some(OverwritesFrom(list))
            && (k in r.permissionOverwrites.value <==> exists i :: 0 <= i < |list| && list[i].id == k)
            && (k in r.permissionOverwrites.value ==> r.permissionOverwrites.value[k].id == k)
            && (forall i :: 0 <= i < |list| && list[i].id == k && (forall j :: 0 <= j < i ==> list[j].id != k)
                  ==> k in r.permissionOverwrites.value && r.permissionOverwrites.value[k] == list[i])
  {
    var list := d.permissionOverwrites.value;
    OverwritesFromKeys(list, k);
    if k in OverwritesFrom(list) {
      OverwritesFromIds(list, k);
    }
    forall i | 0 <= i < |list| && list[i].id == k && (forall j :: 0 <= j < i ==> list[j].id != k)
      ensures k in OverwritesFrom(list) && OverwritesFrom(list)[k] == list[i]
    {
      OverwritesFromFirst(list, i);
    }
  }

  /** Applying the same payload twice is the same as applying it once. */
  lemma PatchChannelIdempotent(f: ChannelFields, d: ChannelData)
    ensures PatchChannel(PatchChannel(f, d), d) == PatchChannel(f, d)
  {
  }

  /** The fields as the base constructor leaves them before the update: `type` from the
      payload and nothing else; the name is a placeholder that the update, which the
      constructor only runs on a payload with a name, always overwrites. */
  function FreshChannelFields(d: ChannelData): ChannelFields {
    ChannelFields(d.channelType, "", None, None, None, None)
  }

  /** The properties `GuildChannel.toJSON` adds after the base channel's `type`. */
  function GuildChannelProps(f: ChannelFields): seq<Channels.Prop> {
    [("name", Some(Channels.JString(f.name))),
     ("nsfw", if f.nsfw.Some? then Some(Channels.JBool(f.nsfw.value)) else None),
     ("parentID", if f.parentID.Some? then Some(ParentJson(f.parentID.value)) else None),
     ("permissionOverwrites", if f.permissionOverwrites.Some? then Some(Channels.JNested("Collection")) else None),
     ("position", if f.position.Some? then Some(Channels.JNumber(f.position.value)) else None)]
  }

  function ParentJson(p: Nullable<string>): Channels.JsonValue {
    if p.NonNull? then Channels.JString(p.value) else Channels.JNull
  }

  /** The loop of `permissionsOf` over the member's role ids: the deny and allow masks of
      every role that has an overwrite on the channel are ORed together. */
  method MergeRoleOverwrites(overwrites: map<string, Permissions.Overwrite>, rs: seq<string>)
    returns (deny: Permissions.Mask, allow: Permissions.Mask)
    ensures deny == Permissions.RoleDeny(overwrites, rs)
    ensures allow == Permissions.RoleAllow(overwrites, rs)
  {
    ghost var denyAll := Permissions.RoleDeny(overwrites, rs);
    ghost var allowAll := Permissions.RoleAllow(overwrites, rs);
    deny, allow := 0, 0;
    Permissions.OrZeroLeft(denyAll);
    Permissions.OrZeroLeft(allowAll);
    for i := 0 to |rs|
      invariant Permissions.IsOr(denyAll, deny, Permissions.UnionOf(rs[i..], Permissions.DenyMasks(overwrites)))
      invariant Permissions.IsOr(allowAll, allow, Permissions.UnionOf(rs[i..], Permissions.AllowMasks(overwrites)))
    {
      if rs[i] in overwrites {
        var overwrite := overwrites[rs[i]];
        Permissions.UnionStep(denyAll, deny, rs, i, Permissions.DenyMasks(overwrites));
        Permissions.UnionStep(allowAll, allow, rs, i, Permissions.AllowMasks(overwrites));
        deny := deny | overwrite.deny;
        allow := allow | overwrite.allow;
      } else {
        Permissions.UnionSkip(denyAll, deny, rs, i, Permissions.DenyMasks(overwrites));
        Permissions.UnionSkip(allowAll, allow, rs, i, Permissions.AllowMasks(overwrites));
      }
    }
    assert rs[|rs|..] == [];
    Permissions.OrZeroIs(denyAll, deny);
    Permissions.OrZeroIs(allowAll, allow);
  }

  class GuildChannel {
    const id: string
    const guild: GuildLink
    var channelType: Option<int>
    var name: string
    var position: Option<int>
    var parentID: Option<Nullable<string>>
    var nsfw: Option<bool>
    var permissionOverwrites: Option<map<string, Permissions.Overwrite>>

    function Fields(): ChannelFields
      reads this
    {
      ChannelFields(channelType, name, position, parentID, nsfw, permissionOverwrites)
    }

    /** `new GuildChannel(data, guild)`: the base constructor stores the id and `type`, the
        guild link is chosen, then the update runs. The nsfw rule reads the name's length,
        so a payload without a name would throw there. */
    constructor(data: ChannelData, guild: Members.Guild?)
      requires data.name.Some?
      ensures id == data.id && this.guild == LinkFor(guild, data.guildId)
      ensures Fields() == PatchChannel(FreshChannelFields(data), data)
      ensures channelType == data.channelType && name == data.name.value
    {
      id := data.id;
      this.guild := LinkFor(guild, data.guildId);
      channelType := data.channelType;
      name := "";
      position := None;
      parentID := None;
      nsfw := None;
      permissionOverwrites := None;
      new;
      Update(data);
    }

    /** `update(data)`, the overwrite collection rebuilt by a loop of first-wins adds. */
    method Update(data: ChannelData)
      modifies this
      ensures Fields() == PatchChannel(old(Fields()), data)
    {
      channelType := data.channelType.OrElse(channelType);
      name := data.name.GetOr(name);
      position := data.position.OrElse(position);
      parentID := data.parentId.OrElse(parentID);
      nsfw := if NameIsNsfw(name) then Some(true) else data.nsfw;
      if data.permissionOverwrites.Some? {
        var list := data.permissionOverwrites.value;
        var collection: map<string, Permissions.Overwrite> := map[];
        for i := 0 to |list|
          invariant collection == OverwritesFrom(list[..i])
        {
          assert list[..i + 1][..i] == list[..i];
          if list[i].id !in collection {
            collection := collection[list[i].id := list[i]];
          }
        }
        assert list[..|list|] == list;
        permissionOverwrites := Some(collection);
      }
    }

    /** `permissionsOf(memberID)`: the member is looked up in the channel's guild without a
        check; its guild-wide permission wins outright when it carries administrator, and
        otherwise the @everyone overwrite, the merged role overwrites and the member's own
        overwrite are applied in turn. The overwrite collection and the member's role list
        are only read on that second path. */
    method PermissionsOf(memberID: string) returns (p: Permissions.Permission)
      requires guild.GuildObject? && memberID in guild.guild.members
      requires var m := guild.guild.members[memberID];
               m.guild != null && (m.id != m.guild.ownerID ==> m.guild.id in m.guild.roles && m.roles.Some?)
      requires var m := guild.guild.members[memberID];
               !Permissions.HasAdministrator(
                 Permissions.GuildPermission(m.id, m.roles.GetOr([]), m.guild.id, m.guild.ownerID, m.guild.roles))
               ==> permissionOverwrites.Some? && m.roles.Some?
      ensures var m := guild.guild.members[memberID];
              p.allow == Permissions.ResolvedPermission(m.id, memberID, m.roles.GetOr([]), m.guild.id,
                                                        m.guild.ownerID, m.guild.roles, guild.guild.id,
                                                        permissionOverwrites.GetOr(map[]))
    {
      var member := guild.guild.members[memberID];
      var guildWide := member.Permission();
      var permission := guildWide.allow;
      if Permissions.HasAdministrator(permission) {
        return Permissions.Permission(Permissions.All);
      }
      var overwrites := permissionOverwrites.value;
      if guild.guild.id in overwrites {
        var everyone := overwrites[guild.guild.id];
        permission := Permissions.ApplyOverwrite(permission, everyone.deny, everyone.allow);
      }
      var deny, allow := MergeRoleOverwrites(overwrites, member.roles.value);
      permission := Permissions.ApplyOverwrite(permission, deny, allow);
      if memberID in overwrites {
        var own := overwrites[memberID];
        permission := Permissions.ApplyOverwrite(permission, own.deny, own.allow);
      }
      p := Permissions.Permission(permission);
    }

    /** `toJSON` on the object `base` that the root structure produced: the base channel's
        `type`, then the five guild channel properties, each only when defined. */
    method ToJson(base: map<string, Channels.JsonValue>) returns (out: map<string, Channels.JsonValue>)
      ensures out == Channels.WithDefined(Channels.WithDefined(base, Channels.ChannelProps(channelType)),
                                          GuildChannelProps(Fields()))
      ensures "name" in out && out["name"] == Channels.JString(name)
      ensures nsfw.Some? ==> "nsfw" in out && out["nsfw"] == Channels.JBool(nsfw.value)
      ensures position.Some? ==> "position" in out && out["position"] == Channels.JNumber(position.value)
    {
      var withType := Channels.ChannelToJson(base, channelType);
      out := Channels.AddDefined(withType, GuildChannelProps(Fields()));
      Channels.WithDefinedValue(withType, GuildChannelProps(Fields()), 0);
      if nsfw.Some? {
        Channels.WithDefinedValue(withType, GuildChannelProps(Fields()), 1);
      }
      if position.Some? {
        Channels.WithDefinedValue(withType, GuildChannelProps(Fields()), 4);
      }
    }
  }
}
