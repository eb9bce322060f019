# Guild structures of a Discord client library: permissions and partial updates

This project models the core of the guild entity structures of the eris Discord library:

- the base channel: type table lookups, mention, `toJSON`;
- the guild channel: guild link, partial update, channel-level permission resolution;
- the guild member: user lookup at construction, partial update, guild-wide permission;
- the guild text channel: constructor defaults, partial update, `toJSON`.

It proves properties of the permission resolution and of the update semantics.

Modules, one per source file plus two shared ones:

- `Wrappers` (wrappers.dfy) holds three wrappers used everywhere:
  - `Option` marks a payload key as present or missing (`undefined`).
  - `Nullable` is a JavaScript `null`.
  - `Result` is an operation that may throw.
- `Permissions` (permissions.dfy) holds 32-bit masks (`bv32`, because JavaScript bitwise operators work on 32-bit integers). It also holds the two resolution algorithms written as pure specification functions:
  - `GuildPermission`, for `Member.permission`;
  - `ChannelPermission` and `ResolvedPermission`, for `GuildChannel.permissionsOf`.
  - `Permissions.administrator` and `Permissions.all` are constants whose values are not given.
- `Channels` (channels.dfy) covers Channel.js:
  - `isType` and `friendlyType` as recursive searches over the type table. The table is a sequence of (key, API_TYPE, FRIENDLY_TYPE) entries in the order `for … in` visits them.
  - `mention`.
  - The `toJSON` key filter, as a fold and as the loop method `AddDefined` proved equal to it.
- `Members` (members.dfy) covers Member.js:
  - the class `Member`;
  - the `Client` and `Guild` state it reads: the user registry, the `messageLimit` option, the owner id, the role table and the member table.
- `GuildChannels` (guild_channels.dfy) covers GuildChannel.js with the class `GuildChannel`.
- `TextChannels` (text_channels.dfy) covers TextChannel.js with the class `TextChannel`.

Form of the model:

- The classes keep the source's fields and update them in place.
- Every update method is proved equal to a patch function on a record of those fields, and the properties are lemmas about the patch functions.
- The two permission computations are loop methods (`Members.Member.Permission`, `GuildChannels.MergeRoleOverwrites`, `GuildChannels.GuildChannel.PermissionsOf`). Each is proved equal to its specification function, and the properties are proved about that function.
- In the source `TextChannel` extends `GuildChannel`, which extends `Channel`. Here a `TextChannel` holds its guild channel part in a `channel` field, and a guild channel holds the base channel's `type` itself.
- The guild channel constructor calls `this.update`, which dispatches to `TextChannel.update`. So a text channel's update runs twice during construction, once before the constructor's defaults are set and once after. `TextChannels.ConstructedFields` models both runs.

Payloads are records of `Option` fields. The raw overwrite entries of `permission_overwrites` are given directly as `Permissions.Overwrite` values. `Date.parse` is a foreign call, so its result is carried in the payload as an integer: for `last_pin_timestamp` next to the text it parses (the text's truthiness decides whether it is parsed), for `joined_at` alone.

Where a documentation comment in the source and the code disagree, the model follows the code. Besides `isType`, the one case reported as a finding, this holds for `nsfw`, documented as a Boolean but left undefined by an update without the key (`GuildChannels.NsfwFlagLost`), and for a member's `user`, documented as a User but null for a member built without a guild or a payload user (`Members.ResolveUser`).

## Model

| member | source | states |
|---|---|---|
| Permissions.ApplyOverwrite | lib/structures/GuildChannel.js:70 | no contract of its own: one overwrite step, specified by `ApplyOverwriteMeaning` and `ApplyOverwriteIdempotent` |
| Permissions.ApplyOverwriteMeaning | lib/structures/GuildChannel.js:70 | one overwrite step `(p & ~deny) \| allow` sets every allowed bit, clears every bit denied and not allowed, and keeps every other bit |
| Permissions.ApplyOverwriteIdempotent | lib/structures/GuildChannel.js:83 | applying the same overwrite twice equals applying it once, for any deny and allow masks |
| Permissions.UnionOf | lib/structures/GuildChannel.js:74-79 | no contract of its own: the OR over the masks found for a list of ids, specified by `UnionOfCovers`, `UnionOfLeast`, `UnionOfMonotone` and `UnionOfDependsOnFoundIds` |
| Permissions.UnionOfCovers | lib/structures/GuildChannel.js:74-79 | the OR accumulated over a list of ids contains the mask of every id in the list that has one |
| Permissions.UnionOfLeast | lib/structures/GuildChannel.js:74-79 | the accumulated OR is the least mask containing those masks (ids without a mask contribute nothing) |
| Permissions.UnionOfMonotone | lib/structures/GuildChannel.js:74-79 | if every id with a mask in a first list also occurs in a second, the first union is contained in the second |
| Permissions.UnionOfDependsOnFoundIds | lib/structures/GuildChannel.js:74-79 | the accumulated OR depends only on which ids with a mask occur: permutations, repeats and ids without a mask change nothing |
| Permissions.UnionStep | lib/structures/GuildChannel.js:75-78 | one iteration of the role loop that finds an overwrite keeps "accumulator OR remaining ids = total" |
| Permissions.UnionSkip | lib/structures/GuildChannel.js:75 | one iteration that finds no overwrite keeps the same invariant without changing the accumulator |
| Permissions.AccumulateRoles | lib/structures/Member.js:82-95 | no contract of its own: the role loop of `permission`, specified by `AccumulateRolesAdministrator`, `AccumulateRolesUnion` and `AccumulateRolesMeaning` |
| Permissions.AccumulateRolesAdministrator | lib/structures/Member.js:88-91 | if any role found among the ids carries administrator, the role loop ends with `all`, whatever the accumulator |
| Permissions.AccumulateRolesUnion | lib/structures/Member.js:82-95 | without an administrator role, the role loop's result is the accumulator ORed with the allow masks of all roles found |
| Permissions.AccumulateRolesMeaning | lib/structures/Member.js:82-95 | the role loop gives `all` exactly when a found role carries administrator, and otherwise the OR of the accumulator and the found roles' allow masks |
| Permissions.GuildPermission | lib/structures/Member.js:77-98 | the owner gets `all` without the roles being read; anyone else gets `all` if a found role carries administrator, and otherwise the default role's allow mask ORed with every found role's allow mask |
| Permissions.GuildPermissionDependsOnFoundRoles | lib/structures/Member.js:82-96 | role order, repeated ids and ids missing from the guild do not change the guild-wide permission |
| Permissions.MissingRolesSkipped | lib/structures/Member.js:83-86 | role ids that name no guild role can be removed from anywhere in the list without changing the result |
| Permissions.NoRolesMeansDefaultRole | lib/structures/Member.js:81 | a non-owner without roles gets exactly the allow mask of the role whose id is the guild's id |
| Permissions.ChannelPermission | lib/structures/GuildChannel.js:64-67 | a guild-wide mask carrying administrator resolves to `all`, whatever overwrites exist |
| Permissions.ChannelPermissionSteps | lib/structures/GuildChannel.js:68-85 | for a non-administrator, the result is three overwrite steps in a fixed order: @everyone (keyed by the guild id), the merged role overwrites, the member's own; a missing overwrite acts as an empty step |
| Permissions.ApplyNothing | lib/structures/GuildChannel.js:69-71 | an absent overwrite leaves the mask unchanged, the same as a step with empty masks |
| Permissions.EveryoneDenyPrecedence | lib/structures/GuildChannel.js:68-71 | a bit the @everyone overwrite denies without allowing it stays cleared unless a role overwrite or the member's overwrite allows it |
| Permissions.EveryoneAllowPrecedence | lib/structures/GuildChannel.js:68-71 | a bit the @everyone overwrite allows stays set unless the merged role overwrites, or the member's overwrite, deny it without allowing it |
| Permissions.RoleOverwriteAllowWins | lib/structures/GuildChannel.js:80 | a bit allowed by the overwrite of any of the member's roles is set even if another role's overwrite denies it, unless the member's own overwrite denies it without allowing it |
| Permissions.RoleOverwriteDenyWithoutAllow | lib/structures/GuildChannel.js:80 | bits denied by some role overwrite and allowed by none, and not allowed by the member's overwrite, are cleared |
| Permissions.MemberOverwriteAllowWins | lib/structures/GuildChannel.js:81-84 | every bit the member's own overwrite allows is set, regardless of the earlier steps |
| Permissions.MemberOverwriteDenyWins | lib/structures/GuildChannel.js:81-84 | every bit the member's own overwrite denies without allowing it is cleared, regardless of the earlier steps |
| Permissions.NoOverwritesKeepGuildPermission | lib/structures/GuildChannel.js:68-85 | without overwrites for the guild, the member or any of the member's roles, a non-administrator keeps the guild-wide mask |
| Permissions.ChannelPermissionDependsOnOverwrittenRoles | lib/structures/GuildChannel.js:72-80 | permuting or repeating the member's role ids, or adding ids without an overwrite, does not change the channel permission |
| Permissions.ResolvedPermission | lib/structures/GuildChannel.js:62-86 | no contract of its own: the guild-wide permission followed by the channel's overwrites, specified by `ResolvedPermissionIgnoresRoleOrder`, `OwnerResolvesToAll` and `AdministratorRoleResolvesToAll` |
| Permissions.ResolvedPermissionIgnoresRoleOrder | lib/structures/GuildChannel.js:62-86 | the complete resolution is unchanged by any reordering or repetition of the member's role ids |
| Permissions.OwnerResolvesToAll | lib/structures/Member.js:78-79 | if `all` carries administrator, the guild owner resolves to `all` on every channel, whatever roles and overwrites exist |
| Permissions.AdministratorRoleResolvesToAll | lib/structures/GuildChannel.js:64-67 | if `all` carries administrator, a member holding a role that carries it resolves to `all` on every channel, whatever the overwrites |
| Channels.FindType | lib/structures/Channel.js:33-38 | the search answers true exactly when some table entry's key, API_TYPE or FRIENDLY_TYPE strictly equals the argument |
| Channels.IsType | lib/structures/Channel.js:29-39 | it throws exactly when the argument is neither a string nor a number, or is NaN; the message ends in "NaN" for NaN and in the `typeof` otherwise; otherwise it answers whether some entry matches |
| Channels.IsTypeIgnoresChannel | lib/structures/Channel.js:29-39 | the answer is the same for every channel type: `this.type` is never read |
| Channels.IsTypeCounterexample | lib/structures/Channel.js:33-38 | a text channel (type 0) asked `isType("GUILD_VOICE")` answers true |
| Channels.IsTypeOf | lib/structures/Channel.js:24-28 | the documented check: the same argument check and error, and true exactly when the argument names an entry whose API_TYPE is the channel's own type |
| Channels.FindOwnType | lib/structures/Channel.js:24-28 | the search answers true exactly when an entry matches the argument and has the channel's type |
| Channels.IsTypeOfNumber | lib/structures/Channel.js:24-28 | asked with a number, the documented check is true exactly for the channel's own type, when the table lists it |
| Channels.IsTypeOfImpliesIsType | lib/structures/Channel.js:29-39 | the documented check is true only where the check as written is true |
| Channels.FriendlyType | lib/structures/Channel.js:47-54 | no contract of its own: the getter `friendlyType`, specified by `FriendlyTypeFirstMatch`, `FriendlyTypeNoMatch`, `FriendlyTypeKnown` and `FriendlyTypeUndefined` |
| Channels.FriendlyTypeFirstMatch | lib/structures/Channel.js:47-51 | the result is the FRIENDLY_TYPE of the first entry whose API_TYPE equals the channel's type |
| Channels.FriendlyTypeNoMatch | lib/structures/Channel.js:53 | without a matching entry the result is 'unknown channel type'; the getter is total |
| Channels.FriendlyTypeKnown | lib/structures/Channel.js:47-53 | a type listed in the table is never reported as unknown, provided no entry uses that string as its FRIENDLY_TYPE |
| Channels.FriendlyTypeUndefined | lib/structures/Channel.js:17 | a channel whose `type` is undefined has the unknown type |
| Channels.Mention | lib/structures/Channel.js:20-22 | the mention is "<#", then exactly the id, then ">", so the id can be read back from it |
| Channels.MentionInjective | lib/structures/Channel.js:20-22 | distinct ids have distinct mentions |
| Channels.WithDefined | lib/structures/Channel.js:58-62 | no contract of its own: the `toJSON` property loop as a fold, specified by `WithDefinedKeys`, `WithDefinedValue` and `WithDefinedUntouched` |
| Channels.WithDefinedKeys | lib/structures/Channel.js:58-62 | after the `toJSON` loop a key is present exactly when it was already there or names a defined property |
| Channels.WithDefinedValue | lib/structures/Channel.js:58-62 | a defined property that no later property repeats ends up with its value |
| Channels.WithDefinedUntouched | lib/structures/Channel.js:58-62 | a key named by no defined property keeps what the object had under it, and an absent one stays absent |
| Channels.AddDefined | lib/structures/Channel.js:58-62 | the loop that copies defined properties computes the fold `WithDefined` |
| Channels.ChannelToJson | lib/structures/Channel.js:56-64 | `type` is emitted unchanged when defined, and the object is left as it was when `type` is undefined |
| Members.WithOfflineDefaults | lib/structures/Member.js:64 | each of `web`, `desktop` and `mobile` is the payload's value when supplied and "offline" when missing |
| Members.PatchMemberFields | lib/structures/Member.js:60-75 | for every payload and every field: a present key gives the field its value (null included); a missing `status` keeps a truthy old status and is "offline" otherwise; a missing `game` keeps the old game; a missing `joined_at` or `client_status` keeps the old value; a present `client_status` is completed with "offline" per client; a missing `nick` keeps the old nick unless it is empty, which becomes null; a missing `roles` keeps the roles; `activities` is always the payload's |
| Members.PatchMember | lib/structures/Member.js:60-75 | no contract of its own: `update` on the member's fields, specified by `PatchMemberFields`, `PatchMemberEmpty`, `PatchMemberStatusDefined`, `PatchMemberIdempotent`, `PatchMemberFullPayload` and `PatchMemberRoles` |
| Members.PatchMemberEmpty | lib/structures/Member.js:61-74 | an update with no keys keeps game, joinedAt, clientStatus and roles; it turns a falsy status into "offline" and an empty nick into null; activities become undefined |
| Members.PatchMemberStatusDefined | lib/structures/Member.js:61 | after any update the status is defined, and it is non-empty when the payload had no status |
| Members.PatchMemberIdempotent | lib/structures/Member.js:60-75 | applying the same payload twice equals applying it once |
| Members.PatchMemberFullPayload | lib/structures/Member.js:60-75 | a payload that carries every key determines all fields, whatever the previous state |
| Members.PatchMemberRoles | lib/structures/Member.js:65-74 | roles are replaced when the payload has roles and left as they are otherwise; activities are always overwritten, even with undefined |
| Members.ResolveUser | lib/structures/Member.js:43-55 | with a guild the lookup fails exactly when the member's id is not registered and the payload has no user, and the error is "User associated with Member not found: " plus the id; otherwise the result is a registered user; previously registered users are never changed; a payload user whose id is already registered gives the registered user; without a guild the user is the payload's user, or null when there is none, and the registry is untouched |
| Members.ResolveUserPrefersRegistry | lib/structures/Member.js:44 | a user registered under the member's id wins over the payload's user |
| Members.ResolveUserAddsPayloadUser | lib/structures/Member.js:45-46 | an unknown payload user is added to the registry under its own id and becomes the member's user |
| Members.Member.Create | lib/structures/Member.js:41-58 | construction throws exactly when the user lookup fails; otherwise the member has the payload's id, the guild, the resolved user and the fields of one update on fresh fields, the registry is the lookup's, and the client's `messageLimit` and every other client field are unchanged |
| Members.Member.Update | lib/structures/Member.js:60-75 | the new fields are `PatchMember` of the old ones and the user is unchanged |
| Members.Member.Permission | lib/structures/Member.js:77-98 | the loop with `continue` and `break` returns `GuildPermission` of the member's id, roles and guild |
| GuildChannels.LinkFor | lib/structures/GuildChannel.js:32-38 | a given guild is kept; without one, a truthy `guild_id` gives the stub `{id}`, and otherwise there is no guild |
| GuildChannels.NameIsNsfwMeaning | lib/structures/GuildChannel.js:48 | a name passes the nsfw rule exactly when it is "nsfw" or starts with "nsfw-" |
| GuildChannels.NameIsNsfwExamples | lib/structures/GuildChannel.js:48 | "nsfwx" and "nsf" fail the rule; "nsfw" and "nsfw-chat" pass |
| GuildChannels.OverwritesFrom | lib/structures/GuildChannel.js:50-53 | no contract of its own: the collection built by first-wins adds, specified by `OverwritesFromIds`, `OverwritesFromKeys` and `OverwritesFromFirst` |
| GuildChannels.OverwritesFromIds | lib/structures/GuildChannel.js:50-53 | every overwrite in the rebuilt collection is stored under its own id |
| GuildChannels.OverwritesFromKeys | lib/structures/GuildChannel.js:50-53 | the rebuilt collection holds exactly the ids of the payload's list |
| GuildChannels.OverwritesFromFirst | lib/structures/GuildChannel.js:51-53 | the overwrite stored under an id is the first in the list with that id (add keeps an existing entry) |
| GuildChannels.PatchChannel | lib/structures/GuildChannel.js:43-55 | no contract of its own: `update` on the channel's fields, specified by `PatchChannelFields`, `PatchChannelNsfw`, `NsfwFlagLost`, `PatchChannelOverwrites` and `PatchChannelIdempotent` |
| GuildChannels.PatchChannelFields | lib/structures/GuildChannel.js:44-47 | `type`, `name`, `position` and `parentID` take the payload's value when present and keep theirs otherwise; the overwrites are kept when the payload has no list |
| GuildChannels.PatchChannelNsfw | lib/structures/GuildChannel.js:48 | nsfw is recomputed on every update: true for a nsfw name, and otherwise exactly the payload's flag |
| GuildChannels.NsfwFlagLost | lib/structures/GuildChannel.js:48 | an explicit nsfw flag on an ordinary name becomes undefined after an update that omits the flag |
| GuildChannels.PatchChannelOverwrites | lib/structures/GuildChannel.js:49-54 | a present list replaces the collection wholesale by the one built from the list alone: the keys are exactly the list's ids, each holding the first overwrite in the list with that id, and nothing of the old collection remains |
| GuildChannels.PatchChannelIdempotent | lib/structures/GuildChannel.js:43-55 | applying the same payload twice equals applying it once |
| GuildChannels.MergeRoleOverwrites | lib/structures/GuildChannel.js:72-79 | the loop returns the union of the deny masks and the union of the allow masks of the overwrites of the member's roles |
| GuildChannels.GuildChannel.constructor | lib/structures/GuildChannel.js:30-41 | the id and the guild link are set and the fields are one update of the base fields; `type` and `name` are the payload's |
| GuildChannels.GuildChannel.Update | lib/structures/GuildChannel.js:43-55 | the new fields are `PatchChannel` of the old ones, with the overwrite collection built by a loop of first-wins adds |
| GuildChannels.GuildChannel.PermissionsOf | lib/structures/GuildChannel.js:62-86 | the result is `ResolvedPermission` of the member found under the id: guild-wide permission, then the channel's overwrites |
| GuildChannels.GuildChannel.ToJson | lib/structures/GuildChannel.js:145-153 | the base channel's `type`, then `name`, `nsfw`, `parentID`, `permissionOverwrites` and `position`, each only when defined; `name` is always emitted |
| TextChannels.LastMessageIdOf | lib/structures/TextChannel.js:36 | the last message id is null unless the payload's id is a non-empty string, in which case it is that id |
| TextChannels.RateLimitOrNull | lib/structures/TextChannel.js:37 | the constructor's rate limit is null when the payload's is null or missing, and the payload's otherwise |
| TextChannels.LastPinOf | lib/structures/TextChannel.js:38 | the last pin timestamp is null when the payload's is missing, null or empty, and its parsed value otherwise |
| TextChannels.MessageLimit | lib/structures/TextChannel.js:32-34 | a null or undefined limit falls back to the client's option when a guild is given |
| TextChannels.PatchText | lib/structures/TextChannel.js:42-46 | no contract of its own: the text channel's part of `update`, specified by `PatchTextFields` and `PatchTextIdempotent` |
| TextChannels.PatchTextFields | lib/structures/TextChannel.js:44-45 | `rateLimitPerUser` and `topic` take the payload's value (null included) when present and keep theirs otherwise; nothing else changes |
| TextChannels.PatchTextIdempotent | lib/structures/TextChannel.js:42-46 | applying the same payload twice equals applying it once |
| TextChannels.ConstructedFields | lib/structures/TextChannel.js:30-40 | no contract of its own: the two runs of the text update around the constructor's defaults, specified by `ConstructedFieldsMeaning` |
| TextChannels.ConstructedFieldsMeaning | lib/structures/TextChannel.js:30-40 | after construction the rate limit is the payload's (null included) or null, the topic is the payload's or undefined, and the other fields are the constructor's defaults |
| TextChannels.TextChannel.constructor | lib/structures/TextChannel.js:30-40 | the guild channel part is one update of the base fields and the text fields are `ConstructedFields` with the message limit's fallback |
| TextChannels.TextChannel.Update | lib/structures/TextChannel.js:42-46 | the guild channel part is patched first by `PatchChannel`, then the text fields by `PatchText` |
| TextChannels.TextChannel.ToJson | lib/structures/TextChannel.js:259-267 | the guild channel's properties, then the five text properties, each only when defined; `lastMessageID` and `messages` are always present, an undefined `rateLimitPerUser` is never emitted |
| TextChannels.GuildChannelPropsOmitRateLimit | lib/structures/GuildChannel.js:145-153 | the parent classes never emit `rateLimitPerUser` |

## Left out

- REST wrappers are left out because they are network calls through the client:
  - Member.js: `edit`, `addRole`, `removeRole`, `kick`, `ban`, `unban`, `disconnect`.
  - GuildChannel.js: `edit`, `editPosition`, `delete`, `editPermission`, `deletePermission`.
  - Every TextChannel.js method between its `update` and `toJSON`.
- `Date.parse` is a foreign call; the payload carries its result as an integer. A NaN from an unparsable date is not modelled.
- `VoiceState` is left out because VoiceState.js is not part of this model:
  - its construction in the Member constructor;
  - its `update` when the payload carries `mute`.
- `Collection` is modelled as a map, with first-wins `add`; its FIFO eviction is not modelled, because Collection.js is not part of this model. A message collection is reduced to its limit.
- `Collection.add` throws on an entry without an id; that is not modelled, because ids are always strings here.
- `User`, `PermissionOverwrite`, `Permission` and `Constants` are not part of this model. A user is an id and a name, an overwrite is its id, kind and masks, a permission is its mask, and `administrator`, `all` and the type table are parameters or unspecified constants.
- The Member getters that forward to its user or format its fields (`username`, `discriminator`, avatar URLs, `tag`, `bot`, `createdAt`) are left out: they only read the user, which is not part of this model.
- The member's `mention` (`<@!id>` from the member's id) and `Member.toJSON` (its seven-key filter) are left out: they are outside the modelled core, and the same string building and key filter are modelled for channels (`Channels.Mention`, `Channels.WithDefined`).
- Nested `toJSON` calls are left out: a nested object is emitted as an opaque `JNested` value.
- Floating-point permission values are not modelled: masks are exact 32-bit vectors, and a number outside that range cannot be expressed.
- Class inheritance is modelled by composition: a text channel holds its guild channel part in a field.
- GuildChannels.GuildChannel.constructor, TextChannels.TextChannel.constructor: require the payload to carry a name. The source would throw a TypeError when the nsfw rule reads the length of an undefined name. A `null` name cannot be expressed.
- GuildChannels.GuildChannel.PermissionsOf: requires what the source dereferences without checks:
  - the guild object (not the stub) and the member in it;
  - the member's guild and its default role, for a non-owner;
  - the overwrite collection and the member's role list, whenever the guild-wide mask lacks administrator.
- Members.Member.Permission: requires the guild, and for a non-owner the default role and the role list. The source dereferences them without checks.
- Channels.IsType: a number argument is a finite real, so ±Infinity is not modelled. In the source `isType(Infinity)` does not throw and answers false, because no entry's API_TYPE equals it.
- A payload field of an unexpected JavaScript type (a number for a name, say) is not modelled: every payload field has its documented type.

## Findings

| source | as written | input that shows it | evidently intended | confidence | as-written member | corrected member |
|---|---|---|---|---|---|---|
| lib/structures/Channel.js:24-39 | `isType` answers whether its argument names any channel type in the table, and never reads `this.type` | a text channel of type 0 asked `isType("GUILD_VOICE")` answers true | the documentation says it checks the channel's own type: true only when the argument names the entry whose API_TYPE is `this.type` | not executed | Channels.IsType, Channels.IsTypeCounterexample | Channels.IsTypeOf, Channels.IsTypeOfNumber |
