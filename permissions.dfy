/** Permission masks and the two resolution algorithms of the guild structures:
    the guild-wide permission of a member (Member.js, `permission`) and the
    channel-level permission of a member (GuildChannel.js, `permissionsOf`),
    written here as pure functions over snapshots of the state they read. */
module Permissions {

  /** A permission bitmask. JavaScript's `&`, `|` and `~` convert their operands to
      32-bit integers, so a mask is a 32-bit vector. */
  type Mask = bv32

  /** `Permissions.administrator` from Constants; its value is not part of this model. */
  const Administrator: Mask

  /** `Permissions.all` from Constants; its value is not part of this model. */
  const All: Mask

  /** The `Permission` structure, reduced to the mask it wraps. */
  datatype Permission = Permission(allow: Mask)

  /** A channel permission overwrite: a subject (role or member) with raw allow and deny masks. */
  datatype OverwriteType = RoleOverwrite | MemberOverwrite
  datatype Overwrite = Overwrite(id: string, kind: OverwriteType, allow: Mask, deny: Mask)

  /** A guild role as the permission code sees it: its id and `permissions.allow`. */
  datatype Role = Role(id: string, allow: Mask)

  predicate HasAdministrator(p: Mask) {
    p & Administrator != 0
  }

  /** Every bit set in `a` is also set in `b`. */
  predicate Within(a: Mask, b: Mask) {
    a | b == b
  }

  /** No bit is set in both masks. */
  predicate Disjoint(a: Mask, b: Mask) {
    a & b == 0
  }

  /** `a` and `b` have the same bits outside `m`. */
  predicate AgreeOutside(a: Mask, b: Mask, m: Mask) {
    a & !m == b & !m
  }

  /** One overwrite step, `(p & ~deny) | allow`. */
  function ApplyOverwrite(p: Mask, deny: Mask, allow: Mask): Mask {
    (p & !deny) | allow
  }

  /** The overwrite step pinned down bit by bit: allowed bits are set, bits denied and not
      allowed are cleared, every other bit keeps its value. */
  lemma ApplyOverwriteMeaning(p: Mask, deny: Mask, allow: Mask)
    ensures Within(allow, ApplyOverwrite(p, deny, allow))
    ensures Disjoint(ApplyOverwrite(p, deny, allow), deny & !allow)
    ensures AgreeOutside(ApplyOverwrite(p, deny, allow), p, deny | allow)
  {
    StepSetsAllowed(p, deny, allow);
    StepClearsDenied(p, deny, allow);
    StepKeepsOthers(p, deny, allow);
  }

  /** Applying the same overwrite twice is the same as applying it once, whether or not
      `allow` and `deny` overlap. */
  lemma ApplyOverwriteIdempotent(p: Mask, deny: Mask, allow: Mask)
    ensures ApplyOverwrite(ApplyOverwrite(p, deny, allow), deny, allow) == ApplyOverwrite(p, deny, allow)
  {
  }

  // Bit-vector facts, one per lemma, stated through the predicates above: the solver
  // settles each alone quickly, and the lemmas that use them need no bit-level reasoning.

  lemma StepSetsAllowed(p: Mask, deny: Mask, allow: Mask)
    ensures Within(allow, ApplyOverwrite(p, deny, allow))
  {
  }

  lemma StepClearsDenied(p: Mask, deny: Mask, allow: Mask)
    ensures Disjoint(ApplyOverwrite(p, deny, allow), deny & !allow)
  {
  }

  lemma StepKeepsOthers(p: Mask, deny: Mask, allow: Mask)
    ensures AgreeOutside(ApplyOverwrite(p, deny, allow), p, deny | allow)
  {
  }

  lemma WithinZero(x: Mask)
    ensures Within(0, x)
  {
  }

  lemma OrZeroRight(u: Mask)
    ensures IsOr(u, u, 0)
  {
  }

  lemma OrZeroLeft(u: Mask)
    ensures IsOr(u, 0, u)
  {
  }

  lemma WithinOrLeft(a: Mask, u: Mask)
    ensures Within(a, a | u)
  {
  }

  lemma WithinOrRight(x: Mask, a: Mask, u: Mask)
    requires Within(x, u)
    ensures Within(x, a | u)
  {
  }

  lemma WithinOrLeast(a: Mask, u: Mask, x: Mask)
    requires Within(a, x) && Within(u, x)
    ensures Within(a | u, x)
  {
  }

  lemma WithinAntisymmetric(a: Mask, b: Mask)
    requires Within(a, b) && Within(b, a)
    ensures a == b
  {
  }

  lemma WithinTransitive(a: Mask, b: Mask, c: Mask)
    requires Within(a, b) && Within(b, c)
    ensures Within(a, c)
  {
  }

  lemma DisjointWithinComplement(a: Mask, bits: Mask)
    requires Disjoint(a, bits)
    ensures Within(a, !bits)
  {
  }

  lemma WithinComplementDisjoint(a: Mask, bits: Mask)
    requires Within(a, !bits)
    ensures Disjoint(a, bits)
  {
  }

  /** The mask stored for `id`, or 0 when there is none. */
  function MaskOf(masks: map<string, Mask>, id: string): Mask {
    if id in masks then masks[id] else 0
  }

  /** The OR of the masks of those `ids` that have one; the others contribute nothing. */
  function UnionOf(ids: seq<string>, masks: map<string, Mask>): Mask {
    if ids == [] then 0 else MaskOf(masks, ids[0]) | UnionOf(ids[1..], masks)
  }

  /** The union covers the mask of every id it ranges over. */
  lemma {:induction false} UnionOfCovers(ids: seq<string>, masks: map<string, Mask>, i: int)
    requires 0 <= i < |ids| && ids[i] in masks
    ensures Within(masks[ids[i]], UnionOf(ids, masks))
  {
    if i == 0 {
      WithinOrLeft(masks[ids[0]], UnionOf(ids[1..], masks));
    } else {
      assert ids[1..][i - 1] == ids[i];
      UnionOfCovers(ids[1..], masks, i - 1);
      WithinOrRight(masks[ids[i]], MaskOf(masks, ids[0]), UnionOf(ids[1..], masks));
    }
  }

  /** The union is the least mask covering the masks it ranges over. */
  lemma {:induction false} UnionOfLeast(ids: seq<string>, masks: map<string, Mask>, x: Mask)
    requires forall i :: 0 <= i < |ids| && ids[i] in masks ==> Within(masks[ids[i]], x)
    ensures Within(UnionOf(ids, masks), x)
  {
    if ids == [] {
      WithinZero(x);
    } else {
      assert forall i :: 0 <= i < |ids| - 1 ==> ids[1..][i] == ids[i + 1];
      UnionOfLeast(ids[1..], masks, x);
      if ids[0] !in masks {
        WithinZero(x);
      }
      WithinOrLeast(MaskOf(masks, ids[0]), UnionOf(ids[1..], masks), x);
    }
  }

  /** If every id of `ids1` that has a mask also occurs in `ids2`, the union over `ids1`
      is contained in the union over `ids2`. */
  lemma UnionOfMonotone(ids1: seq<string>, ids2: seq<string>, masks: map<string, Mask>)
    requires forall k :: k in masks && k in ids1 ==> k in ids2
    ensures Within(UnionOf(ids1, masks), UnionOf(ids2, masks))
  {
    var u := UnionOf(ids2, masks);
    forall i | 0 <= i < |ids1| && ids1[i] in masks
      ensures Within(masks[ids1[i]], u)
    {
      var j :| 0 <= j < |ids2| && ids2[j] == ids1[i];
      UnionOfCovers(ids2, masks, j);
    }
    UnionOfLeast(ids1, masks, u);
  }

  /** The union depends only on which ids with a mask occur: permuting the ids, repeating
      them, or adding ids without a mask leaves it unchanged. */
  lemma UnionOfDependsOnFoundIds(ids1: seq<string>, ids2: seq<string>, masks: map<string, Mask>)
    requires forall k :: k in masks ==> (k in ids1 <==> k in ids2)
    ensures UnionOf(ids1, masks) == UnionOf(ids2, masks)
  {
    UnionOfMonotone(ids1, ids2, masks);
    UnionOfMonotone(ids2, ids1, masks);
    WithinAntisymmetric(UnionOf(ids1, masks), UnionOf(ids2, masks));
  }

  // ---------------------------------------------------------------------------
  // Guild-wide permission of a member (Member.js, `permission`)
  // ---------------------------------------------------------------------------

  /** The allow mask of every role, keyed by role id. */
  function RoleAllows(roles: map<string, Role>): map<string, Mask> {
    map k | k in roles :: roles[k].allow
  }

  /** The getter's loop over the member's role ids, from accumulator `acc`: ids with no
      role are skipped, a role carrying administrator ends the loop with `All`, any other
      role's allow mask is ORed in. */
  function AccumulateRoles(acc: Mask, roles: map<string, Role>, ids: seq<string>): Mask
    decreases |ids|
  {
    if ids == [] then acc
    else if ids[0] !in roles then AccumulateRoles(acc, roles, ids[1..])
    else if HasAdministrator(roles[ids[0]].allow) then All
    else AccumulateRoles(acc | roles[ids[0]].allow, roles, ids[1..])
  }

  /** Some id of `ids` names a role whose allow mask carries administrator. */
  ghost predicate HasAdministratorRole(roles: map<string, Role>, ids: seq<string>) {
    exists i :: 0 <= i < |ids| && ids[i] in roles && HasAdministrator(roles[ids[i]].allow)
  }

  lemma HasAdministratorRoleCons(roles: map<string, Role>, ids: seq<string>)
    requires ids != []
    ensures HasAdministratorRole(roles, ids) <==>
            (ids[0] in roles && HasAdministrator(roles[ids[0]].allow)) || HasAdministratorRole(roles, ids[1..])
  {
    if HasAdministratorRole(roles, ids[1..]) {
      var i :| 0 <= i < |ids[1..]| && ids[1..][i] in roles && HasAdministrator(roles[ids[1..][i]].allow);
      assert ids[i + 1] == ids[1..][i];
    }
    if HasAdministratorRole(roles, ids) {
      var i :| 0 <= i < |ids| && ids[i] in roles && HasAdministrator(roles[ids[i]].allow);
      if i > 0 {
        assert ids[1..][i - 1] == ids[i];
      }
    }
  }

  /** A role carrying administrator anywhere among the ids makes the loop end with `All`. */
  lemma {:induction false} AccumulateRolesAdministrator(acc: Mask, roles: map<string, Role>, ids: seq<string>)
    requires HasAdministratorRole(roles, ids)
    ensures AccumulateRoles(acc, roles, ids) == All
    decreases |ids|
  {
    HasAdministratorRoleCons(roles, ids);
    if ids[0] !in roles {
      AccumulateRolesAdministrator(acc, roles, ids[1..]);
    } else if !HasAdministrator(roles[ids[0]].allow) {
      AccumulateRolesAdministrator(acc | roles[ids[0]].allow, roles, ids[1..]);
    }
  }

  /** `v` is the OR of `a` and `b`. */
  predicate IsOr(v: Mask, a: Mask, b: Mask) {
    v == a | b
  }

  lemma OrRegroup(acc: Mask, m: Mask, rest: Mask, v: Mask, w: Mask)
    requires IsOr(v, acc | m, rest) && IsOr(w, m, rest)
    ensures IsOr(v, acc, w)
  {
  }

  lemma OrNothing(acc: Mask, rest: Mask, v: Mask, w: Mask)
    requires IsOr(v, acc, rest) && IsOr(w, 0, rest)
    ensures IsOr(v, acc, w)
  {
  }

  lemma MaskOfRoleAllows(roles: map<string, Role>, id: string)
    requires id in roles
    ensures MaskOf(RoleAllows(roles), id) == roles[id].allow
  {
  }

  lemma UnionOfUnfold(ids: seq<string>, masks: map<string, Mask>)
    requires ids != []
    ensures IsOr(UnionOf(ids, masks), MaskOf(masks, ids[0]), UnionOf(ids[1..], masks))
  {
  }

  lemma OrShift(v: Mask, acc: Mask, w: Mask, m: Mask, rest: Mask)
    requires IsOr(v, acc, w) && IsOr(w, m, rest)
    ensures IsOr(v, acc | m, rest)
  {
  }

  lemma OrZeroIs(v: Mask, a: Mask)
    requires IsOr(v, a, 0)
    ensures v == a
  {
  }

  /** One step of a loop that ORs the masks of `ids` into an accumulator from left to right:
      if the accumulator and the masks still to come make up `u`, they still do after the
      mask of `ids[i]` moves into the accumulator. */
  lemma UnionStep(u: Mask, acc: Mask, ids: seq<string>, i: int, masks: map<string, Mask>)
    requires 0 <= i < |ids| && IsOr(u, acc, UnionOf(ids[i..], masks))
    ensures IsOr(u, acc | MaskOf(masks, ids[i]), UnionOf(ids[i + 1..], masks))
  {
    assert ids[i..][1..] == ids[i + 1..];
    UnionOfUnfold(ids[i..], masks);
    OrShift(u, acc, UnionOf(ids[i..], masks), MaskOf(masks, ids[i]), UnionOf(ids[i + 1..], masks));
  }

  /** The same step for an id without a mask, which the loop skips. */
  lemma UnionSkip(u: Mask, acc: Mask, ids: seq<string>, i: int, masks: map<string, Mask>)
    requires 0 <= i < |ids| && ids[i] !in masks && IsOr(u, acc, UnionOf(ids[i..], masks))
    ensures IsOr(u, acc, UnionOf(ids[i + 1..], masks))
  {
    UnionStep(u, acc, ids, i, masks);
    OrZeroRight(acc);
  }

  /** Without an administrator role the loop ORs the allow masks of all roles found into
      the accumulator. */
  lemma {:induction false} AccumulateRolesUnion(acc: Mask, roles: map<string, Role>, ids: seq<string>)
    requires !HasAdministratorRole(roles, ids)
    ensures IsOr(AccumulateRoles(acc, roles, ids), acc, UnionOf(ids, RoleAllows(roles)))
    decreases |ids|
  {
    if ids == [] {
      OrZeroRight(acc);
    } else {
      HasAdministratorRoleCons(roles, ids);
      if ids[0] !in roles {
        AccumulateRolesUnion(acc, roles, ids[1..]);
        AccumulateRolesSkipStep(acc, roles, ids);
      } else {
        AccumulateRolesUnion(acc | roles[ids[0]].allow, roles, ids[1..]);
        AccumulateRolesOrStep(acc, roles, ids);
      }
    }
  }

  lemma AccumulateRolesSkipStep(acc: Mask, roles: map<string, Role>, ids: seq<string>)
    requires ids != [] && ids[0] !in roles
    requires IsOr(AccumulateRoles(acc, roles, ids[1..]), acc, UnionOf(ids[1..], RoleAllows(roles)))
    ensures IsOr(AccumulateRoles(acc, roles, ids), acc, UnionOf(ids, RoleAllows(roles)))
  {
    UnionOfUnfold(ids, RoleAllows(roles));
    OrNothing(acc, UnionOf(ids[1..], RoleAllows(roles)), AccumulateRoles(acc, roles, ids), UnionOf(ids, RoleAllows(roles)));
  }

  lemma AccumulateRolesOrStep(acc: Mask, roles: map<string, Role>, ids: seq<string>)
    requires ids != [] && ids[0] in roles && !HasAdministrator(roles[ids[0]].allow)
    requires IsOr(AccumulateRoles(acc | roles[ids[0]].allow, roles, ids[1..]), acc | roles[ids[0]].allow,
                  UnionOf(ids[1..], RoleAllows(roles)))
    ensures IsOr(AccumulateRoles(acc, roles, ids), acc, UnionOf(ids, RoleAllows(roles)))
  {
    var m := roles[ids[0]].allow;
    var rest := UnionOf(ids[1..], RoleAllows(roles));
    var v := AccumulateRoles(acc, roles, ids);
    assert v == AccumulateRoles(acc | m, roles, ids[1..]);
    UnionOfUnfold(ids, RoleAllows(roles));
    MaskOfRoleAllows(roles, ids[0]);
    assert IsOr(UnionOf(ids, RoleAllows(roles)), m, rest);
    OrRegroup(acc, m, rest, v, UnionOf(ids, RoleAllows(roles)));
  }

  /** The loop computes `All` when some role carries administrator, and otherwise the OR of
      the accumulator and the allow masks of all roles found. */
  lemma AccumulateRolesMeaning(acc: Mask, roles: map<string, Role>, ids: seq<string>)
    ensures AccumulateRoles(acc, roles, ids) ==
            if HasAdministratorRole(roles, ids) then All else acc | UnionOf(ids, RoleAllows(roles))
  {
    if HasAdministratorRole(roles, ids) {
      AccumulateRolesAdministrator(acc, roles, ids);
    } else {
      AccumulateRolesUnion(acc, roles, ids);
    }
  }

  /** The guild-wide permission of member `memberId` holding role ids `memberRoles`, in a
      guild with id `guildId`, owner `ownerId` and role table `roles`. The owner gets `All`
      without the roles being consulted; anyone else gets `All` if a role found carries
      administrator and otherwise the OR of the default role's allow mask (the role whose
      id is the guild's id) and the allow masks of the roles found. The default role's own
      administrator bit is not checked here. */
  function GuildPermission(memberId: string, memberRoles: seq<string>, guildId: string,
                           ownerId: string, roles: map<string, Role>): (r: Mask)
    requires memberId != ownerId ==> guildId in roles
    ensures memberId == ownerId ==> r == All
    ensures memberId != ownerId ==>
              r == if HasAdministratorRole(roles, memberRoles) then All
                   else roles[guildId].allow | UnionOf(memberRoles, RoleAllows(roles))
  {
    if memberId == ownerId then All
    else
      AccumulateRolesMeaning(roles[guildId].allow, roles, memberRoles);
      AccumulateRoles(roles[guildId].allow, roles, memberRoles)
  }

  /** Role order, repeated role ids and role ids missing from the guild do not change the
      guild-wide permission: only the set of roles found matters. */
  lemma GuildPermissionDependsOnFoundRoles(memberId: string, rs1: seq<string>, rs2: seq<string>,
                                           guildId: string, ownerId: string, roles: map<string, Role>)
    requires memberId != ownerId ==> guildId in roles
    requires forall k :: k in roles ==> (k in rs1 <==> k in rs2)
    ensures GuildPermission(memberId, rs1, guildId, ownerId, roles) ==
            GuildPermission(memberId, rs2, guildId, ownerId, roles)
  {
    UnionOfDependsOnFoundIds(rs1, rs2, RoleAllows(roles));
    if HasAdministratorRole(roles, rs1) {
      var i :| 0 <= i < |rs1| && rs1[i] in roles && HasAdministrator(roles[rs1[i]].allow);
      var j :| 0 <= j < |rs2| && rs2[j] == rs1[i];
    }
    if HasAdministratorRole(roles, rs2) {
      var i :| 0 <= i < |rs2| && rs2[i] in roles && HasAdministrator(roles[rs2[i]].allow);
      var j :| 0 <= j < |rs1| && rs1[j] == rs2[i];
    }
  }

  /** Role ids that name no role of the guild are skipped wherever they stand. */
  lemma MissingRolesSkipped(memberId: string, before: seq<string>, missing: seq<string>, after: seq<string>,
                            guildId: string, ownerId: string, roles: map<string, Role>)
    requires memberId != ownerId ==> guildId in roles
    requires forall i :: 0 <= i < |missing| ==> missing[i] !in roles
    ensures GuildPermission(memberId, before + missing + after, guildId, ownerId, roles) ==
            GuildPermission(memberId, before + after, guildId, ownerId, roles)
  {
    GuildPermissionDependsOnFoundRoles(memberId, before + missing + after, before + after, guildId, ownerId, roles);
  }

  /** A non-owner with no roles gets exactly the default role's allow mask. */
  lemma NoRolesMeansDefaultRole(memberId: string, guildId: string, ownerId: string, roles: map<string, Role>)
    requires guildId in roles && memberId != ownerId
    ensures GuildPermission(memberId, [], guildId, ownerId, roles) == roles[guildId].allow
  {
  }

  // ---------------------------------------------------------------------------
  // Channel-level permission of a member (GuildChannel.js, `permissionsOf`)
  // ---------------------------------------------------------------------------

  function AllowMasks(overwrites: map<string, Overwrite>): map<string, Mask> {
    map k | k in overwrites :: overwrites[k].allow
  }

  function DenyMasks(overwrites: map<string, Overwrite>): map<string, Mask> {
    map k | k in overwrites :: overwrites[k].deny
  }

  /** The allow (deny) mask of the overwrite for `id`, or 0 when the channel has none. */
  function AllowOf(overwrites: map<string, Overwrite>, id: string): Mask {
    if id in overwrites then overwrites[id].allow else 0
  }

  function DenyOf(overwrites: map<string, Overwrite>, id: string): Mask {
    if id in overwrites then overwrites[id].deny else 0
  }

  /** The union of the allow (deny) masks of the channel's overwrites for the member's roles. */
  function RoleAllow(overwrites: map<string, Overwrite>, memberRoles: seq<string>): Mask {
    UnionOf(memberRoles, AllowMasks(overwrites))
  }

  function RoleDeny(overwrites: map<string, Overwrite>, memberRoles: seq<string>): Mask {
    UnionOf(memberRoles, DenyMasks(overwrites))
  }

  /** The channel permission of member `memberId` with guild-wide mask `base` and role ids
      `memberRoles`, on a channel of guild `guildId` with overwrites `overwrites`:
      administrator bypasses every overwrite; otherwise the @everyone overwrite (keyed by the
      guild's id) is applied, then the role overwrites merged into one allow and one deny mask,
      then the member's own overwrite. */
  function ChannelPermission(base: Mask, overwrites: map<string, Overwrite>, guildId: string,
                             memberId: string, memberRoles: seq<string>): (r: Mask)
    ensures HasAdministrator(base) ==> r == All
  {
    if HasAdministrator(base) then All
    else
      var p1 := if guildId in overwrites
                then ApplyOverwrite(base, overwrites[guildId].deny, overwrites[guildId].allow)
                else base;
      var p2 := ApplyOverwrite(p1, RoleDeny(overwrites, memberRoles), RoleAllow(overwrites, memberRoles));
      if memberId in overwrites
      then ApplyOverwrite(p2, overwrites[memberId].deny, overwrites[memberId].allow)
      else p2
  }

  lemma ApplyNothing(p: Mask)
    ensures ApplyOverwrite(p, 0, 0) == p
  {
  }

  /** A missing overwrite acts as one with empty masks, so a non-administrator's channel
      permission is three overwrite steps: @everyone, the merged roles, the member. */
  lemma ChannelPermissionSteps(base: Mask, overwrites: map<string, Overwrite>, guildId: string,
                               memberId: string, memberRoles: seq<string>)
    requires !HasAdministrator(base)
    ensures ChannelPermission(base, overwrites, guildId, memberId, memberRoles) ==
            ApplyOverwrite(ApplyOverwrite(ApplyOverwrite(base, DenyOf(overwrites, guildId), AllowOf(overwrites, guildId)),
                                          RoleDeny(overwrites, memberRoles), RoleAllow(overwrites, memberRoles)),
                           DenyOf(overwrites, memberId), AllowOf(overwrites, memberId))
  {
    ApplyNothing(base);
    var p1 := ApplyOverwrite(base, DenyOf(overwrites, guildId), AllowOf(overwrites, guildId));
    ApplyNothing(ApplyOverwrite(p1, RoleDeny(overwrites, memberRoles), RoleAllow(overwrites, memberRoles)));
  }

  /** The three steps in a row, on plain masks. */
  function ThreeSteps(base: Mask, ed: Mask, ea: Mask, rd: Mask, ra: Mask, md: Mask, ma: Mask): Mask {
    ApplyOverwrite(ApplyOverwrite(ApplyOverwrite(base, ed, ea), rd, ra), md, ma)
  }

  lemma ThreeStepsEveryoneDenied(base: Mask, ed: Mask, ea: Mask, rd: Mask, ra: Mask, md: Mask, ma: Mask)
    ensures Disjoint(ThreeSteps(base, ed, ea, rd, ra, md, ma), ed & !ea & !ra & !ma)
  {
  }

  lemma ThreeStepsEveryoneAllowed(base: Mask, ed: Mask, ea: Mask, rd: Mask, ra: Mask, md: Mask, ma: Mask)
    ensures Within(ea & !(rd & !ra) & !(md & !ma), ThreeSteps(base, ed, ea, rd, ra, md, ma))
  {
  }

  lemma ThreeStepsRoleAllowed(base: Mask, ed: Mask, ea: Mask, rd: Mask, ra: Mask, md: Mask, ma: Mask, x: Mask)
    requires Within(x, ra)
    ensures Within(x & !(md & !ma), ThreeSteps(base, ed, ea, rd, ra, md, ma))
  {
  }

  lemma ThreeStepsRoleDenied(base: Mask, ed: Mask, ea: Mask, rd: Mask, ra: Mask, md: Mask, ma: Mask, bits: Mask)
    requires Within(bits, rd) && Disjoint(ra, bits) && Disjoint(ma, bits)
    ensures Disjoint(ThreeSteps(base, ed, ea, rd, ra, md, ma), bits)
  {
  }

  lemma WithinNothing(a: Mask)
    requires Within(a, 0)
    ensures a == 0
  {
  }

  /** The member's own overwrite is applied last: every bit it allows is set, whatever the
      earlier steps did. */
  lemma MemberOverwriteAllowWins(base: Mask, overwrites: map<string, Overwrite>, guildId: string,
                                 memberId: string, memberRoles: seq<string>)
    requires !HasAdministrator(base) && memberId in overwrites
    ensures Within(overwrites[memberId].allow, ChannelPermission(base, overwrites, guildId, memberId, memberRoles))
  {
    var p1 := if guildId in overwrites
              then ApplyOverwrite(base, overwrites[guildId].deny, overwrites[guildId].allow)
              else base;
    var p2 := ApplyOverwrite(p1, RoleDeny(overwrites, memberRoles), RoleAllow(overwrites, memberRoles));
    StepSetsAllowed(p2, overwrites[memberId].deny, overwrites[memberId].allow);
  }

  /** Every bit the member's own overwrite denies without allowing it is cleared, whatever
      the earlier steps did. */
  lemma MemberOverwriteDenyWins(base: Mask, overwrites: map<string, Overwrite>, guildId: string,
                                memberId: string, memberRoles: seq<string>)
    requires !HasAdministrator(base) && memberId in overwrites
    ensures Disjoint(ChannelPermission(base, overwrites, guildId, memberId, memberRoles),
                     overwrites[memberId].deny & !overwrites[memberId].allow)
  {
    var p1 := if guildId in overwrites
              then ApplyOverwrite(base, overwrites[guildId].deny, overwrites[guildId].allow)
              else base;
    var p2 := ApplyOverwrite(p1, RoleDeny(overwrites, memberRoles), RoleAllow(overwrites, memberRoles));
    StepClearsDenied(p2, overwrites[memberId].deny, overwrites[memberId].allow);
  }

  /** A channel with no overwrite for the guild, the member or any of the member's roles
      leaves a non-administrator's guild-wide mask as it is. */
  lemma NoOverwritesKeepGuildPermission(base: Mask, overwrites: map<string, Overwrite>, guildId: string,
                                        memberId: string, memberRoles: seq<string>)
    requires !HasAdministrator(base)
    requires guildId !in overwrites && memberId !in overwrites
    requires forall i :: 0 <= i < |memberRoles| ==> memberRoles[i] !in overwrites
    ensures ChannelPermission(base, overwrites, guildId, memberId, memberRoles) == base
  {
    UnionOfLeast(memberRoles, AllowMasks(overwrites), 0);
    UnionOfLeast(memberRoles, DenyMasks(overwrites), 0);
    WithinNothing(RoleAllow(overwrites, memberRoles));
    WithinNothing(RoleDeny(overwrites, memberRoles));
    ApplyNothing(base);
  }

  /** The @everyone overwrite comes first, so a bit it denies (and does not allow) stays
      cleared unless a role overwrite or the member's overwrite allows it. */
  lemma EveryoneDenyPrecedence(base: Mask, overwrites: map<string, Overwrite>, guildId: string,
                               memberId: string, memberRoles: seq<string>)
    requires !HasAdministrator(base) && guildId in overwrites
    ensures Disjoint(ChannelPermission(base, overwrites, guildId, memberId, memberRoles),
                     overwrites[guildId].deny & !overwrites[guildId].allow
                       & !RoleAllow(overwrites, memberRoles) & !AllowOf(overwrites, memberId))
  {
    ChannelPermissionSteps(base, overwrites, guildId, memberId, memberRoles);
    ThreeStepsEveryoneDenied(base, DenyOf(overwrites, guildId), AllowOf(overwrites, guildId),
                             RoleDeny(overwrites, memberRoles), RoleAllow(overwrites, memberRoles),
                             DenyOf(overwrites, memberId), AllowOf(overwrites, memberId));
  }

  /** A bit the @everyone overwrite allows stays set unless the role overwrites deny it
      without allowing it, or the member's overwrite does. */
  lemma EveryoneAllowPrecedence(base: Mask, overwrites: map<string, Overwrite>, guildId: string,
                                memberId: string, memberRoles: seq<string>)
    requires !HasAdministrator(base) && guildId in overwrites
    ensures Within(overwrites[guildId].allow
                     & !(RoleDeny(overwrites, memberRoles) & !RoleAllow(overwrites, memberRoles))
                     & !(DenyOf(overwrites, memberId) & !AllowOf(overwrites, memberId)),
                   ChannelPermission(base, overwrites, guildId, memberId, memberRoles))
  {
    ChannelPermissionSteps(base, overwrites, guildId, memberId, memberRoles);
    ThreeStepsEveryoneAllowed(base, DenyOf(overwrites, guildId), AllowOf(overwrites, guildId),
                              RoleDeny(overwrites, memberRoles), RoleAllow(overwrites, memberRoles),
                              DenyOf(overwrites, memberId), AllowOf(overwrites, memberId));
  }

  /** Among role overwrites, allow wins: a bit allowed by the overwrite of any of the member's
      roles is set, even if another role's overwrite denies it, unless the member's own
      overwrite denies it without allowing it. */
  lemma RoleOverwriteAllowWins(base: Mask, overwrites: map<string, Overwrite>, guildId: string,
                               memberId: string, memberRoles: seq<string>, i: int)
    requires !HasAdministrator(base)
    requires 0 <= i < |memberRoles| && memberRoles[i] in overwrites
    ensures Within(overwrites[memberRoles[i]].allow & !(DenyOf(overwrites, memberId) & !AllowOf(overwrites, memberId)),
                   ChannelPermission(base, overwrites, guildId, memberId, memberRoles))
  {
    ChannelPermissionSteps(base, overwrites, guildId, memberId, memberRoles);
    UnionOfCovers(memberRoles, AllowMasks(overwrites), i);
    ThreeStepsRoleAllowed(base, DenyOf(overwrites, guildId), AllowOf(overwrites, guildId),
                          RoleDeny(overwrites, memberRoles), RoleAllow(overwrites, memberRoles),
                          DenyOf(overwrites, memberId), AllowOf(overwrites, memberId),
                          overwrites[memberRoles[i]].allow);
  }

  /** A bit denied by the overwrite of one of the member's roles and allowed by none of them
      is cleared, unless the member's own overwrite allows it. */
  lemma RoleOverwriteDenyWithoutAllow(base: Mask, overwrites: map<string, Overwrite>, guildId: string,
                                      memberId: string, memberRoles: seq<string>, i: int, bits: Mask)
    requires !HasAdministrator(base)
    requires 0 <= i < |memberRoles| && memberRoles[i] in overwrites
    requires Within(bits, overwrites[memberRoles[i]].deny)
    requires forall j :: 0 <= j < |memberRoles| && memberRoles[j] in overwrites ==>
               Disjoint(overwrites[memberRoles[j]].allow, bits)
    requires Disjoint(AllowOf(overwrites, memberId), bits)
    ensures Disjoint(ChannelPermission(base, overwrites, guildId, memberId, memberRoles), bits)
  {
    ChannelPermissionSteps(base, overwrites, guildId, memberId, memberRoles);
    UnionOfCovers(memberRoles, DenyMasks(overwrites), i);
    WithinTransitive(bits, overwrites[memberRoles[i]].deny, RoleDeny(overwrites, memberRoles));
    forall j | 0 <= j < |memberRoles| && memberRoles[j] in AllowMasks(overwrites)
      ensures Within(AllowMasks(overwrites)[memberRoles[j]], !bits)
    {
      DisjointWithinComplement(overwrites[memberRoles[j]].allow, bits);
    }
    UnionOfLeast(memberRoles, AllowMasks(overwrites), !bits);
    WithinComplementDisjoint(RoleAllow(overwrites, memberRoles), bits);
    ThreeStepsRoleDenied(base, DenyOf(overwrites, guildId), AllowOf(overwrites, guildId),
                         RoleDeny(overwrites, memberRoles), RoleAllow(overwrites, memberRoles),
                         DenyOf(overwrites, memberId), AllowOf(overwrites, memberId), bits);
  }

  /** Role overwrites are merged with plain ORs, so the order of the member's role ids,
      repeats, and role ids without an overwrite do not change the channel permission. */
  lemma ChannelPermissionDependsOnOverwrittenRoles(base: Mask, overwrites: map<string, Overwrite>,
                                                   guildId: string, memberId: string,
                                                   rs1: seq<string>, rs2: seq<string>)
    requires forall k :: k in overwrites ==> (k in rs1 <==> k in rs2)
    ensures ChannelPermission(base, overwrites, guildId, memberId, rs1) ==
            ChannelPermission(base, overwrites, guildId, memberId, rs2)
  {
    UnionOfDependsOnFoundIds(rs1, rs2, AllowMasks(overwrites));
    UnionOfDependsOnFoundIds(rs1, rs2, DenyMasks(overwrites));
  }

  /** The whole resolution, guild-wide then channel-level, as `permissionsOf` runs it for a
      member whose object has id `memberId`, looked up under `memberKey`. */
  function ResolvedPermission(memberId: string, memberKey: string, memberRoles: seq<string>,
                              guildId: string, ownerId: string, roles: map<string, Role>,
                              channelGuildId: string, overwrites: map<string, Overwrite>): Mask
    requires memberId != ownerId ==> guildId in roles
  {
    ChannelPermission(GuildPermission(memberId, memberRoles, guildId, ownerId, roles),
                      overwrites, channelGuildId, memberKey, memberRoles)
  }

  /** Permuting or repeating the member's role ids never changes the resolved permission. */
  lemma ResolvedPermissionIgnoresRoleOrder(memberId: string, memberKey: string, rs1: seq<string>, rs2: seq<string>,
                                           guildId: string, ownerId: string, roles: map<string, Role>,
                                           channelGuildId: string, overwrites: map<string, Overwrite>)
    requires memberId != ownerId ==> guildId in roles
    requires forall k :: k in rs1 <==> k in rs2
    ensures ResolvedPermission(memberId, memberKey, rs1, guildId, ownerId, roles, channelGuildId, overwrites) ==
            ResolvedPermission(memberId, memberKey, rs2, guildId, ownerId, roles, channelGuildId, overwrites)
  {
    GuildPermissionDependsOnFoundRoles(memberId, rs1, rs2, guildId, ownerId, roles);
    ChannelPermissionDependsOnOverwrittenRoles(GuildPermission(memberId, rs1, guildId, ownerId, roles),
                                               overwrites, channelGuildId, memberKey, rs1, rs2);
  }

  /** If `All` carries the administrator bit, the guild owner resolves to `All` on every
      channel, whatever roles and overwrites exist. */
  lemma OwnerResolvesToAll(memberId: string, memberKey: string, memberRoles: seq<string>,
                           guildId: string, roles: map<string, Role>,
                           channelGuildId: string, overwrites: map<string, Overwrite>)
    requires HasAdministrator(All)
    ensures ResolvedPermission(memberId, memberKey, memberRoles, guildId, memberId, roles, channelGuildId, overwrites) == All
  {
  }

  /** If `All` carries the administrator bit, a member holding a role that carries it resolves
      to `All` on every channel, whatever the overwrites say. */
  lemma AdministratorRoleResolvesToAll(memberId: string, memberKey: string, memberRoles: seq<string>,
                                       guildId: string, ownerId: string, roles: map<string, Role>,
                                       channelGuildId: string, overwrites: map<string, Overwrite>, i: int)
    requires memberId != ownerId ==> guildId in roles
    requires HasAdministrator(All)
    requires 0 <= i < |memberRoles| && memberRoles[i] in roles && HasAdministrator(roles[memberRoles[i]].allow)
    ensures ResolvedPermission(memberId, memberKey, memberRoles, guildId, ownerId, roles, channelGuildId, overwrites) == All
  {
    assert HasAdministratorRole(roles, memberRoles);
  }
}
