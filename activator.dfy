/** The default-tier initializer of class-mdm-activator.php. Scheduled once
    after activation, it gives every active member that has no tier yet the
    bronze tier, a total spend of '0' and a cleared override, in the
    `_mdm_*` user meta. */
module MdmActivator {
  import opened Php
  import opened Store

  /** The three values a member without a tier receives. */
  function Initialized(p: Profile): Profile {
    p.(mdmTier := Str("bronze"), mdmTotal := Str("0"), mdmOverride := Str("0"))
  }

  /** A member needs initializing when the stored tier is falsy: unset, ''
      or '0'. */
  predicate NeedsTier(meta: UserMeta, u: int) {
    !Truthy(GetMeta(meta, u, MdmTierKey))
  }

  /** One pass of the foreach: the three writes when the member has no
      tier, nothing otherwise. */
  function InitMember(meta: UserMeta, u: int): UserMeta {
    if NeedsTier(meta, u) then
      SetMeta(SetMeta(SetMeta(meta, u, MdmTierKey, Str("bronze")), u, MdmTotalKey, Str("0")), u, MdmOverrideKey, Str("0"))
    else meta
  }

  /** The foreach over the members, in order; a member may be listed more
      than once. */
  function InitMembers(meta: UserMeta, members: seq<int>): UserMeta
    decreases |members|
  {
    if members == [] then meta
    else InitMember(InitMembers(meta, members[..|members| - 1]), members[|members| - 1])
  }

  /** The meta after initialize_member_tiers: unchanged when the
      memberships extension's member query is not available. */
  function AfterInitialize(meta: UserMeta, membershipsAvailable: bool, members: seq<int>): UserMeta {
    if membershipsAvailable then InitMembers(meta, members) else meta
  }

  /** One member's pass: a member with a tier is left exactly as it is; a
      member without one gets the three defaults and keeps every other key;
      nobody else changes. */
  lemma InitMemberEffect(meta: UserMeta, u: int, v: int)
    ensures NeedsTier(meta, u) ==> ProfileOf(InitMember(meta, u), u) == Initialized(ProfileOf(meta, u))
    ensures !NeedsTier(meta, u) ==> InitMember(meta, u) == meta
    ensures v != u ==> ProfileOf(InitMember(meta, u), v) == ProfileOf(meta, v)
  {
  }

  /** The whole run, member by member: a listed member without a tier ends
      with the defaults and all other keys as before; every other user,
      listed members that had a tier included, is unchanged. */
  lemma {:induction false} InitMembersEffect(meta: UserMeta, members: seq<int>, v: int)
    ensures ProfileOf(InitMembers(meta, members), v) ==
      if v in members && NeedsTier(meta, v) then Initialized(ProfileOf(meta, v)) else ProfileOf(meta, v)
    decreases |members|
  {
    if members != [] {
      var init := members[..|members| - 1];
      var u := members[|members| - 1];
      assert members == init + [u];
      InitMembersEffect(meta, init, v);
      var m := InitMembers(meta, init);
      InitMemberEffect(m, u, v);
      if v == u && v in init && NeedsTier(meta, v) {
        assert !NeedsTier(m, v);
      }
    }
  }

  /** After the run every listed member has a truthy tier. */
  lemma InitMembersTiered(meta: UserMeta, members: seq<int>, v: int)
    requires v in members
    ensures !NeedsTier(InitMembers(meta, members), v)
  {
    InitMembersEffect(meta, members, v);
  }

  /** A run over members that all have a tier changes nothing. */
  lemma {:induction false} InitMembersNoop(meta: UserMeta, members: seq<int>)
    requires forall i :: 0 <= i < |members| ==> !NeedsTier(meta, members[i])
    ensures InitMembers(meta, members) == meta
    decreases |members|
  {
    if members != [] {
      InitMembersNoop(meta, members[..|members| - 1]);
      assert !NeedsTier(meta, members[|members| - 1]);
    }
  }

  /** The initializer is idempotent: a second run finds every member with a
      tier and writes nothing. */
  lemma InitializeIdempotent(meta: UserMeta, membershipsAvailable: bool, members: seq<int>)
    ensures var once := AfterInitialize(meta, membershipsAvailable, members);
      AfterInitialize(once, membershipsAvailable, members) == once
  {
    if membershipsAvailable {
      var once := InitMembers(meta, members);
      forall i | 0 <= i < |members| ensures !NeedsTier(once, members[i]) {
        InitMembersTiered(meta, members, members[i]);
      }
      InitMembersNoop(once, members);
    }
  }

  class Activator {
    var meta: UserMeta

    constructor (meta0: UserMeta)
      ensures meta == meta0
    {
      meta := meta0;
    }

    /** initialize_member_tiers over the active members' user ids. */
    method InitializeMemberTiers(membershipsAvailable: bool, members: seq<int>)
      modifies this
      ensures meta == AfterInitialize(old(meta), membershipsAvailable, members)
    {
      if !membershipsAvailable {
        return;
      }
      for i := 0 to |members|
        invariant meta == InitMembers(old(meta), members[..i])
      {
        assert members[..i + 1][..i] == members[..i];
        var u := members[i];
        var existingTier := GetMeta(meta, u, MdmTierKey);
        if !Truthy(existingTier) {
          meta := SetMeta(meta, u, MdmTierKey, Str("bronze"));
          meta := SetMeta(meta, u, MdmTotalKey, Str("0"));
          meta := SetMeta(meta, u, MdmOverrideKey, Str("0"));
        }
      }
      assert members[..|members|] == members;
    }
  }
}
