/** The member list of the selected server: members grouped by role, shown
    under fixed role headings in a fixed order, with a colour, an icon and a
    subtitle per role. */
module MemberList {
  import opened Base
  import opened Text
  import opened Gateway

  /** `serverMembers.list({ where: { serverId } })`. */
  function MembersOf(all: seq<ServerMember>, serverId: string): (r: seq<ServerMember>)
    ensures forall m :: m in r <==> m in all && m.serverId == serverId
  {
    Filter(all, (m: ServerMember) => m.serverId == serverId)
  }

  /** `member.role || 'member'`: the group key; a missing or empty role groups as 'member'. */
  function RoleOf(m: ServerMember): (role: string)
    ensures role != []
    ensures Truthy(m.role) ==> role == m.role.value
    ensures !Truthy(m.role) ==> role == "member"
  {
    OrElse(m.role, "member")
  }

  /** The members of one group, in list order. */
  function WithRole(members: seq<ServerMember>, role: string): (r: seq<ServerMember>)
    ensures |r| <= |members|
    ensures forall m :: m in r <==> m in members && RoleOf(m) == role
  {
    Filter(members, (m: ServerMember) => RoleOf(m) == role)
  }

  lemma WithRoleSnoc(members: seq<ServerMember>, m: ServerMember, role: string)
    ensures WithRole(members + [m], role) == WithRole(members, role) + (if RoleOf(m) == role then [m] else [])
  {
    FilterConcat(members, [m], (x: ServerMember) => RoleOf(x) == role);
  }

  /** `g` holds one entry per role that occurs, each the members of that role in
      list order. */
  ghost predicate IsGrouping(g: map<string, seq<ServerMember>>, members: seq<ServerMember>) {
    && (forall role :: role in g <==> WithRole(members, role) != [])
    && (forall role :: role in g ==> g[role] == WithRole(members, role))
  }

  /** One step of the reduce: `m` is pushed onto its role's group, which is
      created empty first when missing. */
  lemma GroupingStep(groups: map<string, seq<ServerMember>>, prefix: seq<ServerMember>, m: ServerMember)
    requires IsGrouping(groups, prefix)
    ensures var role := RoleOf(m);
      var created := if role in groups then groups else groups[role := []];
      IsGrouping(created[role := created[role] + [m]], prefix + [m])
  {
    var role := RoleOf(m);
    var created := if role in groups then groups else groups[role := []];
    var after := created[role := created[role] + [m]];
    forall r ensures (r in after <==> WithRole(prefix + [m], r) != []) && (r in after ==> after[r] == WithRole(prefix + [m], r)) {
      WithRoleSnoc(prefix, m, r);
    }
  }

  /** The `groupedMembers` reduce: every member is pushed onto its role's group.
      Roles are plain map keys here; the source's `{}` accumulator inherits the
      `Object.prototype` names, and a role such as "constructor" makes its
      `push` throw, which this map does not model. */
  method GroupMembers(members: seq<ServerMember>) returns (groups: map<string, seq<ServerMember>>)
    ensures IsGrouping(groups, members)
  {
    groups := map[];
    for i := 0 to |members|
      invariant IsGrouping(groups, members[..i])
    {
      var m := members[i];
      var role := RoleOf(m);
      GroupingStep(groups, members[..i], m);
      assert members[..i + 1] == members[..i] + [m];
      if role !in groups {
        groups := groups[role := []];
      }
      groups := groups[role := groups[role] + [m]];
    }
    assert members[..|members|] == members;
  }

  /** The display order of the groups. */
  const RoleOrder: seq<string> := ["owner", "admin", "moderator", "member"]

  /** The heading of each displayed group. */
  function RoleLabel(role: string): (l: string)
    ensures l == "SERVER OWNER" <==> role == "owner"
    ensures l == "ADMINISTRATORS" <==> role == "admin"
    ensures l == "MODERATORS" <==> role == "moderator"
    ensures l == "MEMBERS" <==> role != "owner" && role != "admin" && role != "moderator"
  {
    match role
    case "owner" => "SERVER OWNER"
    case "admin" => "ADMINISTRATORS"
    case "moderator" => "MODERATORS"
    case _ => "MEMBERS"
  }

  /** One displayed group: its heading, the size shown beside it, and its rows. */
  datatype Section = Section(role: string, heading: string, count: nat, members: seq<ServerMember>)

  /** The groups for `roles`, in that order, skipping empty ones. */
  function SectionsFor(g: map<string, seq<ServerMember>>, roles: seq<string>): (r: seq<Section>)
    ensures |r| <= |roles|
    ensures forall s :: s in r ==>
      && s.role in roles && s.members != [] && s.count == |s.members|
      && s.heading == RoleLabel(s.role) && s.role in g && s.members == g[s.role]
  {
    if roles == [] then []
    else
      var ms := if roles[0] in g then g[roles[0]] else [];
      (if ms == [] then [] else [Section(roles[0], RoleLabel(roles[0]), |ms|, ms)]) + SectionsFor(g, roles[1..])
  }

  /** What the member list renders. */
  function Sections(g: map<string, seq<ServerMember>>): (r: seq<Section>)
    ensures |r| <= 4
  {
    SectionsFor(g, RoleOrder)
  }

  function RolesOf(ss: seq<Section>): (r: seq<string>)
    ensures |r| == |ss|
  {
    if ss == [] then [] else [ss[0].role] + RolesOf(ss[1..])
  }

  /** Roles of `roles` that have members. */
  function Occupied(roles: seq<string>, members: seq<ServerMember>): seq<string> {
    Filter(roles, (role: string) => WithRole(members, role) != [])
  }

  lemma {:induction false} SectionsForOrder(g: map<string, seq<ServerMember>>, members: seq<ServerMember>, roles: seq<string>)
    requires IsGrouping(g, members)
    ensures RolesOf(SectionsFor(g, roles)) == Occupied(roles, members)
  {
    if roles != [] {
      SectionsForOrder(g, members, roles[1..]);
      var head := if roles[0] in g then g[roles[0]] else [];
      var first := if head == [] then [] else [Section(roles[0], RoleLabel(roles[0]), |head|, head)];
      RolesOfConcat(first, SectionsFor(g, roles[1..]));
    }
  }

  lemma {:induction false} RolesOfConcat(a: seq<Section>, b: seq<Section>)
    ensures RolesOf(a + b) == RolesOf(a) + RolesOf(b)
  {
    if a == [] {
      assert a + b == b;
    } else {
      assert (a + b)[0] == a[0];
      assert (a + b)[1..] == a[1..] + b;
      RolesOfConcat(a[1..], b);
    }
  }

  /** The groups appear in the order owner, admin, moderator, member, and
      exactly the non-empty ones appear. */
  lemma DisplayOrder(g: map<string, seq<ServerMember>>, members: seq<ServerMember>)
    requires IsGrouping(g, members)
    ensures RolesOf(Sections(g)) == Occupied(RoleOrder, members)
  {
    SectionsForOrder(g, members, RoleOrder);
  }

  /** Each displayed group is exactly the members of its role, in list order,
      with its size as the count. */
  lemma SectionsAreGroups(g: map<string, seq<ServerMember>>, members: seq<ServerMember>)
    requires IsGrouping(g, members)
    ensures forall s :: s in Sections(g) ==>
      s.role in RoleOrder && s.members == WithRole(members, s.role) && s.count == |WithRole(members, s.role)| > 0
  {
  }

  lemma {:induction false} SectionsForCover(g: map<string, seq<ServerMember>>, members: seq<ServerMember>, roles: seq<string>, m: ServerMember)
    requires IsGrouping(g, members)
    requires m in members && RoleOf(m) in roles
    ensures exists s :: s in SectionsFor(g, roles) && m in s.members
  {
    if roles[0] == RoleOf(m) {
      assert m in WithRole(members, RoleOf(m));
      assert SectionsFor(g, roles)[0].members == g[RoleOf(m)];
    } else {
      SectionsForCover(g, members, roles[1..], m);
      var s :| s in SectionsFor(g, roles[1..]) && m in s.members;
      assert s in SectionsFor(g, roles);
    }
  }

  /** A member is displayed exactly when its role is one of the four known
      roles; members with any other role are grouped but never shown. */
  lemma DisplayedMembers(g: map<string, seq<ServerMember>>, members: seq<ServerMember>, m: ServerMember)
    requires IsGrouping(g, members)
    ensures (exists s :: s in Sections(g) && m in s.members) <==> m in members && RoleOf(m) in RoleOrder
  {
    if m in members && RoleOf(m) in RoleOrder {
      SectionsForCover(g, members, RoleOrder, m);
    }
  }

  /** `getRoleColor(member.role)`; the raw role is used, so a missing role gets
      the default colour. */
  function RoleColor(role: Option<string>): (c: string)
    ensures role == Some("owner") <==> c == "text-[#faa61a]"
    ensures role == Some("admin") <==> c == "text-[#f04747]"
    ensures role == Some("moderator") <==> c == "text-[#43b581]"
    ensures c == "text-[#b9bbbe]" <==> role != Some("owner") && role != Some("admin") && role != Some("moderator")
  {
    if role == Some("owner") then "text-[#faa61a]"
    else if role == Some("admin") then "text-[#f04747]"
    else if role == Some("moderator") then "text-[#43b581]"
    else "text-[#b9bbbe]"
  }

  datatype IconShape = Crown | Shield | ShieldCheck
  datatype RoleIcon = RoleIcon(shape: IconShape, color: string)

  /** `getRoleIcon(member.role)`: an icon for the three staff roles, none otherwise. */
  function IconFor(role: Option<string>): (i: Option<RoleIcon>)
    ensures i.Some? <==> role == Some("owner") || role == Some("admin") || role == Some("moderator")
    ensures i.Some? ==> i.value.color == RoleColor(role)
    ensures role == Some("owner") ==> i == Some(RoleIcon(Crown, "text-[#faa61a]"))
    ensures role == Some("admin") ==> i == Some(RoleIcon(Shield, "text-[#f04747]"))
    ensures role == Some("moderator") ==> i == Some(RoleIcon(ShieldCheck, "text-[#43b581]"))
  {
    if role == Some("owner") then Some(RoleIcon(Crown, "text-[#faa61a]"))
    else if role == Some("admin") then Some(RoleIcon(Shield, "text-[#f04747]"))
    else if role == Some("moderator") then Some(RoleIcon(ShieldCheck, "text-[#43b581]"))
    else None
  }

  /** The line under a member's name. */
  function Subtitle(role: Option<string>): (t: string)
    ensures role == Some("owner") ==> t == "Server Owner"
    ensures role == Some("admin") ==> t == "Administrator"
    ensures role == Some("moderator") ==> t == "Moderator"
    ensures role != Some("owner") && role != Some("admin") && role != Some("moderator") ==> t == "Online"
  {
    if role == Some("owner") then "Server Owner"
    else if role == Some("admin") then "Administrator"
    else if role == Some("moderator") then "Moderator"
    else "Online"
  }

  /** A member without a role is grouped, coloured and labelled like an explicit
      'member'. */
  lemma MissingRoleLooksLikeMember(m: ServerMember)
    requires m.role.None?
    ensures RoleOf(m) == RoleOf(m.(role := Some("member")))
    ensures RoleColor(m.role) == RoleColor(Some("member"))
    ensures IconFor(m.role) == IconFor(Some("member")) == None
    ensures Subtitle(m.role) == Subtitle(Some("member"))
  {
  }

  /** The member list's state. */
  class MemberPanel {
    var members: seq<ServerMember>

    constructor ()
      ensures members == []
    {
      members := [];
    }

    /** `loadMembers`: with a server, the gateway's members of that server
        replace the list; without one, or when the query fails, nothing changes. */
    method LoadMembers(store: Store, server: Option<Server>, okCalls: nat)
      modifies this
      ensures server.Some? && okCalls >= 1 ==> members == MembersOf(store.db.members, server.value.id)
      ensures server.None? || okCalls == 0 ==> members == old(members)
    {
      if server.None? || okCalls == 0 { return; }
      members := MembersOf(store.db.members, server.value.id);
    }

    /** The rendered groups for the current list. */
    method Render() returns (sections: seq<Section>)
      ensures RolesOf(sections) == Occupied(RoleOrder, members)
      ensures forall s :: s in sections ==> s.members == WithRole(members, s.role) && s.count == |s.members| > 0
      ensures forall m :: (exists s :: s in sections && m in s.members) <==> m in members && RoleOf(m) in RoleOrder
    {
      var groups := GroupMembers(members);
      sections := Sections(groups);
      DisplayOrder(groups, members);
      SectionsAreGroups(groups, members);
      forall m ensures (exists s :: s in sections && m in s.members) <==> m in members && RoleOf(m) in RoleOrder {
        DisplayedMembers(groups, members, m);
      }
    }
  }
}
