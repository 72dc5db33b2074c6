/** Channel permissions, joined over any number of roles and overrides. */
module Permissions {
  import opened Base
  import opened Masks

  // ---------------------------------------------------------------- BIT_OR

  // COALESCE(BIT_OR(column), 0) over rows in the order the query meets them.
  function BitOr(rows: seq<Bits>): Bits {
    if rows == [] then 0 else Or(rows[0], BitOr(rows[1..]))
  }

  ghost predicate SomeRow(rows: seq<Bits>, sees: Bits -> bool) {
    exists i :: 0 <= i < |rows| && sees(rows[i])
  }

  lemma SomeRowStep(rows: seq<Bits>, sees: Bits -> bool)
    requires rows != []
    ensures SomeRow(rows, sees) <==> sees(rows[0]) || SomeRow(rows[1..], sees)
  {
    if i :| 0 < i < |rows| && sees(rows[i]) {
      assert rows[1..][i - 1] == rows[i];
    }
  }

  lemma BitOrStep(rows: seq<Bits>, sees: Bits -> bool)
    requires Bitwise(sees) && rows != []
    ensures sees(BitOr(rows)) <==> sees(rows[0]) || sees(BitOr(rows[1..]))
  {
  }

  // A bit is in the aggregate exactly when some row has it.
  lemma {:induction false} BitOrBit(rows: seq<Bits>, sees: Bits -> bool)
    requires Bitwise(sees)
    ensures sees(BitOr(rows)) <==> SomeRow(rows, sees)
  {
    if rows == [] {
    } else {
      BitOrStep(rows, sees);
      BitOrBit(rows[1..], sees);
      SomeRowStep(rows, sees);
    }
  }

  // ---------------------------------------------------------------- tables

  datatype Override = Override(allow: Bits, deny: Bits)

  datatype Target = Role(id: Id) | Member(id: Id)

  // The tables the resolution reads. An override's key is (channel, target).
  datatype Tables = Tables(
    channels: map<Id, Id>,
    guildMembers: set<(Id, Id)>,
    memberRoles: set<(Id, Id, Id)>,
    rolePermissions: map<Id, Bits>,
    overrides: map<(Id, Target), Override>)

  function PermissionsOf(t: Tables, role: Id): Bits {
    if role in t.rolePermissions then t.rolePermissions[role] else 0
  }

  function OverrideOf(t: Tables, channel: Id, target: Target): Override {
    if (channel, target) in t.overrides then t.overrides[(channel, target)] else Override(0, 0)
  }

  // What a query aggregates over the user's roles: the roles' own permissions,
  // or one side of the channel's overrides for them.
  datatype Column = Grants | Denials | Allowances

  function Cell(t: Tables, channel: Id, column: Column, role: Id): Bits {
    match column
    case Grants => PermissionsOf(t, role)
    case Denials => OverrideOf(t, channel, Role(role)).deny
    case Allowances => OverrideOf(t, channel, Role(role)).allow
  }

  function Rows(t: Tables, channel: Id, column: Column, order: seq<Id>): seq<Bits> {
    seq(|order|, i requires 0 <= i < |order| => Cell(t, channel, column, order[i]))
  }

  // The order in which each of the three role queries met the user's roles.
  datatype Orders = Orders(base: seq<Id>, deny: seq<Id>, allow: seq<Id>)

  // Each query meets exactly the roles the user holds in the guild.
  ghost predicate AllMet(t: Tables, guild: Id, user: Id, orders: Orders) {
    forall r ::
      && (r in orders.base <==> (guild, user, r) in t.memberRoles)
      && (r in orders.deny <==> (guild, user, r) in t.memberRoles)
      && (r in orders.allow <==> (guild, user, r) in t.memberRoles)
  }

  // Denials are cleared before allowances are set.
  function Adjusted(bits: Bits, deny: Bits, allow: Bits): Bits {
    Or(Without(bits, deny), allow)
  }

  function RoleAdjusted(t: Tables, channel: Id, orders: Orders): Bits {
    Adjusted(
      BitOr(Rows(t, channel, Grants, orders.base)),
      BitOr(Rows(t, channel, Denials, orders.deny)),
      BitOr(Rows(t, channel, Allowances, orders.allow)))
  }

  // `resolve_channel_permissions` of a member of the channel's guild.
  function MemberAdjusted(t: Tables, channel: Id, user: Id, orders: Orders): Bits {
    var own := OverrideOf(t, channel, Member(user));
    Adjusted(RoleAdjusted(t, channel, orders), own.deny, own.allow)
  }

  // None: the user does not belong to the channel's guild.
  function Resolve(t: Tables, channel: Id, user: Id, orders: Orders): Option<Bits> {
    if channel in t.channels && (t.channels[channel], user) in t.guildMembers
    then Some(MemberAdjusted(t, channel, user, orders))
    else None
  }

  // ------------------------------------------------------------------ rule

  // The rule for one bit, read off the rows. A role of the user grants it;
  ghost predicate RoleGrants(t: Tables, guild: Id, user: Id, sees: Bits -> bool) {
    exists r :: (guild, user, r) in t.memberRoles && r in t.rolePermissions && sees(t.rolePermissions[r])
  }

  // an override of the channel denies it to one of the user's roles;
  ghost predicate RoleDenied(t: Tables, guild: Id, channel: Id, user: Id, sees: Bits -> bool) {
    exists r ::
      && (guild, user, r) in t.memberRoles && (channel, Role(r)) in t.overrides
      && sees(t.overrides[(channel, Role(r))].deny)
  }

  // or allows it to one.
  ghost predicate RoleAllowed(t: Tables, guild: Id, channel: Id, user: Id, sees: Bits -> bool) {
    exists r ::
      && (guild, user, r) in t.memberRoles && (channel, Role(r)) in t.overrides
      && sees(t.overrides[(channel, Role(r))].allow)
  }

  // The member's own override decides first, allowing before denying. Then an
  // override that allows a role wins over one that denies a role, and that
  // over a role that grants.
  ghost predicate Granted(t: Tables, guild: Id, channel: Id, user: Id, sees: Bits -> bool) {
    var own := (channel, Member(user));
    || (own in t.overrides && sees(t.overrides[own].allow))
    || (!(own in t.overrides && sees(t.overrides[own].deny))
        && (RoleAllowed(t, guild, channel, user, sees)
            || (RoleGrants(t, guild, user, sees) && !RoleDenied(t, guild, channel, user, sees))))
  }

  ghost predicate SomeCell(t: Tables, channel: Id, column: Column, order: seq<Id>, sees: Bits -> bool) {
    exists r :: r in order && sees(Cell(t, channel, column, r))
  }

  // In whatever order a query meets its rows, a bit of what it aggregates is
  // set exactly when some row has it.
  lemma ColumnBit(t: Tables, channel: Id, column: Column, order: seq<Id>, sees: Bits -> bool)
    requires Bitwise(sees)
    ensures sees(BitOr(Rows(t, channel, column, order))) <==> SomeCell(t, channel, column, order, sees)
  {
    var rows := Rows(t, channel, column, order);
    BitOrBit(rows, sees);
    if r :| r in order && sees(Cell(t, channel, column, r)) {
      var i :| 0 <= i < |order| && order[i] == r;
      assert sees(rows[i]);
    }
  }

  // A missing row has no bits, so the three queries see the rows themselves.
  lemma CellsAreRows(t: Tables, guild: Id, channel: Id, user: Id, orders: Orders, sees: Bits -> bool)
    requires Bitwise(sees) && AllMet(t, guild, user, orders)
    ensures SomeCell(t, channel, Grants, orders.base, sees) <==> RoleGrants(t, guild, user, sees)
    ensures SomeCell(t, channel, Denials, orders.deny, sees) <==> RoleDenied(t, guild, channel, user, sees)
    ensures SomeCell(t, channel, Allowances, orders.allow, sees) <==> RoleAllowed(t, guild, channel, user, sees)
  {
    forall r
      ensures sees(Cell(t, channel, Grants, r)) <==> r in t.rolePermissions && sees(t.rolePermissions[r])
      ensures sees(Cell(t, channel, Denials, r)) <==>
                (channel, Role(r)) in t.overrides && sees(t.overrides[(channel, Role(r))].deny)
      ensures sees(Cell(t, channel, Allowances, r)) <==>
                (channel, Role(r)) in t.overrides && sees(t.overrides[(channel, Role(r))].allow)
    {
    }
  }

  // REFINEMENT. However many roles there are and in whatever order the queries
  // meet them, every bit is resolved exactly as the rule says.
  lemma ResolutionFollowsRule(t: Tables, guild: Id, channel: Id, user: Id, orders: Orders, sees: Bits -> bool)
    requires Bitwise(sees) && AllMet(t, guild, user, orders)
    ensures sees(MemberAdjusted(t, channel, user, orders)) <==> Granted(t, guild, channel, user, sees)
  {
    ColumnBit(t, channel, Grants, orders.base, sees);
    ColumnBit(t, channel, Denials, orders.deny, sees);
    ColumnBit(t, channel, Allowances, orders.allow, sees);
    CellsAreRows(t, guild, channel, user, orders, sees);
  }

  // Row order does not matter.
  lemma ResolutionIgnoresOrder(t: Tables, channel: Id, user: Id, some: Orders, other: Orders)
    requires channel in t.channels ==> AllMet(t, t.channels[channel], user, some)
    requires channel in t.channels ==> AllMet(t, t.channels[channel], user, other)
    ensures Resolve(t, channel, user, some) == Resolve(t, channel, user, other)
  {
    if channel in t.channels {
      var guild := t.channels[channel];
      forall b: Position
        ensures Bit(MemberAdjusted(t, channel, user, some), b) <==> Bit(MemberAdjusted(t, channel, user, other), b)
      {
        AtIsBitwise(b);
        ResolutionFollowsRule(t, guild, channel, user, some, At(b));
        ResolutionFollowsRule(t, guild, channel, user, other, At(b));
      }
      SameBits(MemberAdjusted(t, channel, user, some), MemberAdjusted(t, channel, user, other));
    }
  }

  // A command that requires several permissions passes exactly for a member
  // of the channel's guild to whom the rule grants every one of them.
  lemma AuthorizationMeaning(t: Tables, channel: Id, user: Id, orders: Orders, required: Bits)
    requires channel in t.channels ==> AllMet(t, t.channels[channel], user, orders)
    ensures var bits := Resolve(t, channel, user, orders);
            bits.Some? && Has(bits.value, required) <==>
              && channel in t.channels && (t.channels[channel], user) in t.guildMembers
              && forall b: Position :: Bit(required, b) ==> Granted(t, t.channels[channel], channel, user, At(b))
  {
    if channel in t.channels {
      var resolved := MemberAdjusted(t, channel, user, orders);
      HasIsConjunction(resolved, required);
      forall b: Position
        ensures Bit(resolved, b) <==> Granted(t, t.channels[channel], channel, user, At(b))
      {
        AtIsBitwise(b);
        ResolutionFollowsRule(t, t.channels[channel], channel, user, orders, At(b));
      }
    }
  }
}
