/**
 * The role-gated content wrapper: the flat list of the user's roles built from the
 * per-contract summary, and the permission test against a section's allowed roles.
 */
module RoleContent {
  import opened Wrappers
  import opened Chain
  import opened Roles

  /** The order in which roles are listed. */
  function RoleRank(role: string): nat {
    if role == AdminRole then 0 else if role == MedicalAgentRole then 1 else 2
  }

  /** Only the three dashboard roles, each at most once, in the order admin, medical, logistic. */
  predicate InRoleOrder(list: seq<string>) {
    && (forall i :: 0 <= i < |list| ==> list[i] in {AdminRole, MedicalAgentRole, LogisticManagerRole})
    && (forall i, j :: 0 <= i < j < |list| ==> RoleRank(list[i]) < RoleRank(list[j]))
  }

  /** A list in role order repeats nothing and has at most three entries. */
  lemma {:induction false} InRoleOrderBounded(list: seq<string>)
    requires InRoleOrder(list)
    ensures forall i, j :: 0 <= i < j < |list| ==> list[i] != list[j]
    ensures |list| <= 3
  {
    if |list| > 3 {
      assert RoleRank(list[0]) < RoleRank(list[1]) < RoleRank(list[2]) < RoleRank(list[3]);
    }
  }

  /** Appending a role ranked after every listed role keeps the list in role order. */
  lemma AppendInOrder(list: seq<string>, role: string)
    requires InRoleOrder(list) && role in {AdminRole, MedicalAgentRole, LogisticManagerRole}
    requires forall i :: 0 <= i < |list| ==> RoleRank(list[i]) < RoleRank(role)
    ensures InRoleOrder(list + [role])
  {
  }

  /**
   * `checkUserRoles`: the list of role names of the connected account, empty when no
   * address or signer is available or the roles cannot be read.
   */
  method UserRolesList(address: string, hasSigner: bool, registry: Option<RoleReads>, stock: Option<RoleReads>)
    returns (list: seq<string>)
    ensures (address == "" || !hasSigner || registry.None? || stock.None?) ==> list == []
    ensures AdminRole in list <==>
      && address != "" && hasSigner && registry.Some? && stock.Some?
      && (HasRole(registry.value, AdminRole, address) || HasRole(stock.value, AdminRole, address))
    ensures MedicalAgentRole in list <==>
      && address != "" && hasSigner && registry.Some? && stock.Some?
      && HasRole(registry.value, MedicalAgentRole, address)
    ensures LogisticManagerRole in list <==>
      && address != "" && hasSigner && registry.Some? && stock.Some?
      && HasRole(stock.value, LogisticManagerRole, address)
    ensures InRoleOrder(list)
  {
    list := [];
    assert RoleRank(AdminRole) == 0 && RoleRank(MedicalAgentRole) == 1 && RoleRank(LogisticManagerRole) == 2;
    if address == "" || !hasSigner {
      return;
    }
    var roles := GetAllUserRoles(registry, stock, address);
    if roles.Failure? {
      return;
    }
    var r := roles.value;
    assert AdminRole in r.registry && MedicalAgentRole in r.registry;
    assert AdminRole in r.stock && LogisticManagerRole in r.stock;
    if r.registry[AdminRole] || r.stock[AdminRole] {
      AppendInOrder(list, AdminRole);
      list := list + [AdminRole];
    }
    if r.registry[MedicalAgentRole] {
      AppendInOrder(list, MedicalAgentRole);
      list := list + [MedicalAgentRole];
    }
    if r.stock[LogisticManagerRole] {
      AppendInOrder(list, LogisticManagerRole);
      list := list + [LogisticManagerRole];
    }
  }

  /** `allowedRoles.some(role => userRoles.includes(role))` */
  function SharesRole(allowed: seq<string>, userRoles: seq<string>): (shared: bool)
    ensures shared <==> exists role :: role in allowed && role in userRoles
    decreases |allowed|
  {
    if |allowed| == 0 then false
    else if allowed[0] in userRoles then true
    else
      assert forall role :: role in allowed <==> role == allowed[0] || role in allowed[1..];
      SharesRole(allowed[1..], userRoles)
  }

  /** `hasPermission`: an unrestricted section, or one allowing a role the user holds. */
  function HasPermission(allowed: seq<string>, userRoles: seq<string>): (granted: bool)
    ensures granted <==> |allowed| == 0 || exists role :: role in allowed && role in userRoles
  {
    |allowed| == 0 || SharesRole(allowed, userRoles)
  }

  /** Holding more roles never loses a permission. */
  lemma PermissionMonotone(allowed: seq<string>, fewer: seq<string>, more: seq<string>)
    requires forall role :: role in fewer ==> role in more
    requires HasPermission(allowed, fewer)
    ensures HasPermission(allowed, more)
  {
    if |allowed| > 0 {
      var role :| role in allowed && role in fewer;
      assert role in more;
    }
  }

  /** A user without roles (disconnected, or failed lookup) sees only unrestricted sections. */
  lemma NoRolesNoAccess(allowed: seq<string>)
    ensures HasPermission(allowed, []) <==> |allowed| == 0
  {
  }
}
