/**
 * Role management over the two access-controlled contracts (the registry and the stock):
 * role names and their 32-byte identifiers, the role check that never throws, the role
 * transactions that do, and the per-contract role summary of an account.
 */
module Roles {
  import opened Wrappers
  import opened Chain

  const AdminRole := "ADMIN_ROLE"
  const DefaultAdminRole := "DEFAULT_ADMIN_ROLE"
  const MedicalAgentRole := "MEDICAL_AGENT_ROLE"
  const LogisticManagerRole := "LOGISTIC_MANAGER_ROLE"

  /** The two names OpenZeppelin's access control gives the zero role. */
  predicate IsAdminName(name: string) {
    name == AdminRole || name == DefaultAdminRole
  }

  /** `getRoleHash`: the zero hash for the admin names, else the keccak of the name. */
  function RoleHash(name: string): (h: Hash)
    ensures h == HashZero <==> IsAdminName(name)
    ensures !IsAdminName(name) ==> h == Keccak(name)
  {
    if IsAdminName(name) then HashZero else Keccak(name)
  }

  /** Two role names share an identifier only when they are equal or both admin names. */
  lemma RoleHashInjective(a: string, b: string)
    requires RoleHash(a) == RoleHash(b)
    ensures a == b || (IsAdminName(a) && IsAdminName(b))
  {
    if !IsAdminName(a) {
      assert RoleHash(a) == Keccak(a);
    }
  }

  /** `ROLES`: the identifier of each role the dashboard knows. */
  const RoleIds: map<string, Hash> := map[
    AdminRole := HashZero,
    MedicalAgentRole := Keccak(MedicalAgentRole),
    LogisticManagerRole := Keccak(LogisticManagerRole)]

  /** Each `ROLES` entry is `getRoleHash` of its key, and the three identifiers differ. */
  lemma RoleIdsAgree()
    ensures RoleIds.Keys == {AdminRole, MedicalAgentRole, LogisticManagerRole}
    ensures forall name :: name in RoleIds ==> RoleIds[name] == RoleHash(name)
    ensures forall a, b :: a in RoleIds && b in RoleIds && a != b ==> RoleIds[a] != RoleIds[b]
  {
    assert RoleHash(MedicalAgentRole) == Keccak(MedicalAgentRole);
    assert RoleHash(LogisticManagerRole) == Keccak(LogisticManagerRole);
  }

  /** A contract's `hasRole(roleId, account)` read. */
  type RoleReads = (Hash, string) -> Result<bool, ChainError>

  /** `hasRole`: the contract's answer, or false when the read fails. */
  function HasRole(contract: RoleReads, role: string, account: string): (granted: bool)
    ensures granted <==> contract(RoleHash(role), account) == Success(true)
  {
    contract(RoleHash(role), account).GetOrValue(false)
  }

  /** The three role transactions. */
  datatype RoleAction = Grant | Revoke | Renounce

  /** A role transaction as sent to a contract. */
  datatype RoleTransaction = RoleTransaction(action: RoleAction, role: Hash, account: string)

  /**
   * `grantRole`, `revokeRole` and `renounceRole`: the transaction sent for the role's
   * identifier; unlike `hasRole` a failure is passed on unchanged to the caller.
   */
  function SendRoleTransaction(action: RoleAction, role: string, account: string,
                               send: RoleTransaction -> Option<ChainError>): (r: Result<RoleTransaction, ChainError>)
    ensures r.Success? <==> send(RoleTransaction(action, RoleHash(role), account)).None?
    ensures r.Success? ==> r.value.role == RoleHash(role) && r.value.action == action && r.value.account == account
    ensures r.Failure? ==> r.error == send(RoleTransaction(action, RoleHash(role), account)).value
  {
    var tx := RoleTransaction(action, RoleHash(role), account);
    match send(tx)
    case None => Success(tx)
    case Some(e) => Failure(e)
  }

  /** The roles checked on each contract, in order. */
  const RegistryRoles := [AdminRole, MedicalAgentRole]
  const StockRoles := [AdminRole, LogisticManagerRole]

  /** `getAllUserRoles`'s result: role name to granted, per contract. */
  datatype UserRoles = UserRoles(registry: map<string, bool>, stock: map<string, bool>)

  /** The answers of `contract` for each of `roles`. */
  ghost predicate Answers(checked: map<string, bool>, roles: seq<string>, contract: RoleReads, account: string) {
    && checked.Keys == set r | r in roles
    && forall r :: r in checked ==> checked[r] == HasRole(contract, r, account)
  }

  /** The role-by-role loop of `getAllUserRoles` over one contract. */
  method CheckRoles(contract: RoleReads, roles: seq<string>, account: string) returns (checked: map<string, bool>)
    ensures Answers(checked, roles, contract, account)
  {
    checked := map[];
    for i := 0 to |roles|
      invariant Answers(checked, roles[..i], contract, account)
    {
      assert roles[..i + 1] == roles[..i] + [roles[i]];
      checked := checked[roles[i] := HasRole(contract, roles[i], account)];
    }
    assert roles[..|roles|] == roles;
  }

  /**
   * `getAllUserRoles`. `registry` and `stock` are the contract handles, `None` when
   * `getContract` refuses to build one (missing address or signer).
   */
  method GetAllUserRoles(registry: Option<RoleReads>, stock: Option<RoleReads>, account: string)
    returns (roles: Result<UserRoles, ChainError>)
    ensures roles.Failure? <==> registry.None? || stock.None?
    ensures roles.Failure? ==> roles.error == MissingParameters
    ensures roles.Success? ==>
      && Answers(roles.value.registry, RegistryRoles, registry.value, account)
      && Answers(roles.value.stock, StockRoles, stock.value, account)
  {
    if registry.None? || stock.None? {
      return Failure(MissingParameters);
    }
    var registryChecked := CheckRoles(registry.value, RegistryRoles, account);
    var stockChecked := CheckRoles(stock.value, StockRoles, account);
    roles := Success(UserRoles(registryChecked, stockChecked));
  }

  /** `isUserAdmin`: admin on either contract; false when the roles cannot be read. */
  method IsUserAdmin(registry: Option<RoleReads>, stock: Option<RoleReads>, account: string) returns (admin: bool)
    ensures admin <==>
      && registry.Some? && stock.Some?
      && (HasRole(registry.value, AdminRole, account) || HasRole(stock.value, AdminRole, account))
  {
    var roles := GetAllUserRoles(registry, stock, account);
    match roles {
      case Failure(_) =>
        admin := false;
      case Success(r) =>
        assert AdminRole in r.registry && AdminRole in r.stock;
        admin := r.registry[AdminRole] || r.stock[AdminRole];
    }
  }
}
