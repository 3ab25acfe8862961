/**
 * The configuration screen: who may add vaccination centres and vaccine types, the
 * checks made on the two forms before anything is sent, and the lists reloaded after a
 * successful addition.
 */
module Configuration {
  import opened Wrappers
  import opened Strings
  import opened Chain
  import opened Roles
  import opened Registry

  // ---------------------------------------------------------------- roles

  /** The four role flags of the screen; all false when they could not be read. */
  datatype RoleFlags = RoleFlags(isStockAdmin: bool, isLogisticManager: bool,
                                 isRegistryAdmin: bool, isMedicalAgent: bool)

  const NoRoles := RoleFlags(false, false, false, false)

  /**
   * `checkUserRoles`: the four checks, or no role without a wallet or when a contract
   * handle cannot be built.
   */
  function CheckUserRoles(hasSigner: bool, account: string, stock: Option<RoleReads>,
                          registry: Option<RoleReads>): (flags: RoleFlags)
    ensures (!hasSigner || account == "" || stock.None? || registry.None?) ==> flags == NoRoles
    ensures (hasSigner && account != "" && stock.Some? && registry.Some?) ==>
      && flags.isStockAdmin == HasRole(stock.value, AdminRole, account)
      && flags.isLogisticManager == HasRole(stock.value, LogisticManagerRole, account)
      && flags.isRegistryAdmin == HasRole(registry.value, AdminRole, account)
      && flags.isMedicalAgent == HasRole(registry.value, MedicalAgentRole, account)
  {
    if !hasSigner || account == "" || stock.None? || registry.None? then NoRoles
    else RoleFlags(HasRole(stock.value, AdminRole, account), HasRole(stock.value, LogisticManagerRole, account),
                   HasRole(registry.value, AdminRole, account), HasRole(registry.value, MedicalAgentRole, account))
  }

  /** `canManageCenters`: stock admin or logistic manager. */
  predicate CanManageCenters(flags: RoleFlags) {
    flags.isStockAdmin || flags.isLogisticManager
  }

  /** `canManageVaccineTypes`: registry admin or medical agent. */
  predicate CanManageVaccineTypes(flags: RoleFlags) {
    flags.isRegistryAdmin || flags.isMedicalAgent
  }

  /**
   * Centre management depends only on the stock contract's roles and vaccine-type
   * management only on the registry's.
   */
  lemma ManagementRights(hasSigner: bool, account: string, stock: RoleReads, registry: RoleReads)
    requires hasSigner && account != ""
    ensures CanManageCenters(CheckUserRoles(hasSigner, account, Some(stock), Some(registry))) <==>
      HasRole(stock, AdminRole, account) || HasRole(stock, LogisticManagerRole, account)
    ensures CanManageVaccineTypes(CheckUserRoles(hasSigner, account, Some(stock), Some(registry))) <==>
      HasRole(registry, AdminRole, account) || HasRole(registry, MedicalAgentRole, account)
  {
  }

  // ---------------------------------------------------------------- centres

  /** A centre as listed: the identifier serves as its name too. */
  datatype Center = Center(id: string, name: string)

  /** `blockchainCenters.map(center => ({ id: center, name: center }))` */
  function CentersOf(ids: seq<string>): (centers: seq<Center>)
    ensures |centers| == |ids|
    ensures forall i :: 0 <= i < |ids| ==> centers[i] == Center(ids[i], ids[i])
  {
    seq(|ids|, i requires 0 <= i < |ids| => Center(ids[i], ids[i]))
  }

  /** The toast for a failed `addCenter`. */
  function AddCenterError(e: ChainError): (toast: string)
    ensures Contains(e.message, "CenterAlreadyExists") ==> toast == "Ce centre existe déjà"
    ensures !Contains(e.message, "CenterAlreadyExists") ==> toast == "Échec de l'ajout du centre: " + e.message
  {
    if Contains(e.message, "CenterAlreadyExists") then "Ce centre existe déjà"
    else "Échec de l'ajout du centre: " + e.message
  }

  // ---------------------------------------------------------------- vaccine types

  const DefaultRequiredDoses := "2"

  /**
   * The checks of `handleAddVaccineType` before anything is sent: the refusing toast, or
   * `None`. A count that does not parse (`NaN`) fails neither comparison and is let through.
   */
  function VaccineTypeError(hasSigner: bool, name: string, requiredDoses: string): (e: Option<string>)
    ensures (!hasSigner || Trim(name) == "" || requiredDoses == "") ==> e == Some("Veuillez remplir tous les champs requis")
    ensures e.None? <==>
      && hasSigner && Trim(name) != "" && requiredDoses != ""
      && (ParseInt(requiredDoses).None? || 1 <= ParseInt(requiredDoses).value <= 10)
  {
    if !hasSigner || Trim(name) == "" || requiredDoses == "" then Some("Veuillez remplir tous les champs requis")
    else
      match ParseInt(requiredDoses)
      case Some(n) => if n < 1 || n > 10 then Some("Le nombre de doses doit être entre 1 et 10") else None
      case None => None
  }

  /** The state of the configuration screen. */
  class ConfigurationScreen {
    var centerId: string
    var typeName: string
    var requiredDoses: string
    var centers: seq<Center>
    var vaccineTypes: seq<VaccineTypeRow>

    constructor ()
      ensures centerId == "" && typeName == "" && requiredDoses == DefaultRequiredDoses
      ensures centers == [] && vaccineTypes == []
    {
      centerId := "";
      typeName := "";
      requiredDoses := DefaultRequiredDoses;
      centers := [];
      vaccineTypes := [];
    }

    /**
     * `loadCenters`. `hasHandle` is whether the stock contract handle can be built (it
     * throws without a configured address) and `listing` is the contract's centre list,
     * which `getAllCenters` turns into `[]` when the call reverts. Without a signer the
     * list is emptied; a handle that cannot be built empties it and returns the error toast.
     */
    method LoadCenters(hasSigner: bool, hasHandle: bool, listing: Result<seq<string>, ChainError>)
      returns (toast: Option<string>)
      modifies this
      ensures !hasSigner ==> centers == [] && toast.None?
      ensures hasSigner && hasHandle ==> centers == CentersOf(listing.GetOrValue([])) && toast.None?
      ensures hasSigner && !hasHandle ==> centers == [] && toast == Some("Erreur lors du chargement des centres")
      ensures centerId == old(centerId) && typeName == old(typeName) && requiredDoses == old(requiredDoses)
      ensures vaccineTypes == old(vaccineTypes)
    {
      toast := None;
      if !hasSigner {
        centers := [];
        return;
      }
      if !hasHandle {
        centers := [];
        toast := Some("Erreur lors du chargement des centres");
        return;
      }
      centers := CentersOf(listing.GetOrValue([]));
    }

    /**
     * `handleAddCenter`. `send` adds a centre on the stock contract and `listing` is the
     * stock contract's centre list read afterwards. Returns the toast and the identifier
     * sent, if any.
     */
    method HandleAddCenter(hasSigner: bool, send: string -> Option<ChainError>,
                           listing: Result<seq<string>, ChainError>)
      returns (toast: Result<string, string>, sent: Option<string>)
      modifies this
      ensures (!hasSigner || Trim(old(centerId)) == "") ==>
        toast == Failure("Veuillez saisir un ID de centre valide") && sent.None?
      ensures hasSigner && Trim(old(centerId)) != "" ==> sent == Some(Trim(old(centerId)))
      ensures toast.Success? <==> sent.Some? && send(sent.value).None?
      ensures toast.Success? ==>
        && toast.value == "Centre \"" + old(centerId) + "\" ajouté avec succès"
        && centerId == ""
        && centers == CentersOf(listing.GetOrValue([]))
      ensures toast.Failure? && sent.Some? ==> toast.error == AddCenterError(send(sent.value).value)
      ensures toast.Failure? ==> centerId == old(centerId) && centers == old(centers)
      ensures typeName == old(typeName) && requiredDoses == old(requiredDoses) && vaccineTypes == old(vaccineTypes)
    {
      sent := None;
      if !hasSigner || Trim(centerId) == "" {
        toast := Failure("Veuillez saisir un ID de centre valide");
        return;
      }
      var id := Trim(centerId);
      sent := Some(id);
      match send(id) {
        case Some(e) =>
          toast := Failure(AddCenterError(e));
        case None =>
          toast := Success("Centre \"" + centerId + "\" ajouté avec succès");
          centerId := "";
          centers := CentersOf(listing.GetOrValue([]));
      }
    }

    /**
     * `handleAddVaccineType`. `send` adds a type on the registry with the parsed dose
     * count (`None` for `NaN`) and `listing` is the registry's type read afterwards.
     */
    method HandleAddVaccineType(hasSigner: bool, send: (string, Option<int>) -> Option<ChainError>,
                                listing: Result<seq<VaccineTypeRow>, ChainError>)
      returns (toast: Result<string, string>, sent: Option<(string, Option<int>)>)
      modifies this
      ensures VaccineTypeError(hasSigner, old(typeName), old(requiredDoses)).Some? ==>
        toast == Failure(VaccineTypeError(hasSigner, old(typeName), old(requiredDoses)).value) && sent.None?
      ensures VaccineTypeError(hasSigner, old(typeName), old(requiredDoses)).None? ==>
        sent == Some((Trim(old(typeName)), ParseInt(old(requiredDoses))))
      ensures sent.Some? && sent.value.1.Some? ==> 1 <= sent.value.1.value <= 10
      ensures toast.Success? <==> sent.Some? && send(sent.value.0, sent.value.1).None?
      ensures toast.Success? ==>
        && typeName == "" && requiredDoses == DefaultRequiredDoses
        && vaccineTypes == AllVaccinationTypes(listing)
      ensures toast.Failure? && sent.Some? ==>
        toast.error == "Échec de l'ajout du type de vaccin: " + send(sent.value.0, sent.value.1).value.message
      ensures toast.Failure? ==>
        typeName == old(typeName) && requiredDoses == old(requiredDoses) && vaccineTypes == old(vaccineTypes)
      ensures centerId == old(centerId) && centers == old(centers)
    {
      sent := None;
      var invalid := VaccineTypeError(hasSigner, typeName, requiredDoses);
      if invalid.Some? {
        toast := Failure(invalid.value);
        return;
      }
      var name := Trim(typeName);
      var doses := ParseInt(requiredDoses);
      sent := Some((name, doses));
      match send(name, doses) {
        case Some(e) =>
          toast := Failure("Échec de l'ajout du type de vaccin: " + e.message);
        case None =>
          toast := Success("Type de vaccin \"" + typeName + "\" ajouté avec succès");
          typeName := "";
          requiredDoses := DefaultRequiredDoses;
          vaccineTypes := AllVaccinationTypes(listing);
      }
    }
  }
}
