/**
 * The contract administration screen: the deployed addresses read from the environment,
 * their display, and the three forms that point the registry and the governor at other
 * contracts, each guarded by the same address-format check.
 */
module ContractManagement {
  import opened Wrappers
  import opened Strings
  import opened Chain
  import opened Roles

  const NotConfigured := "Non configuré"
  const EnterAddress := "Veuillez saisir une adresse de contrat valide"
  const BadFormat := "Format d'adresse invalide. L'adresse doit commencer par 0x et faire 42 caractères"

  /** The shape the handlers accept: '0x' and 42 characters in all. */
  predicate WellFormedAddress(address: string) {
    StartsWith(address, "0x") && |address| == 42
  }

  /**
   * The check shared by the three `handleSet*` handlers: the toast refusing the input,
   * or `None` when it may be sent.
   */
  function AddressError(hasSigner: bool, address: string): (e: Option<string>)
    ensures e.None? <==> hasSigner && WellFormedAddress(address)
    ensures (!hasSigner || address == "") ==> e == Some(EnterAddress)
    ensures hasSigner && address != "" && !WellFormedAddress(address) ==> e == Some(BadFormat)
  {
    if !hasSigner || address == "" then Some(EnterAddress)
    else if !WellFormedAddress(address) then Some(BadFormat)
    else None
  }

  /** This screen's `formatAddress`: empty and unconfigured values are shown unchanged. */
  function FormatAddress(address: string): (shown: string)
    ensures (address == "" || address == NotConfigured) ==> shown == address
    ensures WellFormedAddress(address) ==>
      && |shown| == 13 && shown[..6] == address[..6] && shown[6..9] == "..." && shown[9..] == address[38..]
  {
    if address == "" || address == NotConfigured then address else ShortAddress(address)
  }

  /** `isAddressConfigured` */
  predicate IsAddressConfigured(address: string) {
    address != "" && address != NotConfigured && StartsWith(address, "0x")
  }

  /** Every address the handlers accept counts as configured. */
  lemma WellFormedIsConfigured(address: string)
    requires WellFormedAddress(address)
    ensures IsAddressConfigured(address)
  {
    assert address[..2] == "0x";
    assert NotConfigured[0] == 'N';
  }

  /** An environment address as displayed: the variable's value or the placeholder. */
  function EnvAddress(variable: Option<string>): (shown: string)
    ensures variable.Some? && variable.value != "" ==> shown == variable.value
    ensures variable.None? || variable.value == "" ==> shown == NotConfigured
  {
    if variable.Some? && variable.value != "" then variable.value else NotConfigured
  }

  /** A displayed environment address is configured exactly when the variable holds a '0x' value. */
  lemma EnvAddressConfigured(variable: Option<string>)
    ensures IsAddressConfigured(EnvAddress(variable)) <==> variable.Some? && StartsWith(variable.value, "0x")
  {
    if variable.Some? && StartsWith(variable.value, "0x") {
      assert variable.value[..2] == "0x";
      assert NotConfigured[0] == 'N';
    }
  }

  /** The four addresses the screen lists. */
  datatype Addresses = Addresses(registry: string, stock: string, govToken: string, dao: string)

  /** The environment variables holding them, absent when unset. */
  datatype Environment = Environment(registry: Option<string>, stock: Option<string>,
                                     govToken: Option<string>, dao: Option<string>)

  const Loading := "Chargement..."

  /** The state of the contract administration screen. */
  class ContractScreen {
    var addresses: Addresses
    var isAdmin: bool
    var stockAddress: string
    var daoRegistryAddress: string
    var daoStockAddress: string

    constructor ()
      ensures addresses == Addresses(Loading, Loading, Loading, Loading)
      ensures !isAdmin && stockAddress == "" && daoRegistryAddress == "" && daoStockAddress == ""
    {
      addresses := Addresses(Loading, Loading, Loading, Loading);
      isAdmin := false;
      stockAddress := "";
      daoRegistryAddress := "";
      daoStockAddress := "";
    }

    /** `loadContractAddresses` */
    method LoadContractAddresses(env: Environment)
      modifies this
      ensures addresses == Addresses(EnvAddress(env.registry), EnvAddress(env.stock),
                                     EnvAddress(env.govToken), EnvAddress(env.dao))
      ensures isAdmin == old(isAdmin) && stockAddress == old(stockAddress)
      ensures daoRegistryAddress == old(daoRegistryAddress) && daoStockAddress == old(daoStockAddress)
    {
      addresses := Addresses(EnvAddress(env.registry), EnvAddress(env.stock),
                             EnvAddress(env.govToken), EnvAddress(env.dao));
    }

    /** `checkAdminRole`: admin on the registry, false without a wallet or a contract. */
    method CheckAdminRole(hasSigner: bool, account: string, registry: Option<RoleReads>)
      modifies this
      ensures isAdmin <==> hasSigner && account != "" && registry.Some? && HasRole(registry.value, AdminRole, account)
      ensures addresses == old(addresses) && stockAddress == old(stockAddress)
      ensures daoRegistryAddress == old(daoRegistryAddress) && daoStockAddress == old(daoStockAddress)
    {
      if !hasSigner || account == "" || registry.None? {
        isAdmin := false;
      } else {
        isAdmin := HasRole(registry.value, AdminRole, account);
      }
    }

    /**
     * `handleSetStockContract`: `send` sets the registry's stock contract. Returns the
     * toast and the address sent, if any; only this form's field is cleared on success.
     */
    method HandleSetStockContract(hasSigner: bool, send: string -> Option<ChainError>)
      returns (toast: Result<string, string>, sent: Option<string>)
      modifies this
      ensures AddressError(hasSigner, old(stockAddress)).Some? ==>
        toast == Failure(AddressError(hasSigner, old(stockAddress)).value) && sent.None?
      ensures AddressError(hasSigner, old(stockAddress)).None? ==> sent == Some(old(stockAddress))
      ensures toast.Success? <==> sent.Some? && send(sent.value).None?
      ensures toast.Success? ==> toast.value == "Contrat de stock configuré avec succès" && stockAddress == ""
      ensures toast.Failure? && sent.Some? ==>
        toast.error == "Échec de la configuration du contrat: " + send(sent.value).value.message
      ensures toast.Failure? ==> stockAddress == old(stockAddress)
      ensures addresses == old(addresses) && isAdmin == old(isAdmin)
      ensures daoRegistryAddress == old(daoRegistryAddress) && daoStockAddress == old(daoStockAddress)
    {
      sent := None;
      var invalid := AddressError(hasSigner, stockAddress);
      if invalid.Some? {
        toast := Failure(invalid.value);
        return;
      }
      sent := Some(stockAddress);
      match send(stockAddress) {
        case None =>
          stockAddress := "";
          toast := Success("Contrat de stock configuré avec succès");
        case Some(e) =>
          toast := Failure("Échec de la configuration du contrat: " + e.message);
      }
    }

    /** `handleSetDAORegistry`: sets the governor's registry; clears only its own field. */
    method HandleSetDaoRegistry(hasSigner: bool, send: string -> Option<ChainError>)
      returns (toast: Result<string, string>, sent: Option<string>)
      modifies this
      ensures AddressError(hasSigner, old(daoRegistryAddress)).Some? ==>
        toast == Failure(AddressError(hasSigner, old(daoRegistryAddress)).value) && sent.None?
      ensures AddressError(hasSigner, old(daoRegistryAddress)).None? ==> sent == Some(old(daoRegistryAddress))
      ensures toast.Success? <==> sent.Some? && send(sent.value).None?
      ensures toast.Success? ==> toast.value == "Contrat Registry configuré dans la DAO avec succès" && daoRegistryAddress == ""
      ensures toast.Failure? && sent.Some? ==>
        toast.error == "Échec de la configuration du Registry dans la DAO: " + send(sent.value).value.message
      ensures toast.Failure? ==> daoRegistryAddress == old(daoRegistryAddress)
      ensures daoStockAddress == old(daoStockAddress)
      ensures addresses == old(addresses) && isAdmin == old(isAdmin) && stockAddress == old(stockAddress)
    {
      sent := None;
      var invalid := AddressError(hasSigner, daoRegistryAddress);
      if invalid.Some? {
        toast := Failure(invalid.value);
        return;
      }
      sent := Some(daoRegistryAddress);
      match send(daoRegistryAddress) {
        case None =>
          daoRegistryAddress := "";
          toast := Success("Contrat Registry configuré dans la DAO avec succès");
        case Some(e) =>
          toast := Failure("Échec de la configuration du Registry dans la DAO: " + e.message);
      }
    }

    /** `handleSetDAOStock`: sets the governor's stock contract; clears only its own field. */
    method HandleSetDaoStock(hasSigner: bool, send: string -> Option<ChainError>)
      returns (toast: Result<string, string>, sent: Option<string>)
      modifies this
      ensures AddressError(hasSigner, old(daoStockAddress)).Some? ==>
        toast == Failure(AddressError(hasSigner, old(daoStockAddress)).value) && sent.None?
      ensures AddressError(hasSigner, old(daoStockAddress)).None? ==> sent == Some(old(daoStockAddress))
      ensures toast.Success? <==> sent.Some? && send(sent.value).None?
      ensures toast.Success? ==> toast.value == "Contrat Stock configuré dans la DAO avec succès" && daoStockAddress == ""
      ensures toast.Failure? && sent.Some? ==>
        toast.error == "Échec de la configuration du Stock dans la DAO: " + send(sent.value).value.message
      ensures toast.Failure? ==> daoStockAddress == old(daoStockAddress)
      ensures daoRegistryAddress == old(daoRegistryAddress)
      ensures addresses == old(addresses) && isAdmin == old(isAdmin) && stockAddress == old(stockAddress)
    {
      sent := None;
      var invalid := AddressError(hasSigner, daoStockAddress);
      if invalid.Some? {
        toast := Failure(invalid.value);
        return;
      }
      sent := Some(daoStockAddress);
      match send(daoStockAddress) {
        case None =>
          daoStockAddress := "";
          toast := Success("Contrat Stock configuré dans la DAO avec succès");
        case Some(e) =>
          toast := Failure("Échec de la configuration du Stock dans la DAO: " + e.message);
      }
    }
  }
}
