/**
 * The wallet-side helpers: building a contract handle, the network check and switch, and
 * the short display form of an address.
 */
module Blockchain {
  import opened Wrappers
  import opened Strings
  import opened Chain

  /** A contract handle, bound to its address. */
  datatype ContractHandle = ContractHandle(address: string)

  /** `getContract`: refuses to build a handle without an address, an ABI or a signer. */
  function GetContract(address: Option<string>, hasAbi: bool, hasSigner: bool): (r: Result<ContractHandle, ChainError>)
    ensures r.Failure? <==> address.None? || address.value == "" || !hasAbi || !hasSigner
    ensures r.Failure? ==> r.error == MissingParameters
    ensures r.Success? ==> r.value.address == address.value
  {
    if address.None? || address.value == "" || !hasAbi || !hasSigner then Failure(MissingParameters)
    else Success(ContractHandle(address.value))
  }

  /** `formatAddress`: '' for no address, else the first six and last four characters. */
  function FormatAddress(address: string): (shown: string)
    ensures address == "" <==> shown == ""
    ensures |address| >= 10 ==> |shown| == 13 && shown[..6] == address[..6] && shown[9..] == address[|address| - 4..]
  {
    if address == "" then "" else ShortAddress(address)
  }

  /** The chain the dashboard expects, from its setting or Hedera testnet's 296. */
  function ExpectedChainId(configured: Option<string>): (id: string)
    ensures configured.Some? && configured.value != "" ==> id == configured.value
    ensures configured.None? || configured.value == "" ==> id == "296"
  {
    if configured.Some? && configured.value != "" then configured.value else "296"
  }

  /** `checkNetwork`: the wallet's chain id, written in decimal, is the expected one. */
  predicate CheckNetwork(chainId: nat, configured: Option<string>) {
    ToBase(chainId, 10) == ExpectedChainId(configured)
  }

  /** Without a setting, exactly chain 296 passes the check. */
  lemma DefaultNetwork(chainId: nat)
    ensures CheckNetwork(chainId, None) <==> chainId == 296
  {
    assert ToBase(2, 10) == "2";
    assert ToBase(29, 10) == ToBase(2, 10) + "9";
    assert ToBase(296, 10) == ToBase(29, 10) + "6";
    if CheckNetwork(chainId, None) {
      DecimalInjective(chainId, 296);
    }
  }

  /** At most one chain passes the check, whatever the setting. */
  lemma CheckNetworkUnique(a: nat, b: nat, configured: Option<string>)
    requires CheckNetwork(a, configured) && CheckNetwork(b, configured)
    ensures a == b
  {
    DecimalInjective(a, b);
  }

  /** The digits of `n.toString(16)` for an integer `n`, with its sign. */
  function SignedHex(n: int): string {
    if n < 0 then "-" + ToBase(-n, 16) else ToBase(n, 16)
  }

  /** `0x${parseInt(networkId).toString(16)}`: `NaN` when the setting holds no number. */
  function ChainIdHex(networkId: string): (hex: string)
    ensures StartsWith(hex, "0x")
    ensures ParseInt(networkId).None? ==> hex == "0xNaN"
  {
    match ParseInt(networkId)
    case None => "0xNaN"
    case Some(n) => "0x" + SignedHex(n)
  }

  /**
   * For a decimal setting, the hexadecimal id sent to the wallet parses back to the id
   * `checkNetwork` expects.
   */
  lemma ChainIdHexRoundTrip(n: nat)
    ensures var hex := ChainIdHex(ToBase(n, 10));
      && hex == "0x" + ToBase(n, 16)
      && (forall i :: 2 <= i < |hex| ==> IsDigitIn(hex[i], 16))
      && ParseBase(hex[2..], 16) == n
  {
    ParseIntOfDecimal(n);
    HexOfParsed(ToBase(n, 10), n);
    DropPrefix("0x", ToBase(n, 16));
    ParseToBase(n, 16);
  }

  /** A setting already written in hexadecimal, `0x…`, is sent as the same id. */
  lemma ChainIdHexOfHexSetting(n: nat)
    ensures ChainIdHex("0x" + ToBase(n, 16)) == "0x" + ToBase(n, 16)
  {
    var s := "0x" + ToBase(n, 16);
    ParseIntHex(n, []);
    assert s + [] == s;
    HexOfParsed(s, n);
  }

  /** A setting that parses to a non-negative id is sent as that id's hexadecimal digits. */
  lemma HexOfParsed(networkId: string, n: nat)
    requires ParseInt(networkId) == Some(n)
    ensures ChainIdHex(networkId) == "0x" + ToBase(n, 16)
  {
  }

  /** The error a wallet request fails with. */
  datatype WalletError = WalletError(code: int, message: string)

  /** The wallet requests `switchNetwork` sends. */
  datatype WalletRequest =
    | SwitchChain(chainId: string)
    | AddChain(chainId: string, chainName: string, rpcUrl: string)

  /** The three network settings; absent or empty when not configured. */
  datatype NetworkSettings = NetworkSettings(chainId: Option<string>, name: Option<string>, rpc: Option<string>)

  /** The wallet's code for a chain it does not know. */
  const UnknownChain := 4902

  /**
   * `switchNetwork`. `switchError` and `addError` are the wallet's answers to the two
   * requests. Returns the requests sent and the error thrown to the caller, if any.
   */
  method SwitchNetwork(settings: NetworkSettings, switchError: Option<WalletError>, addError: Option<WalletError>)
    returns (requests: seq<WalletRequest>, thrown: Option<WalletError>)
    ensures |requests| >= 1 && requests[0] == SwitchChain(ChainIdHex(ExpectedChainId(settings.chainId)))
    ensures |requests| == 2 <==> switchError.Some? && switchError.value.code == UnknownChain
    ensures |requests| <= 2
    ensures |requests| == 2 ==> requests[1] == AddChain(ChainIdHex(ExpectedChainId(settings.chainId)),
      if settings.name.Some? && settings.name.value != "" then settings.name.value else "Hedera Testnet",
      if settings.rpc.Some? && settings.rpc.value != "" then settings.rpc.value else "https://testnet.hashio.io/api")
    ensures thrown.Some? <==> |requests| == 2 && addError.Some?
    ensures thrown.Some? ==> thrown == addError
  {
    var hex := ChainIdHex(ExpectedChainId(settings.chainId));
    requests := [SwitchChain(hex)];
    thrown := None;
    if switchError.Some? && switchError.value.code == UnknownChain {
      var name := if settings.name.Some? && settings.name.value != "" then settings.name.value else "Hedera Testnet";
      var rpc := if settings.rpc.Some? && settings.rpc.value != "" then settings.rpc.value else "https://testnet.hashio.io/api";
      requests := requests + [AddChain(hex, name, rpc)];
      thrown := addError;
    }
  }
}
