/**
 * The chain configuration resolver: three lookups from the configured network
 * selector (the text of the chain-id environment variable) to the wagmi chain,
 * the native asset symbol and the numeric chain id. Each accepts the same eight
 * selectors and throws "Unsupported chain ID: <selector>" on any other.
 */
module ProviderUtils {
  import opened Wrappers

  /** The wagmi chain definitions `getNetwork` can return. */
  datatype Chain = Bsc | BscTestnet | Polygon | PolygonAmoy | Avalanche | AvalancheFuji | Sonic | SonicBlazeTestnet

  /** The selectors every lookup accepts. */
  const Selectors: set<string> :=
    {"bsc", "bscTestnet", "polygon", "polygonAmoy", "avax", "avaxFuji", "sonic", "sonicTestnet"}

  /** The message each lookup throws for an unknown selector. */
  function UnsupportedChain(selector: string): string {
    "Unsupported chain ID: " + selector
  }

  /** `getNetwork`: the `switch` over the selector. */
  function GetNetwork(selector: string): (r: Result<Chain, string>)
    ensures r.Success? <==> selector in Selectors
    ensures r.Failure? ==> r.error == UnsupportedChain(selector)
  {
    if selector == "bsc" then Success(Bsc)
    else if selector == "bscTestnet" then Success(BscTestnet)
    else if selector == "polygon" then Success(Polygon)
    else if selector == "polygonAmoy" then Success(PolygonAmoy)
    else if selector == "avax" then Success(Avalanche)
    else if selector == "avaxFuji" then Success(AvalancheFuji)
    else if selector == "sonic" then Success(Sonic)
    else if selector == "sonicTestnet" then Success(SonicBlazeTestnet)
    else Failure(UnsupportedChain(selector))
  }

  /** The `chainIdMap` record of `getWalletSymbol`. */
  const SymbolTable: map<string, string> := map[
    "bsc" := "BNB", "bscTestnet" := "BNB",
    "polygon" := "POL", "polygonAmoy" := "POL",
    "avax" := "AVAX", "avaxFuji" := "AVAX",
    "sonic" := "S", "sonicTestnet" := "S"]

  /** The `chainIdMap` record of `getWalletChainId`. */
  const ChainIdTable: map<string, int> := map[
    "bsc" := 56, "bscTestnet" := 97,
    "polygon" := 137, "polygonAmoy" := 80002,
    "avax" := 43114, "avaxFuji" := 43113,
    "sonic" := 146, "sonicTestnet" := 57054]

  /** `getWalletSymbol`: the symbol of the native asset, never empty. */
  function GetWalletSymbol(selector: string): (r: Result<string, string>)
    ensures r.Success? <==> selector in Selectors
    ensures r.Success? ==> r.value != ""
    ensures r.Failure? ==> r.error == UnsupportedChain(selector)
  {
    if selector in SymbolTable then Success(SymbolTable[selector])
    else Failure(UnsupportedChain(selector))
  }

  /** `getWalletChainId`: the numeric EVM chain id, always positive. */
  function GetWalletChainId(selector: string): (r: Result<int, string>)
    ensures r.Success? <==> selector in Selectors
    ensures r.Success? ==> r.value > 0
    ensures r.Failure? ==> r.error == UnsupportedChain(selector)
  {
    if selector in ChainIdTable then Success(ChainIdTable[selector])
    else Failure(UnsupportedChain(selector))
  }

  /** The chain-id table, entry by entry. */
  lemma ChainIdsAsListed()
    ensures GetWalletChainId("bsc") == Success(56)
    ensures GetWalletChainId("bscTestnet") == Success(97)
    ensures GetWalletChainId("polygon") == Success(137)
    ensures GetWalletChainId("polygonAmoy") == Success(80002)
    ensures GetWalletChainId("avax") == Success(43114)
    ensures GetWalletChainId("avaxFuji") == Success(43113)
    ensures GetWalletChainId("sonic") == Success(146)
    ensures GetWalletChainId("sonicTestnet") == Success(57054)
  {}

  /** The symbol table, entry by entry. */
  lemma SymbolsAsListed()
    ensures GetWalletSymbol("bsc") == GetWalletSymbol("bscTestnet") == Success("BNB")
    ensures GetWalletSymbol("polygon") == GetWalletSymbol("polygonAmoy") == Success("POL")
    ensures GetWalletSymbol("avax") == GetWalletSymbol("avaxFuji") == Success("AVAX")
    ensures GetWalletSymbol("sonic") == GetWalletSymbol("sonicTestnet") == Success("S")
  {}

  /** The three lookups succeed and fail on exactly the same selectors, with the same message. */
  lemma LookupsAgreeOnDomain(selector: string)
    ensures GetNetwork(selector).Success? == GetWalletSymbol(selector).Success? == GetWalletChainId(selector).Success?
    ensures GetNetwork(selector).Failure? ==>
      GetNetwork(selector).error == GetWalletSymbol(selector).error == GetWalletChainId(selector).error
  {}

  /** Distinct selectors resolve to distinct chain ids (in particular a mainnet and its testnet). */
  lemma ChainIdsDistinct(s1: string, s2: string)
    requires s1 in Selectors && s2 in Selectors && s1 != s2
    ensures GetWalletChainId(s1).value != GetWalletChainId(s2).value
  {}

  /** Distinct selectors resolve to distinct wagmi chains. */
  lemma NetworksDistinct(s1: string, s2: string)
    requires s1 in Selectors && s2 in Selectors && s1 != s2
    ensures GetNetwork(s1).value != GetNetwork(s2).value
  {}

  /** Two selectors share a symbol exactly when they are the mainnet and testnet of one family. */
  lemma SymbolSharedWithinPair(s1: string, s2: string)
    requires s1 in Selectors && s2 in Selectors
    ensures GetWalletSymbol(s1) == GetWalletSymbol(s2) <==> Family(s1) == Family(s2)
  {}

  /** The chain family a supported selector belongs to: its mainnet selector. */
  function Family(selector: string): string
    requires selector in Selectors
  {
    if selector == "bscTestnet" then "bsc"
    else if selector == "polygonAmoy" then "polygon"
    else if selector == "avaxFuji" then "avax"
    else if selector == "sonicTestnet" then "sonic"
    else selector
  }
}
