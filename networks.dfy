/**
 * The backend's table of supported chains and its three lookups. The viem chain
 * object of an entry is represented by the name of its viem export; each RPC URL is
 * read from its environment variable, falling back to a fixed URL.
 */
module Networks {
  import opened Wrappers
  import opened Text
  import opened Seqs

  /** One row of the table as written in the source. */
  datatype NetworkEntry = NetworkEntry(key: string, chainId: int, name: string, rpcEnv: string, rpcDefault: string)

  /** A configuration as the lookups return it. */
  datatype NetworkConfig = NetworkConfig(chain: string, rpcUrl: string, chainId: int, name: string)

  /** `NETWORK_CONFIG`, in declaration order; the key of each row is also its viem export. */
  const NetworkTable: seq<NetworkEntry> := [
    NetworkEntry("hardhat", 31337, "Hardhat Local", "BLOCKCHAIN_RPC_URL", "http://localhost:8545"),
    NetworkEntry("mainnet", 1, "Ethereum Mainnet", "MAINNET_RPC_URL", "https://mainnet.rpc.buidlguidl.com"),
    NetworkEntry("sepolia", 11155111, "Ethereum Sepolia", "SEPOLIA_RPC_URL",
                 "https://eth-sepolia.g.alchemy.com/v2/oKxs-03sij-U_N0iOlrSsZFr29-IqbuF"),
    NetworkEntry("arbitrum", 42161, "Arbitrum One", "ARBITRUM_RPC_URL",
                 "https://arb-mainnet.g.alchemy.com/v2/oKxs-03sij-U_N0iOlrSsZFr29-IqbuF"),
    NetworkEntry("arbitrumSepolia", 421614, "Arbitrum Sepolia", "ARBITRUM_SEPOLIA_RPC_URL",
                 "https://arb-sepolia.g.alchemy.com/v2/oKxs-03sij-U_N0iOlrSsZFr29-IqbuF"),
    NetworkEntry("optimism", 10, "Optimism", "OPTIMISM_RPC_URL",
                 "https://opt-mainnet.g.alchemy.com/v2/oKxs-03sij-U_N0iOlrSsZFr29-IqbuF"),
    NetworkEntry("optimismSepolia", 11155420, "Optimism Sepolia", "OPTIMISM_SEPOLIA_RPC_URL",
                 "https://opt-sepolia.g.alchemy.com/v2/oKxs-03sij-U_N0iOlrSsZFr29-IqbuF"),
    NetworkEntry("polygon", 137, "Polygon", "POLYGON_RPC_URL",
                 "https://polygon-mainnet.g.alchemy.com/v2/oKxs-03sij-U_N0iOlrSsZFr29-IqbuF"),
    NetworkEntry("polygonAmoy", 80002, "Polygon Amoy", "POLYGON_AMOY_RPC_URL",
                 "https://polygon-amoy.g.alchemy.com/v2/oKxs-03sij-U_N0iOlrSsZFr29-IqbuF")
  ]

  /** The configuration of a row under the environment the module was loaded with. */
  function ConfigOf(env: map<string, string>, e: NetworkEntry): NetworkConfig {
    NetworkConfig(e.key, EnvOr(env, e.rpcEnv, e.rpcDefault), e.chainId, e.name)
  }

  function KeyIs(key: string): NetworkEntry -> bool {
    (e: NetworkEntry) => e.key == key
  }

  function ChainIs(chainId: int): NetworkEntry -> bool {
    (e: NetworkEntry) => e.chainId == chainId
  }

  /** No two rows share a key or a chain ID. */
  lemma TableIsUnambiguous()
    ensures forall i, j :: 0 <= i < j < |NetworkTable| ==> NetworkTable[i].key != NetworkTable[j].key
    ensures forall i, j :: 0 <= i < j < |NetworkTable| ==> NetworkTable[i].chainId != NetworkTable[j].chainId
  {
  }

  /** A key names at most one row, so `find` by key returns that row. */
  lemma FindByKey(key: string)
    ensures forall i :: 0 <= i < |NetworkTable| && NetworkTable[i].key == key ==>
      FindWhere(NetworkTable, KeyIs(key)) == Some(NetworkTable[i])
  {
    TableIsUnambiguous();
    forall i | 0 <= i < |NetworkTable| && NetworkTable[i].key == key
      ensures FindWhere(NetworkTable, KeyIs(key)) == Some(NetworkTable[i])
    {
      FindWhereUnique(NetworkTable, KeyIs(key), i);
    }
  }

  /** A chain ID names at most one row, so `find` by chain ID returns that row. */
  lemma FindByChainId(chainId: int)
    ensures forall i :: 0 <= i < |NetworkTable| && NetworkTable[i].chainId == chainId ==>
      FindWhere(NetworkTable, ChainIs(chainId)) == Some(NetworkTable[i])
  {
    TableIsUnambiguous();
    forall i | 0 <= i < |NetworkTable| && NetworkTable[i].chainId == chainId
      ensures FindWhere(NetworkTable, ChainIs(chainId)) == Some(NetworkTable[i])
    {
      FindWhereUnique(NetworkTable, ChainIs(chainId), i);
    }
  }

  /**
   * `getCurrentNetworkConfig`: the row named by `BLOCKCHAIN_NETWORK` (default
   * "hardhat"); an unknown name falls back to the hardhat row.
   */
  function GetCurrentNetworkConfig(env: map<string, string>): (c: NetworkConfig)
    ensures var networkName := EnvOr(env, "BLOCKCHAIN_NETWORK", "hardhat");
      && (forall i :: 0 <= i < |NetworkTable| && NetworkTable[i].key == networkName ==> c == ConfigOf(env, NetworkTable[i]))
      && ((forall i :: 0 <= i < |NetworkTable| ==> NetworkTable[i].key != networkName) ==>
            c == ConfigOf(env, NetworkTable[0]) && c.chainId == 31337)
  {
    var networkName := EnvOr(env, "BLOCKCHAIN_NETWORK", "hardhat");
    FindByKey(networkName);
    match FindWhere(NetworkTable, KeyIs(networkName))
    case None => ConfigOf(env, NetworkTable[0])
    case Some(e) => ConfigOf(env, e)
  }

  /** Without `BLOCKCHAIN_NETWORK` (or with it empty) the local hardhat chain is used. */
  lemma DefaultNetworkIsHardhat(env: map<string, string>)
    requires "BLOCKCHAIN_NETWORK" !in env || env["BLOCKCHAIN_NETWORK"] == ""
    ensures GetCurrentNetworkConfig(env).chainId == 31337
    ensures GetCurrentNetworkConfig(env).name == "Hardhat Local"
  {
    assert NetworkTable[0].key == "hardhat";
  }

  /** `getAllNetworks`: the keys of the table, in order. */
  function GetAllNetworks(): (keys: seq<string>)
    ensures |keys| == |NetworkTable| == 9
    ensures forall i :: 0 <= i < |keys| ==> keys[i] == NetworkTable[i].key
  {
    seq(|NetworkTable|, i requires 0 <= i < |NetworkTable| => NetworkTable[i].key)
  }

  /** `getNetworkByChainId`: the row with the chain ID, or `None` (JavaScript `null`). */
  function GetNetworkByChainId(env: map<string, string>, chainId: int): (r: Option<NetworkConfig>)
    ensures r.None? <==> forall i :: 0 <= i < |NetworkTable| ==> NetworkTable[i].chainId != chainId
    ensures forall i :: 0 <= i < |NetworkTable| && NetworkTable[i].chainId == chainId ==>
      r == Some(ConfigOf(env, NetworkTable[i]))
  {
    FindByChainId(chainId);
    match FindWhere(NetworkTable, ChainIs(chainId))
    case None => None
    case Some(e) => Some(ConfigOf(env, e))
  }

  /** Every network reachable by name is reachable by its chain ID, with the same configuration. */
  lemma NameAndChainIdAgree(env: map<string, string>, i: nat)
    requires i < |NetworkTable|
    requires EnvOr(env, "BLOCKCHAIN_NETWORK", "hardhat") == GetAllNetworks()[i]
    ensures GetNetworkByChainId(env, GetCurrentNetworkConfig(env).chainId) == Some(GetCurrentNetworkConfig(env))
  {
  }
}
