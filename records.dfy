/** The values the deployer works with: the static chain descriptors, the
    record a successful deploy produces, the cross-chain sync payload and
    the deployment report. */
module Records {
  import opened PyStr

  /** Static descriptor of one target chain (`ChainConfig`). */
  datatype ChainConfig = ChainConfig(
    name: string,
    rpcUrl: string,
    chainId: int,
    nativeToken: string,
    relayerType: string)

  /** What one successful deploy reports (`DeploymentResult`). */
  datatype DeploymentResult = DeploymentResult(
    chain: string,
    contractAddress: string,
    programId: string,
    txHash: string,
    gasUsed: string,
    relayerFee: string,
    timestamp: int)

  /** The two chains the deployer targets. */
  datatype Chain = Solana | Skale

  /** Recognises a ledger key; the inverse of `Key`. */
  function ChainOf(key: string): Option<Chain> {
    if key == "solana" then Some(Solana)
    else if key == "skale" then Some(Skale)
    else None
  }

  /** The key under which a chain is configured and recorded. */
  function Key(c: Chain): (k: string)
    ensures ChainOf(k) == Some(c)
  {
    match c
    case Solana => "solana"
    case Skale => "skale"
  }

  /** The marker a chain's deploy script prints before the identifier. */
  function Marker(c: Chain): (m: string)
    ensures m != ""
  {
    match c
    case Solana => "Program ID:"
    case Skale => "Contract Address:"
  }

  /** Fixed relayer-fee estimate, in the chain's native token. */
  function RelayerFee(c: Chain): string {
    match c
    case Solana => "0.001"
    case Skale => "0.01"
  }

  /** Stand-in transaction hash used until the relayer response is parsed. */
  const PlaceholderTxHash: string := "relayer_tx_hash"

  /** Gas paid by the deployer: nothing, the relayer covers it. */
  const RelayedGas: string := "0"

  /** The chain table built when the deployer is constructed. */
  function DefaultChains(solanaRpc: string, skaleRpc: string, skaleChainId: int): (m: map<string, ChainConfig>)
    ensures m.Keys == {Key(Solana), Key(Skale)}
    ensures m[Key(Solana)].chainId == 101 && m[Key(Skale)].chainId == skaleChainId
    ensures m[Key(Solana)].rpcUrl == solanaRpc && m[Key(Skale)].rpcUrl == skaleRpc
  {
    map[
      Key(Solana) := ChainConfig("Solana", solanaRpc, 101, "SOL", "octane"),
      Key(Skale) := ChainConfig("SKALE", skaleRpc, skaleChainId, "sFUEL", "biconomy")
    ]
  }

  /** A ledger entry as the deployer writes it: a known chain, one
      non-empty identifier used as both address and program id, the
      placeholder hash, no gas and the chain's fixed relayer fee. */
  predicate WellFormed(d: DeploymentResult) {
    match ChainOf(d.chain)
    case None => false
    case Some(c) =>
      && d.contractAddress != ""
      && d.programId == d.contractAddress
      && d.txHash != ""
      && d.gasUsed == RelayedGas
      && d.relayerFee == RelayerFee(c)
  }

  /** The record built for a successful deploy of chain `c` that reported
      identifier `id` at clock reading `now`. */
  function NewDeployment(c: Chain, id: string, now: int): (d: DeploymentResult)
    ensures ChainOf(d.chain) == Some(c)
    ensures d.contractAddress == id && d.programId == id && d.timestamp == now
    ensures id != "" ==> WellFormed(d)
  {
    DeploymentResult(Key(c), id, id, PlaceholderTxHash, RelayedGas, RelayerFee(c), now)
  }

  /** No chain appears twice in a ledger. */
  predicate ChainsDistinct(ledger: seq<DeploymentResult>) {
    forall i, j :: 0 <= i < j < |ledger| ==> ledger[i].chain != ledger[j].chain
  }

  /** The application state the sync carries to the target chain. */
  datatype SacredState = SacredState(matrixLevel: int, earningsPool: int, allowlist: seq<string>)

  /** The cross-chain message built by the sync step. */
  datatype SyncRecord = SyncRecord(
    sourceChain: string,
    targetChain: string,
    sourceAddress: string,
    targetAddress: string,
    sacredState: SacredState,
    timestamp: int)

  /** The sync payload for a Solana and a SKALE deployment, stamped `now`:
      it goes from Solana to SKALE, carries the baseline state (level 1,
      empty pool) and allows exactly the two deployed addresses. */
  function SyncPayload(solana: DeploymentResult, skale: DeploymentResult, now: int): (r: SyncRecord)
    ensures ChainOf(r.sourceChain) == Some(Solana) && ChainOf(r.targetChain) == Some(Skale)
    ensures |r.sacredState.allowlist| == 2
    ensures forall a :: a in r.sacredState.allowlist <==> a == solana.contractAddress || a == skale.contractAddress
  {
    SyncRecord(
      Key(Solana), Key(Skale),
      solana.contractAddress, skale.contractAddress,
      SacredState(1, 0, [solana.contractAddress, skale.contractAddress]),
      now)
  }

  /** Re-running the sync with the same two addresses yields the same shared
      state, the first-time baseline, whatever the clock reads and whatever
      else the records hold. */
  lemma SyncIdempotent(a: DeploymentResult, b: DeploymentResult, a': DeploymentResult, b': DeploymentResult, t: int, t': int)
    requires a.contractAddress == a'.contractAddress && b.contractAddress == b'.contractAddress
    ensures SyncPayload(a, b, t).sacredState == SyncPayload(a', b', t').sacredState
    ensures SyncPayload(a, b, t).sacredState.matrixLevel == 1 && SyncPayload(a, b, t).sacredState.earningsPool == 0
    ensures t == t' ==> SyncPayload(a, b, t) == SyncPayload(a', b', t')
  {
  }

  /** Cross-chain status line of the report. */
  datatype CrossChainStatus = Synchronized | SingleChainOnly

  /** The part of the deployment report that is derived from the ledger. */
  datatype Report = Report(totalDeployments: nat, chainsDeployed: set<string>, status: CrossChainStatus)

  /** The report of a ledger: its size, the chains it names, and
      "Synchronized" exactly when it holds at least two deployments. */
  function ReportOf(ledger: seq<DeploymentResult>): (r: Report)
    ensures r.totalDeployments == |ledger|
    ensures forall c :: c in r.chainsDeployed <==> exists i :: 0 <= i < |ledger| && ledger[i].chain == c
    ensures r.status == Synchronized <==> |ledger| >= 2
  {
    Report(
      |ledger|,
      set i | 0 <= i < |ledger| :: ledger[i].chain,
      if |ledger| >= 2 then Synchronized else SingleChainOnly)
  }
}
