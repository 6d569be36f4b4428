/** `MultiChainDeployer`: checks the environment, deploys to Solana and to
    SKALE, records each success in its ledger, syncs the two deployments
    when both succeed and reports on the ledger.  External processes, the
    probes of installed tools, the configured private key and the clock are
    inputs. */
module Deployer {
  import opened PyStr
  import opened Records
  import opened MarkerScan

  /** How an external command ended: it ran and exited with a return code
      and a captured standard output, or it could not be started (the
      executable is missing), which raises. */
  datatype ProcessRun = Exited(returnCode: int, stdout: string) | LaunchFailed

  /** Which version probes could start their executable.  The Hardhat probe
      starts `npx`. */
  datatype ToolProbe = ToolProbe(node: bool, python3: bool, anchor: bool, hardhat: bool)

  /** The private key value that means "not configured". */
  const UnconfiguredKey: string := "your_private_key_here"

  /** The run may go ahead: Node.js and Python 3 are present and a private
      key is configured.  Anchor and Hardhat are only warned about. */
  predicate EnvironmentReady(probe: ToolProbe, privateKey: string) {
    probe.node && probe.python3 && privateKey != UnconfiguredKey
  }

  /** A missing Anchor CLI or Hardhat never changes the verdict. */
  lemma OptionalToolsOnlyWarn(probe: ToolProbe, privateKey: string, anchor: bool, hardhat: bool)
    ensures EnvironmentReady(probe.(anchor := anchor, hardhat := hardhat), privateKey)
        == EnvironmentReady(probe, privateKey)
  {
  }

  /** How one deploy attempt ends; each case is one way out of the deploy
      step. */
  datatype Attempt =
    | Deployed(id: string)     // identifier found and non-empty
    | BuildFailed              // `anchor build` exited nonzero (CalledProcessError)
    | ExitedNonzero(code: int) // the deploy script failed
    | IdNotFound               // exit 0 but no marker line, or an empty value
    | Raised                   // a command could not be started

  /** Running a deploy script and reading its identifier. */
  function DeployStep(run: ProcessRun, marker: string): (a: Attempt)
    requires marker != ""
    ensures a.Deployed? ==> run.Exited? && run.returnCode == 0 && a.id != ""
    ensures a.Deployed? ==> '\n' !in a.id && !Contains(a.id, marker)
    ensures a.Deployed? || a.ExitedNonzero? || a.IdNotFound? || a.Raised?
    ensures run.LaunchFailed? ==> a == Raised
    ensures run.Exited? && run.returnCode != 0 ==> a == ExitedNonzero(run.returnCode)
    ensures run.Exited? && run.returnCode == 0 ==> (a.IdNotFound? <==> Identifier(run.stdout, marker).None?)
  {
    match run
    case LaunchFailed => Raised
    case Exited(code, out) =>
      if code != 0 then ExitedNonzero(code)
      else match Identifier(out, marker)
        case Some(id) => IdentifierShape(out, marker); Deployed(id)
        case None => IdNotFound
  }

  /** The Solana attempt: build the program, then run the deploy script. */
  function SolanaAttempt(build: ProcessRun, run: ProcessRun): Attempt {
    match build
    case LaunchFailed => Raised
    case Exited(code, _) => if code != 0 then BuildFailed else DeployStep(run, Marker(Solana))
  }

  /** The SKALE attempt: run the deploy script. */
  function SkaleAttempt(run: ProcessRun): Attempt {
    DeployStep(run, Marker(Skale))
  }

  /** The record an attempt on chain `c` leaves, if any. */
  function Recorded(c: Chain, a: Attempt, now: int): (r: Option<DeploymentResult>)
    requires a.Deployed? ==> a.id != ""
    ensures r.Some? <==> a.Deployed?
    ensures r.Some? ==> WellFormed(r.value) && ChainOf(r.value.chain) == Some(c)
    ensures r.Some? ==> r.value.contractAddress == a.id && r.value.timestamp == now
  {
    if a.Deployed? then Some(NewDeployment(c, a.id, now)) else None
  }

  function AsSeq<T>(o: Option<T>): seq<T> {
    match o
    case Some(v) => [v]
    case None => []
  }

  /** The exit `run_full_deployment` takes. */
  datatype Branch = EnvironmentFailed | BothDeployed | OnlySolana | OnlySkale | BothFailed

  /** Everything the run reads from outside: tool probes, the private key,
      the three external commands and the three clock readings. */
  datatype RunInputs = RunInputs(
    probe: ToolProbe,
    privateKey: string,
    solanaBuild: ProcessRun,
    solanaDeploy: ProcessRun,
    skaleDeploy: ProcessRun,
    solanaClock: int,
    skaleClock: int,
    syncClock: int)

  /** What the run produces: the branch taken, the sync payload, the report
      and the ledger afterwards. */
  datatype RunOutcome = RunOutcome(
    branch: Branch,
    sync: Option<SyncRecord>,
    report: Option<Report>,
    ledger: seq<DeploymentResult>)

  function SolanaRecord(inp: RunInputs): Option<DeploymentResult> {
    Recorded(Solana, SolanaAttempt(inp.solanaBuild, inp.solanaDeploy), inp.solanaClock)
  }

  function SkaleRecord(inp: RunInputs): Option<DeploymentResult> {
    Recorded(Skale, SkaleAttempt(inp.skaleDeploy), inp.skaleClock)
  }

  /** The ledger after both deploy steps: Solana's record, then SKALE's. */
  function Appended(ledger: seq<DeploymentResult>, solana: Option<DeploymentResult>,
                    skale: Option<DeploymentResult>): seq<DeploymentResult>
  {
    ledger + AsSeq(solana) + AsSeq(skale)
  }

  /** What `run_full_deployment` does once both deploy steps are over,
      given the records they left. */
  function AfterDeploys(ledger: seq<DeploymentResult>, solana: Option<DeploymentResult>,
                        skale: Option<DeploymentResult>, syncClock: int): RunOutcome
  {
    var after := Appended(ledger, solana, skale);
    if solana.Some? && skale.Some? then
      RunOutcome(BothDeployed, Some(SyncPayload(solana.value, skale.value, syncClock)), Some(ReportOf(after)), after)
    else if solana.Some? then
      RunOutcome(OnlySolana, None, Some(ReportOf(after)), after)
    else if skale.Some? then
      RunOutcome(OnlySkale, None, Some(ReportOf(after)), after)
    else
      RunOutcome(BothFailed, None, None, after)
  }

  /** The whole run over a ledger that already holds `ledger`. */
  function Run(ledger: seq<DeploymentResult>, inp: RunInputs): RunOutcome {
    if !EnvironmentReady(inp.probe, inp.privateKey) then
      RunOutcome(EnvironmentFailed, None, None, ledger)
    else
      AfterDeploys(ledger, SolanaRecord(inp), SkaleRecord(inp), inp.syncClock)
  }

  class MultiChainDeployer {
    const chains: map<string, ChainConfig>
    var deployments: seq<DeploymentResult>

    /** Every ledger entry is well formed and names a configured chain. */
    ghost predicate Valid()
      reads this
    {
      && chains.Keys == {Key(Solana), Key(Skale)}
      && forall i :: 0 <= i < |deployments| ==> WellFormed(deployments[i]) && deployments[i].chain in chains
    }

    constructor (solanaRpc: string, skaleRpc: string, skaleChainId: int)
      ensures Valid()
      ensures chains == DefaultChains(solanaRpc, skaleRpc, skaleChainId)
      ensures deployments == []
    {
      chains := DefaultChains(solanaRpc, skaleRpc, skaleChainId);
      deployments := [];
    }

    /** `check_environment`: the mandatory checks in order, returning at the
        first that fails; the optional ones only warn. */
    method CheckEnvironment(probe: ToolProbe, privateKey: string) returns (ok: bool)
      ensures ok == EnvironmentReady(probe, privateKey)
      ensures ok <==> probe.node && probe.python3 && privateKey != UnconfiguredKey
    {
      if !probe.node {
        return false;
      }
      if !probe.python3 {
        return false;
      }
      // A missing Anchor CLI or Hardhat is reported and the check goes on.
      if privateKey == UnconfiguredKey {
        return false;
      }
      return true;
    }

    /** The shared tail of both deploy steps: run the script, scan its output
        for the marker, and record a non-empty identifier. */
    method DeployAndRecord(c: Chain, run: ProcessRun, now: int) returns (r: Option<DeploymentResult>)
      requires Valid()
      modifies this
      ensures Valid()
      ensures r == Recorded(c, DeployStep(run, Marker(c)), now)
      ensures deployments == old(deployments) + AsSeq(r)
    {
      r := None;
      if run.LaunchFailed? {
        return;
      }
      if run.returnCode == 0 {
        var found := ScanLines(Lines(run.stdout), Marker(c));
        if found.Some? && found.value != "" {
          var deployment := NewDeployment(c, found.value, now);
          deployments := deployments + [deployment];
          r := Some(deployment);
        }
      }
    }

    /** `deploy_solana`: build with Anchor (a nonzero exit raises), then
        deploy and record. */
    method DeploySolana(build: ProcessRun, run: ProcessRun, now: int) returns (r: Option<DeploymentResult>)
      requires Valid()
      modifies this
      ensures Valid()
      ensures r == Recorded(Solana, SolanaAttempt(build, run), now)
      ensures deployments == old(deployments) + AsSeq(r)
    {
      if build.LaunchFailed? || build.returnCode != 0 {
        return None;
      }
      r := DeployAndRecord(Solana, run, now);
    }

    /** `deploy_skale`: deploy and record. */
    method DeploySkale(run: ProcessRun, now: int) returns (r: Option<DeploymentResult>)
      requires Valid()
      modifies this
      ensures Valid()
      ensures r == Recorded(Skale, SkaleAttempt(run), now)
      ensures deployments == old(deployments) + AsSeq(r)
    {
      r := DeployAndRecord(Skale, run, now);
    }

    /** The cross-chain status part of `generate_report`; every chain it
        names is a configured one, so looking its settings up cannot fail. */
    method GenerateReport() returns (report: Report)
      requires Valid()
      ensures report.chainsDeployed <= chains.Keys
      ensures report.totalDeployments == |deployments|
      ensures report.status == Synchronized <==> |deployments| >= 2
      ensures report == ReportOf(deployments)
    {
      var total := |deployments|;
      var status := if total >= 2 then Synchronized else SingleChainOnly;
      report := Report(total, set i | 0 <= i < total :: deployments[i].chain, status);
    }

    /** `run_full_deployment`. */
    method RunFullDeployment(inp: RunInputs) returns (branch: Branch, sync: Option<SyncRecord>, report: Option<Report>)
      requires Valid()
      modifies this
      ensures Valid()
      ensures Run(old(deployments), inp) == RunOutcome(branch, sync, report, deployments)
    {
      sync, report := None, None;
      var ready := CheckEnvironment(inp.probe, inp.privateKey);
      if !ready {
        return EnvironmentFailed, None, None;
      }
      var solanaResult := DeploySolana(inp.solanaBuild, inp.solanaDeploy, inp.solanaClock);
      var skaleResult := DeploySkale(inp.skaleDeploy, inp.skaleClock);
      if solanaResult.Some? && skaleResult.Some? {
        branch := BothDeployed;
        sync := Some(SyncPayload(solanaResult.value, skaleResult.value, inp.syncClock));
      } else if solanaResult.Some? {
        branch := OnlySolana;
      } else if skaleResult.Some? {
        branch := OnlySkale;
      } else {
        return BothFailed, None, None;
      }
      var r := GenerateReport();
      report := Some(r);
    }
  }
}
