# Mint Gene multi-chain deployer — Dafny model

This project models the decision logic of `MultiChainDeployer`, the script
that deploys the Mint Gene application to Solana and to SKALE and then
reconciles the two deployments into one cross-chain state record. Each
external effect becomes a plain input:

- an external command (`anchor build`, the two `node` deploy scripts)
  becomes a `ProcessRun`. It either exited with a return code and a captured
  stdout, or it could not be started (`LaunchFailed`, which makes Python raise);
- the four version probes of `check_environment` become the booleans of a
  `ToolProbe`, and the configured private key becomes a string;
- each `int(time.time())` reading becomes an integer parameter. There are three
  of them: one for the Solana deploy, one for the SKALE deploy, one for the sync.

What remains is modelled as follows:

- `PyStr` models the Python string behaviour the script relies on: `m in s`,
  `s.split(sep)` and `s.strip()`. It proves that joining the pieces of a split
  with the separator gives back the input, and that strip is characterised
  uniquely.
- `Records` holds the data model: `ChainConfig`, `DeploymentResult`, the sync
  payload and the report.
- `MarkerScan` models the scan of a deploy script's output for its
  `Program ID:` or `Contract Address:` line. A pure function specifies the
  scan; the method `ScanLines` runs it as the source's loop with `break`.
- `Deployer` holds the class `MultiChainDeployer`. Its ledger
  `self.deployments` is a `seq` field that the deploy methods extend. It also
  holds the function `Run`, which specifies `run_full_deployment`. `Run` uses
  `AfterDeploys` for the branch taken once both deploys are over. The method
  `RunFullDeployment` is proved equal to `Run`.
- `RunProperties` holds the lemmas about the deploy steps and the whole run.

Several behaviours of the code differ from what one might expect of a
deployer like this one; the model follows the code:

- One might expect a failed deploy and an unreadable deploy output to be
  reported differently. The code returns `None` in both cases and only prints
  different messages. The model keeps the distinction in the `Attempt`
  datatype, which has one case per exit of the deploy step, and the deploy
  methods still return no record in every failing case.
- One might expect the sync to be able to fail and the report's status to
  say whether a sync ran. The sync always returns `True`, and the status
  depends only on the number of ledger entries.
  `StaleLedgerReportsSynchronized` shows where the two diverge: a deployer
  whose ledger is not empty at the start of a run.
- One might expect an error when a chain is deployed twice. The code has no
  duplicate-chain check. "At most one record per chain" is proved only for a
  run on a fresh deployer (`FreshRunOnePerChain`).
- One might expect the allowlist to be a set of addresses. It is
  `[solana address, skale address]` as written, and the code does not remove
  a duplicate when the two addresses are equal.
- One might expect the two deploys to run concurrently. They run one after
  the other: Solana first, then SKALE.
- Line 263 of the script (`print(".2f"        print(...`) is not valid Python.
  The model treats the report as if the script parsed and covers only the part
  of the report that the ledger determines.

## Model

| member | source | states |
|---|---|---|
| `PyStr.Find` | scripts/deploy_multichain.py:137 | The result is the leftmost index where the marker occurs; no result means it occurs nowhere (what `marker in line` decides) |
| `PyStr.ContainsChar` | scripts/deploy_multichain.py:134 | A one-character needle is contained exactly when that character is a member of the string |
| `PyStr.Split` | scripts/deploy_multichain.py:134-138 | `s.split(sep)` has at least one piece, at least two exactly when `sep` occurs, and no piece holds `sep` |
| `PyStr.SplitJoin` | scripts/deploy_multichain.py:134 | Joining the pieces of a split with the separator gives back the input |
| `PyStr.SplitPartChars` | scripts/deploy_multichain.py:134 | Every character of a piece comes from the split string |
| `PyStr.SplitLinesHaveNoNewline` | scripts/deploy_multichain.py:134 | No piece of `stdout.split('\n')` holds a newline |
| `PyStr.LeadingSpaces` | scripts/deploy_multichain.py:138 | The count of leading whitespace characters: everything before it is whitespace, the character at it is not |
| `PyStr.TrailingStart` | scripts/deploy_multichain.py:138 | The start of the trailing whitespace run: everything from it on is whitespace, the character before it is not |
| `PyStr.Strip` | scripts/deploy_multichain.py:138 | `strip()` is empty exactly when the input is all whitespace; a non-empty result starts and ends with non-whitespace and uses only input characters |
| `PyStr.StripUnique` | scripts/deploy_multichain.py:138 | Any split of the input into a whitespace prefix, a core with non-whitespace ends and a whitespace suffix has that core equal to `strip()` |
| `PyStr.StripIdempotent` | scripts/deploy_multichain.py:138 | Stripping twice equals stripping once |
| `Records.Key` | scripts/deploy_multichain.py:49-64 | Each chain's ledger key is recognised back as that chain |
| `Records.Marker` | scripts/deploy_multichain.py:137 | Both markers (`Program ID:` and `Contract Address:`) are non-empty, so splitting on them is defined |
| `Records.DefaultChains` | scripts/deploy_multichain.py:48-64 | The chain table has exactly the keys `solana` and `skale`, with chain id 101 for Solana and the configured id and RPC URLs |
| `Records.NewDeployment` | scripts/deploy_multichain.py:142-150 | The record names the chain, uses the identifier as both address and program id, carries the clock reading, and is well formed when the identifier is non-empty |
| `Records.SyncPayload` | scripts/deploy_multichain.py:224-235 | The payload goes from Solana to SKALE, and its allowlist has two entries that are exactly the two deployments' addresses |
| `Records.SyncIdempotent` | scripts/deploy_multichain.py:224-235 | The shared state depends only on the two addresses and is the baseline (level 1, pool 0); with the same timestamp the whole payload is identical |
| `Records.ReportOf` | scripts/deploy_multichain.py:258-279 | The report counts the ledger, lists exactly the chains in it, and is "Synchronized" exactly when the ledger holds at least two entries |
| `MarkerScan.Lines` | scripts/deploy_multichain.py:134 | The output splits into at least one line and no line holds a newline |
| `MarkerScan.FirstMarkerValue` | scripts/deploy_multichain.py:134-139 | The scan finds nothing exactly when no line holds the marker |
| `MarkerScan.FirstMarkerValueAt` | scripts/deploy_multichain.py:136-139 | The scan returns the stripped field of the first line that holds the marker |
| `MarkerScan.FirstMarkerLineOf` | scripts/deploy_multichain.py:136-139 | A found value comes from a line that holds the marker and follows only lines without it |
| `MarkerScan.LaterLinesIgnored` | scripts/deploy_multichain.py:139 | Changing the lines after the first marker line does not change the result |
| `MarkerScan.SliceContains` | scripts/deploy_multichain.py:137 | A string that contains the marker in a slice contains it |
| `MarkerScan.StripIsSlice` | scripts/deploy_multichain.py:138 | The stripped string is a slice of its input |
| `MarkerScan.SecondPiece` | scripts/deploy_multichain.py:138 | `split(marker)[1]` is the text between the first occurrence and the next, or the end of the line |
| `MarkerScan.StripKeepsAbsence` | scripts/deploy_multichain.py:138 | Stripping a string that lacks the marker gives a string that lacks it |
| `MarkerScan.MarkerFieldBetween` | scripts/deploy_multichain.py:138 | The extracted field is the stripped text after the marker up to any second occurrence, and never holds the marker |
| `MarkerScan.ScanLines` | scripts/deploy_multichain.py:134-139 | The loop with `break` returns what the scan specification returns, and finds a value exactly when some line holds the marker |
| `MarkerScan.IdentifierShape` | scripts/deploy_multichain.py:138-141 | An accepted identifier is non-empty, has no surrounding whitespace, and holds no newline and no marker |
| `Deployer.OptionalToolsOnlyWarn` | scripts/deploy_multichain.py:90-102 | Whether Anchor or Hardhat is present never changes the environment verdict |
| `Deployer.DeployStep` | scripts/deploy_multichain.py:130-164 | A command that cannot start raises; a nonzero exit is reported with its code; after exit 0 the result is unreadable exactly when no non-empty identifier is found; a success carries a non-empty identifier with no newline and no marker |
| `Deployer.Recorded` | scripts/deploy_multichain.py:141-153 | A record exists exactly when the attempt deployed; it is well formed, names the chain, and carries the identifier and the clock reading |
| `Deployer.MultiChainDeployer.constructor` | scripts/deploy_multichain.py:48-66 | The deployer starts with the default chain table and an empty ledger |
| `Deployer.MultiChainDeployer.CheckEnvironment` | scripts/deploy_multichain.py:70-111 | The check passes exactly when Node.js and Python 3 are present and the key is not `your_private_key_here` |
| `Deployer.MultiChainDeployer.DeployAndRecord` | scripts/deploy_multichain.py:130-164 | The deploy step appends exactly the record its specification gives, or nothing, and keeps every ledger entry well formed |
| `Deployer.MultiChainDeployer.DeploySolana` | scripts/deploy_multichain.py:113-164 | A failed build or deploy returns no record and leaves the ledger unchanged; a success appends the returned Solana record once |
| `Deployer.MultiChainDeployer.DeploySkale` | scripts/deploy_multichain.py:166-210 | A failed deploy returns no record and leaves the ledger unchanged; a success appends the returned SKALE record once |
| `Deployer.MultiChainDeployer.GenerateReport` | scripts/deploy_multichain.py:253-279 | The report counts the ledger, names only configured chains (so the settings lookup per entry cannot fail), and says "Synchronized" exactly when the ledger holds two or more entries |
| `Deployer.MultiChainDeployer.RunFullDeployment` | scripts/deploy_multichain.py:281-308 | The branch, sync payload, report and new ledger are those of the run specification applied to the ledger before the call |
| `RunProperties.DeployedFromFirstMarkerLine` | scripts/deploy_multichain.py:132-153 | After exit 0, the deploy succeeds with the first marker line's field if that field is non-empty; otherwise the result is unreadable |
| `RunProperties.NoMarkerIsUnparseable` | scripts/deploy_multichain.py:154-155 | Exit 0 without a marker line is an unreadable result, not a deployment |
| `RunProperties.FailureLeavesNoRecord` | scripts/deploy_multichain.py:156-164 | A chain whose attempt fails adds no record: everything the run appends belongs to the other chain |
| `RunProperties.RecordFields` | scripts/deploy_multichain.py:142-150 | The two deploy steps write `solana` with fee 0.001 and `skale` with fee 0.01, the placeholder hash and zero gas |
| `RunProperties.SingleLine` | scripts/deploy_multichain.py:134 | Output without a newline is one line |
| `RunProperties.ProgramIdField` | scripts/deploy_multichain.py:137-138 | The field of `Program ID: ABC123` is `ABC123` |
| `RunProperties.SolanaScenario` | scripts/deploy_multichain.py:120-153 | Exit 0 with `Program ID: ABC123` deploys `ABC123` with zero gas; a nonzero build exit stops the deploy first |
| `RunProperties.EnvironmentGate` | scripts/deploy_multichain.py:286-288 | A failed environment check means no deploy, no sync, no report and an unchanged ledger |
| `RunProperties.SyncIffBothDeployed` | scripts/deploy_multichain.py:297-298 | The sync runs exactly when the environment is ready and both deploys succeed |
| `RunProperties.ReportUnlessAllFailed` | scripts/deploy_multichain.py:299-308 | A report is produced exactly when the environment is ready and at least one deploy succeeds; if both fail, the ledger is unchanged |
| `RunProperties.AppendedKeepsOrder` | scripts/deploy_multichain.py:151-197 | Appending the two deploy results keeps the old ledger as a prefix and adds at most two well-formed records, Solana's before SKALE's |
| `RunProperties.LedgerAppendOnly` | scripts/deploy_multichain.py:151-197 | A run keeps the old ledger as a prefix and adds at most two well-formed records, the Solana one before the SKALE one |
| `RunProperties.ReportDescribesLedger` | scripts/deploy_multichain.py:258-262 | The report is that of the ledger after the run and names every chain that deployed in this run |
| `RunProperties.FreshRunOnePerChain` | scripts/deploy_multichain.py:151-197 | On a fresh deployer, no chain appears twice in the ledger |
| `RunProperties.FreshRunStatusMatchesSync` | scripts/deploy_multichain.py:276-298 | On a fresh deployer, the report says "Synchronized" exactly when the sync ran |
| `RunProperties.StaleLedgerReportsSynchronized` | scripts/deploy_multichain.py:276-279 | With an earlier record in the ledger, a Solana-only run reports "Synchronized" although no sync ran |
| `RunProperties.SyncMatchesLedger` | scripts/deploy_multichain.py:224-235 | The sync's source and target are the two records just appended (Solana, then SKALE); the allowlist is exactly their addresses |
| `RunProperties.PartialSuccessScenario` | scripts/deploy_multichain.py:297-308 | Solana deploys and SKALE's script exits nonzero. On a fresh deployer the branch is only-Solana and there is no sync. The ledger holds exactly the Solana record, and the report shows one deployment on `solana` with the single-chain status |

## Left out

- Starting the external commands and their exception handlers: the outcome of
  each command is an input `ProcessRun`. A failure to start a command (Python's
  `FileNotFoundError`, caught by `except Exception`) is `LaunchFailed`. Other
  exceptions a real process could raise are not modelled.
- The version strings that `check_environment` prints. Its probes are
  booleans: a probe is false when its executable cannot be started. The
  Hardhat probe starts `npx`.
- Loading the environment (`load_dotenv`, `os.getenv` and its default URLs and
  keys): the constructor takes the two RPC URLs and the SKALE chain id, and the
  run takes the private key. Parsing `SKALE_CHAIN_ID` with `int(...)` (and its
  `ValueError`) is not modelled.
- `asyncio`: nothing in the core suspends.
- The Wormhole bridging: the code only prints and simulates it. The sync's
  `except` branch cannot be reached with string and integer data, so the sync
  is the function `SyncPayload`.
- `time.time()` and `time.strftime`: clock readings are integer parameters.
  The `int()` truncation of a float reading is not modelled.
- The fee total on line 259: it is floating point and adds SOL and sFUEL
  amounts together.
- The report lines other than the total, the chain set and the status. This
  covers the garbled line 263, the relayer types, the rebate lines, the
  per-deployment details, the explorer URLs and `main`. All of them only print.
- All printing, including the environment warnings for a missing Anchor CLI
  or Hardhat. The model distinguishes these optional checks from the mandatory
  ones only in the verdict, as the code does.
- `PyStr.IsSpace`: it follows Python's `str.isspace`, but Dafny characters are
  Unicode scalar values, so lone surrogate code points are not represented.
