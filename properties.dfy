/** What the deployer promises, stated over the specification functions of
    the deploy steps and of the whole run. */
module RunProperties {
  import opened PyStr
  import opened Records
  import opened MarkerScan
  import opened Deployer

  /** A deploy script that exits 0 deploys exactly when its first marker
      line carries a non-empty value, and then reports that value. */
  lemma DeployedFromFirstMarkerLine(out: string, marker: string, k: nat)
    requires marker != ""
    requires FirstMarkerLine(Lines(out), marker, k)
    ensures
      var v := MarkerField(Lines(out)[k], marker);
      DeployStep(Exited(0, out), marker) == if v != "" then Deployed(v) else IdNotFound
  {
    FirstMarkerValueAt(Lines(out), marker, k);
  }

  /** An exit code of 0 with no marker line in the output is an unreadable
      result, not a deployment. */
  lemma NoMarkerIsUnparseable(out: string, marker: string)
    requires marker != ""
    requires forall k :: 0 <= k < |Lines(out)| ==> !Contains(Lines(out)[k], marker)
    ensures DeployStep(Exited(0, out), marker) == IdNotFound
  {
  }

  /** A chain whose attempt fails adds nothing to the ledger: every record
      the run appends then belongs to the other chain. */
  lemma FailureLeavesNoRecord(ledger: seq<DeploymentResult>, inp: RunInputs)
    ensures
      var after := Run(ledger, inp).ledger;
      !SolanaAttempt(inp.solanaBuild, inp.solanaDeploy).Deployed? ==>
        forall i :: |ledger| <= i < |after| ==> ChainOf(after[i].chain) == Some(Skale)
    ensures
      var after := Run(ledger, inp).ledger;
      !SkaleAttempt(inp.skaleDeploy).Deployed? ==>
        forall i :: |ledger| <= i < |after| ==> ChainOf(after[i].chain) == Some(Solana)
  {
    if EnvironmentReady(inp.probe, inp.privateKey) {
      AppendedKeepsOrder(ledger, SolanaRecord(inp), SkaleRecord(inp));
    }
  }

  /** The records the two deploy steps write for identifier `id`. */
  lemma RecordFields(id: string, now: int)
    requires id != ""
    ensures Recorded(Solana, Deployed(id), now)
         == Some(DeploymentResult("solana", id, id, "relayer_tx_hash", "0", "0.001", now))
    ensures Recorded(Skale, Deployed(id), now)
         == Some(DeploymentResult("skale", id, id, "relayer_tx_hash", "0", "0.01", now))
  {
  }

  /** Output without a newline is a single line. */
  lemma SingleLine(out: string)
    requires '\n' !in out
    ensures Lines(out) == [out]
  {
    ContainsChar(out, '\n');
  }

  lemma ProgramIdField()
    ensures Contains("Program ID: ABC123", "Program ID:")
    ensures MarkerField("Program ID: ABC123", "Program ID:") == "ABC123"
  {
    var out, m := "Program ID: ABC123", "Program ID:";
    assert out[..|m|] == m;
    assert Find(out, m) == Some(0);
    var after := out[|m|..];
    assert after == " ABC123";
    assert Find(after, m) == None;
    assert Split(out, m) == [out[..0]] + Split(after, m);
    assert LeadingSpaces(after) == 1 by {
      assert after[1..] == "ABC123";
      assert LeadingSpaces("ABC123") == 0;
    }
    assert TrailingStart(after) == 7;
    assert after[1..7] == "ABC123";
  }

  /** "Program ID: ABC123" on a zero exit deploys Solana program ABC123 with
      no gas; a build that exits nonzero stops the Solana deploy first. */
  lemma SolanaScenario(now: int)
    ensures
      var out := "Program ID: ABC123";
      var a := SolanaAttempt(Exited(0, ""), Exited(0, out));
      && a == Deployed("ABC123")
      && Recorded(Solana, a, now) == Some(DeploymentResult(
           "solana", "ABC123", "ABC123", "relayer_tx_hash", "0", "0.001", now))
      && SolanaAttempt(Exited(1, ""), Exited(0, out)) == BuildFailed
  {
    var out := "Program ID: ABC123";
    assert '\n' !in out;
    SingleLine(out);
    ProgramIdField();
    var m := Marker(Solana);
    assert m == "Program ID:";
    assert FirstMarkerValue([out], m) == Some("ABC123");
    assert Identifier(out, m) == Some("ABC123");
    assert DeployStep(Exited(0, out), m) == Deployed("ABC123");
  }

  /** No deploy is attempted and nothing is reported when the environment
      check fails. */
  lemma EnvironmentGate(ledger: seq<DeploymentResult>, inp: RunInputs)
    requires !EnvironmentReady(inp.probe, inp.privateKey)
    ensures Run(ledger, inp) == RunOutcome(EnvironmentFailed, None, None, ledger)
  {
  }

  /** The sync runs exactly when both deploys succeed. */
  lemma SyncIffBothDeployed(ledger: seq<DeploymentResult>, inp: RunInputs)
    ensures Run(ledger, inp).sync.Some? <==>
      && EnvironmentReady(inp.probe, inp.privateKey)
      && SolanaAttempt(inp.solanaBuild, inp.solanaDeploy).Deployed?
      && SkaleAttempt(inp.skaleDeploy).Deployed?
  {
  }

  /** A report is produced exactly when the environment is ready and at
      least one deploy succeeds; when both fail the run stops before it. */
  lemma ReportUnlessAllFailed(ledger: seq<DeploymentResult>, inp: RunInputs)
    ensures Run(ledger, inp).report.Some? <==>
      && EnvironmentReady(inp.probe, inp.privateKey)
      && (SolanaAttempt(inp.solanaBuild, inp.solanaDeploy).Deployed? || SkaleAttempt(inp.skaleDeploy).Deployed?)
    ensures Run(ledger, inp).branch == BothFailed ==> Run(ledger, inp).ledger == ledger
  {
  }

  /** Whatever the deploy steps left, the old ledger stays a prefix and
      the Solana record comes before the SKALE record. */
  lemma AppendedKeepsOrder(ledger: seq<DeploymentResult>, solana: Option<DeploymentResult>,
                           skale: Option<DeploymentResult>)
    requires solana.Some? ==> WellFormed(solana.value) && ChainOf(solana.value.chain) == Some(Solana)
    requires skale.Some? ==> WellFormed(skale.value) && ChainOf(skale.value.chain) == Some(Skale)
    ensures
      var after := Appended(ledger, solana, skale);
      && |ledger| <= |after| <= |ledger| + 2
      && after[..|ledger|] == ledger
      && (forall i :: |ledger| <= i < |after| ==> WellFormed(after[i]))
      && (forall i, j :: |ledger| <= i < j < |after| ==>
            ChainOf(after[i].chain) == Some(Solana) && ChainOf(after[j].chain) == Some(Skale))
  {
    var after := Appended(ledger, solana, skale);
    var n := |ledger|;
    assert after[..n] == ledger;
    match (solana, skale)
    case (None, None) =>
    case (Some(a), None) =>
      assert after == ledger + [a];
    case (None, Some(b)) =>
      assert after == ledger + [b];
    case (Some(a), Some(b)) =>
      assert after == ledger + [a, b];
  }

  /** The ledger only grows, by at most one record per chain, Solana's
      first, and every new record is well formed. */
  lemma LedgerAppendOnly(ledger: seq<DeploymentResult>, inp: RunInputs)
    ensures
      var after := Run(ledger, inp).ledger;
      && |ledger| <= |after| <= |ledger| + 2
      && after[..|ledger|] == ledger
      && (forall i :: |ledger| <= i < |after| ==> WellFormed(after[i]))
      && (forall i, j :: |ledger| <= i < j < |after| ==>
            ChainOf(after[i].chain) == Some(Solana) && ChainOf(after[j].chain) == Some(Skale))
  {
    if EnvironmentReady(inp.probe, inp.privateKey) {
      AppendedKeepsOrder(ledger, SolanaRecord(inp), SkaleRecord(inp));
    } else {
      assert Run(ledger, inp).ledger[..|ledger|] == ledger;
    }
  }

  /** The report describes the ledger after the run and names every chain
      whose attempt deployed in this run. */
  lemma ReportDescribesLedger(ledger: seq<DeploymentResult>, inp: RunInputs)
    ensures
      var out := Run(ledger, inp);
      out.report.Some? ==> out.report.value == ReportOf(out.ledger)
    ensures
      var out := Run(ledger, inp);
      out.report.Some? && SolanaAttempt(inp.solanaBuild, inp.solanaDeploy).Deployed? ==>
        Key(Solana) in out.report.value.chainsDeployed
    ensures
      var out := Run(ledger, inp);
      out.report.Some? && SkaleAttempt(inp.skaleDeploy).Deployed? ==>
        Key(Skale) in out.report.value.chainsDeployed
  {
    var out := Run(ledger, inp);
    if out.report.Some? {
      var s, k := SolanaRecord(inp), SkaleRecord(inp);
      var n := |ledger|;
      assert out.ledger == ledger + AsSeq(s) + AsSeq(k);
      if s.Some? {
        assert out.ledger[n] == s.value;
      }
      if k.Some? {
        assert out.ledger[|out.ledger| - 1] == k.value;
      }
    }
  }

  /** On a fresh deployer the ledger holds at most one record per chain. */
  lemma FreshRunOnePerChain(inp: RunInputs)
    ensures ChainsDistinct(Run([], inp).ledger)
  {
    var after := Run([], inp).ledger;
    LedgerAppendOnly([], inp);
    forall i, j | 0 <= i < j < |after| ensures after[i].chain != after[j].chain {
      assert ChainOf(after[i].chain) != ChainOf(after[j].chain);
    }
  }

  /** On a fresh deployer the report says "Synchronized" exactly when the
      sync ran. */
  lemma FreshRunStatusMatchesSync(inp: RunInputs)
    ensures
      var out := Run([], inp);
      out.report.Some? ==> (out.report.value.status == Synchronized <==> out.sync.Some?)
  {
  }

  /** The status counts the whole ledger, not this run: on a deployer that
      already holds a record, a run where only Solana deploys is reported
      as "Synchronized" although no sync ran. */
  lemma StaleLedgerReportsSynchronized(ledger: seq<DeploymentResult>, solana: DeploymentResult, syncClock: int)
    requires ledger != []
    ensures AfterDeploys(ledger, Some(solana), None, syncClock).sync == None
    ensures AfterDeploys(ledger, Some(solana), None, syncClock).report == Some(ReportOf(ledger + [solana]))
    ensures ReportOf(ledger + [solana]).status == Synchronized
  {
    assert ledger + AsSeq(Some(solana)) + AsSeq(None) == ledger + [solana];
  }

  /** The sync payload refers to the two records the run has just appended:
      Solana's as source, SKALE's as target, and its allowlist is exactly
      their two addresses. */
  lemma SyncMatchesLedger(ledger: seq<DeploymentResult>, inp: RunInputs)
    ensures
      var out := Run(ledger, inp);
      out.sync.Some? ==>
        var rec, n := out.sync.value, |out.ledger|;
        && n == |ledger| + 2
        && rec.sourceChain == out.ledger[n - 2].chain && rec.sourceAddress == out.ledger[n - 2].contractAddress
        && rec.targetChain == out.ledger[n - 1].chain && rec.targetAddress == out.ledger[n - 1].contractAddress
        && rec.sacredState.allowlist == [out.ledger[n - 2].contractAddress, out.ledger[n - 1].contractAddress]
        && rec.timestamp == inp.syncClock
  {
  }

  /** Solana deploys while SKALE's script exits nonzero: partial success, no
      sync, and a fresh deployer reports exactly one deployment. */
  lemma PartialSuccessScenario(id: string, out: string, code: int, solanaClock: int, skaleClock: int, syncClock: int)
    requires id != "" && code != 0
    ensures
      var solana := Recorded(Solana, Deployed(id), solanaClock);
      var skale := Recorded(Skale, SkaleAttempt(Exited(code, out)), skaleClock);
      var run := AfterDeploys([], solana, skale, syncClock);
      && run.branch == OnlySolana && run.sync == None
      && run.ledger == [NewDeployment(Solana, id, solanaClock)]
      && run.report == Some(Report(1, {"solana"}, SingleChainOnly))
  {
    var d := NewDeployment(Solana, id, solanaClock);
    assert (set i | 0 <= i < |[d]| :: [d][i].chain) == {"solana"} by {
      assert [d][0].chain == "solana";
    }
  }
}
