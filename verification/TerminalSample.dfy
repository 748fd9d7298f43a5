/** Two runs that a phone really drives: it pairs, starts a terminal, asks for an attach token and
    attaches. In the one it hangs up, and the terminal's two rows part; in the other it is revoked in
    between, and attaches all the same. */
module TerminalSample {
  import opened Wrappers
  import opened Records
  import opened Tables
  import opened TerminalSessions
  import opened Machine
  import opened TerminalMirror
  import Base64Url
  import Decimal
  import Devices
  import DeviceTrust
  import Fleet
  import Signing

  const NODE: Id := "n"
  const AGENT: Id := "a"
  const DEVICE: Id := "d"
  const TERMINAL: Id := "s"
  const SOCKET: Id := "w"
  const TOKEN := "k"

  /** Any key signs; tokens are their own hashes; one terminal at a time. */
  function SampleConfig(): Config {
    Config(NODE, 60, 1, 60, 60, (c: AuditContent) => "", (s: string) => s, (s: string) => s,
           (b: seq<Base64Url.Byte>) => "",
           (k: seq<Base64Url.Byte>, s: seq<Base64Url.Byte>, t: string) => true, (n: nat) => AuditStamp("", "", 0))
  }

  function SampleKey(): string {
    Base64Url.Encode(seq(32, i => 0))
  }

  function SampleRequest(nonce: string): Signing.SignedRequest {
    Signing.SignedRequest(Some(DEVICE), Some("0"), Some(nonce), Some(SampleKey()), "POST", "/v1", [])
  }

  // ----- the steps, all in the first second -----

  function OfferTerminals(): Step {
    Step(0, None, Local(true, OnFleet(ReportContext(
      Fleet.Context(AGENT, None, "running", None, "running", None, None, None, None, [CapabilityItem("tui", true)])))))
  }

  function StartPairing(): Step {
    Step(0, None, OnPairing(BeginPairing("p", "t", {UseTui}, None)))
  }

  function FinishPairing(): Step {
    Step(0, None, OnPairing(EndPairing(Devices.Completion("p", "t", SampleKey(), DEVICE, "x", "y"))))
  }

  function StartSample(): Step {
    Step(0, None, Signed(SampleRequest("1"),
                         OnTerminals(StartTerminal(TuiRequest(TERMINAL, None, AGENT, "sh", None, None)))))
  }

  function AskToken(): Step {
    Step(0, None, Signed(SampleRequest("2"), OnTerminals(AttachTerminal(TERMINAL, TOKEN))))
  }

  function RevokeSample(): Step {
    Step(0, None, Signed(SampleRequest("3"), OnTrust(Revoke(DEVICE))))
  }

  function PlugIn(): Step {
    Step(0, None, OnTerminalEvent(Connects(Some(TOKEN), TERMINAL, SOCKET)))
  }

  function HangUp(): Step {
    Step(0, None, OnTerminalEvent(Sends(SOCKET, Disconnect)))
  }

  // ----- what each leaves -----

  /** Nobody works at the desk or in a terminal yet. */
  ghost predicate Quiescent(db: Db) {
    && db.config == SampleConfig()
    && db.desk == Desk(map[], map[], map[], map[], map[])
    && db.tui == Terminals(map[], map[], map[], map[])
  }

  ghost predicate NobodyPaired(db: Db) {
    db.trust == Trust(map[], map[], map[], {}, [])
  }

  /** The sample device is paired, and has signed with these nonces only. */
  ghost predicate Paired(db: Db, nonces: set<(Id, string)>) {
    && db.config == SampleConfig() && db.trust.nonces == nonces
    && db.trust.devices == map[DEVICE := DeviceRow(NODE, SampleKey(), DeviceActive, {UseTui})]
  }

  /** Its terminal runs, with no socket attached. */
  ghost predicate Started(db: Db) {
    && Agrees(db, TERMINAL) && Running(db, TERMINAL) && db.tui.sockets == map[]
    && db.tui.rows[TERMINAL].state == Active && db.tui.rows[TERMINAL].deviceId == DEVICE
  }

  /** And it holds an attach token for it. */
  ghost predicate Armed(db: Db) {
    && db.config == SampleConfig() && Started(db)
    && TOKEN in db.tui.attach && db.tui.attach[TOKEN] == AttachRow(TERMINAL, DEVICE, 60 * SECOND, None)
  }

  lemma Offered(db: Db)
    requires db == Fleet.FreshDb(SampleConfig())
    ensures Admissible(db, OfferTerminals())
    ensures var r := Next(db, OfferTerminals()).0;
            Quiescent(r) && NobodyPaired(r) && TuiOffered(r, NODE, AGENT)
  {
    var r := Next(db, OfferTerminals()).0;
    var key := AgentKey(NODE, AGENT);
    assert key in r.fleet.agents && r.fleet.agents[key].capabilities == [CapabilityItem("tui", true)];
  }

  lemma PairingBegun(db: Db)
    requires Quiescent(db) && NobodyPaired(db) && TuiOffered(db, NODE, AGENT)
    ensures Admissible(db, StartPairing())
    ensures var r := Next(db, StartPairing()).0;
            Quiescent(r) && TuiOffered(r, NODE, AGENT) && r.trust == PairingTables()
  {
  }

  function PairingTables(): Trust {
    Trust(map["p" := PairingRow("t", PairingPending, NODE, {UseTui}, 60 * SECOND)], map[], map[], {}, [])
  }

  lemma PairingFinished(db: Db)
    requires Quiescent(db) && TuiOffered(db, NODE, AGENT) && db.trust == PairingTables()
    ensures Admissible(db, FinishPairing())
    ensures var r := Next(db, FinishPairing()).0;
            Quiescent(r) && TuiOffered(r, NODE, AGENT) && Paired(r, {})
  {
    assert "x"[0] != "y"[0];
  }

  lemma SampleIsAccepted(db: Db, nonce: string)
    requires Paired(db, db.trust.nonces) && nonce != "" && (DEVICE, nonce) !in db.trust.nonces
    ensures Signing.Accepts(db, SampleRequest(nonce), 0)
  {
    var key := seq(32, i => 0);
    Base64Url.DecodeOfEncode(key);
    assert |SampleKey()| > 0;
    Decimal.ParseDigits("0");
    assert Decimal.Value("0") == 0 by {
      assert "0"[..0] == "";
    }
  }

  lemma SampleStarts(db: Db)
    requires Quiescent(db) && TuiOffered(db, NODE, AGENT) && Paired(db, {})
    ensures Admissible(db, StartSample())
    ensures var r := Next(db, StartSample()).0;
            Paired(r, {(DEVICE, "1")}) && Started(r)
  {
    SampleIsAccepted(db, "1");
    var d1 := Signing.Verify(db, SampleRequest("1"), None, 0).0;
    assert OpenIds(CleanupIdle(d1, 0).tui.rows) == {};
  }

  lemma TokenIssued(db: Db)
    requires Paired(db, {(DEVICE, "1")}) && Started(db)
    ensures Admissible(db, AskToken())
    ensures var r := Next(db, AskToken()).0;
            Paired(r, {(DEVICE, "1"), (DEVICE, "2")}) && Armed(r)
  {
    assert "2"[0] != "1"[0];
    SampleIsAccepted(db, "2");
  }

  lemma SampleRevoked(db: Db)
    requires Paired(db, {(DEVICE, "1"), (DEVICE, "2")}) && Armed(db)
    ensures Admissible(db, RevokeSample())
    ensures var r := Next(db, RevokeSample()).0;
            Armed(r) && DeviceTrust.Revoked(r, DEVICE)
  {
    assert "3"[0] != "1"[0] && "3"[0] != "2"[0];
    SampleIsAccepted(db, "3");
    var d1 := Signing.Verify(db, SampleRequest("3"), None, 0).0;
    DeviceTrust.RevokingRevokes(d1, DEVICE, DEVICE, None, 0);
  }

  lemma SamplePlugsIn(db: Db)
    requires Armed(db)
    ensures Admissible(db, PlugIn())
    ensures var (r, reply) := Next(db, PlugIn());
            && reply == Done && Agrees(r, TERMINAL) && Running(r, TERMINAL) && r.tui.rows[TERMINAL].state == Active
            && SOCKET in r.tui.sockets && r.tui.sockets[SOCKET] == Socket(TERMINAL, DEVICE)
  {
  }

  // ----- the runs -----

  ghost predicate SampleRun(run: Run, n: nat) {
    && IsRun(run) && run.states[0] == Fleet.FreshDb(SampleConfig()) && |run.steps| == n
    && (0 < n ==> run.steps[n - 1].now == 0)
  }

  lemma SampleContinues(run: Run, n: nat, step: Step) returns (longer: Run)
    requires SampleRun(run, n) && Admissible(run.states[n], step) && step.now == 0
    ensures SampleRun(longer, n + 1) && longer.states[..n + 1] == run.states && longer.steps[n] == step
    ensures (longer.states[n + 1], longer.replies[n]) == Next(run.states[n], step)
  {
    RunsContinue(run.states[n], run, step);
    longer := Extended(run, step);
  }

  lemma OfferedSample() returns (run: Run)
    ensures SampleRun(run, 1)
    ensures Quiescent(run.states[1]) && NobodyPaired(run.states[1]) && TuiOffered(run.states[1], NODE, AGENT)
  {
    var d0 := Fleet.FreshDb(SampleConfig());
    run := Run([d0], [], []);
    Offered(d0);
    run := SampleContinues(run, 0, OfferTerminals());
  }

  lemma BegunSample() returns (run: Run)
    ensures SampleRun(run, 2)
    ensures Quiescent(run.states[2]) && TuiOffered(run.states[2], NODE, AGENT) && run.states[2].trust == PairingTables()
  {
    run := OfferedSample();
    PairingBegun(run.states[1]);
    run := SampleContinues(run, 1, StartPairing());
  }

  lemma PairedSample() returns (run: Run)
    ensures SampleRun(run, 3)
    ensures Quiescent(run.states[3]) && TuiOffered(run.states[3], NODE, AGENT) && Paired(run.states[3], {})
  {
    run := BegunSample();
    PairingFinished(run.states[2]);
    run := SampleContinues(run, 2, FinishPairing());
  }

  lemma RunningSample() returns (run: Run)
    ensures SampleRun(run, 4) && Paired(run.states[4], {(DEVICE, "1")}) && Started(run.states[4])
  {
    run := PairedSample();
    SampleStarts(run.states[3]);
    run := SampleContinues(run, 3, StartSample());
  }

  lemma ArmedSample() returns (run: Run)
    ensures SampleRun(run, 5) && Paired(run.states[5], {(DEVICE, "1"), (DEVICE, "2")}) && Armed(run.states[5])
  {
    run := RunningSample();
    TokenIssued(run.states[4]);
    run := SampleContinues(run, 4, AskToken());
  }

  /** Seven steps from a fresh gateway the phone hangs up, and the two rows part. */
  lemma PartingIsReachable() returns (run: Run)
    ensures SampleRun(run, 7) && run.steps[6] == HangUp()
    ensures Agrees(run.states[6], TERMINAL) && !Agrees(run.states[7], TERMINAL)
  {
    run := ArmedSample();
    SamplePlugsIn(run.states[5]);
    run := SampleContinues(run, 5, PlugIn());
    var db := run.states[6];
    EventMirror(db, HangUp().action.event, TERMINAL, 0);
    run := SampleContinues(run, 6, HangUp());
  }

  /** Seven steps from a fresh gateway a revoked device attaches to its terminal. */
  lemma RevokedDeviceAttaches() returns (run: Run)
    ensures SampleRun(run, 7) && DeviceTrust.Revoked(run.states[6], DEVICE)
    ensures run.steps[6] == PlugIn() && run.replies[6] == Done
    ensures SOCKET in run.states[7].tui.sockets && run.states[7].tui.sockets[SOCKET] == Socket(TERMINAL, DEVICE)
  {
    run := ArmedSample();
    SampleRevoked(run.states[5]);
    run := SampleContinues(run, 5, RevokeSample());
    SamplePlugsIn(run.states[6]);
    run := SampleContinues(run, 6, PlugIn());
  }
}
