/** Why sessions of one stream and key must not overlap: concrete runs in which they do. */
module Overlap {
  import opened Prelude
  import opened Calendar
  import opened Gate
  import opened Protocol
  import opened Seating
  import Store
  import Citations
  import Accounts

  lemma RunThen(kit: Store.Kit, steps: seq<Step>, t: Step)
    ensures Run(kit, steps + [t]) == Apply(kit, Run(kit, steps), t)
  {
    assert (steps + [t])[..|steps|] == steps;
  }

  lemma RunThenTwo(kit: Store.Kit, steps: seq<Step>, t: Step, u: Step)
    ensures Run(kit, steps + [t, u]) == Apply(kit, Apply(kit, Run(kit, steps), t), u)
  {
    assert steps + [t, u] == (steps + [t]) + [u];
    RunThen(kit, steps, t);
    RunThen(kit, steps + [t], u);
  }

  // ---- a call in flight while another session recovers ----

  /** A call in flight: forwarded, its write-ahead record open, nothing chained. */
  ghost predicate InFlight(s: State, c: nat, auth: Option<Grant>) {
    && c in s.threads && s.threads[c].pc == Ran(auth, Some("i"), false) && s.threads[c].stream == "s"
    && s.db.intents.Keys == {"i"} && Store.IsOpen(s.db, "i", "s", "k") && s.db.envelopes == []
    && Citations.Cites(s.db.intents["i"].draft.content) == auth
  }

  lemma OverlapReopens(kit: Store.Kit, s: State, c: nat, auth: Option<Grant>)
    requires InFlight(s, c, auth) && s.sessions.Keys == {0}
    ensures var n := Apply(kit, Apply(kit, s, Step.Open(2, "s", "k")), ReadOpen(2, ["i"]));
      InFlight(n, c, auth) && 2 in n.sessions && n.sessions[2] == Session("s", "k", Recovering(["i"]))
  {
  }

  predicate ClosesAndCites(row: Store.Row, auth: Option<Grant>) {
    Closes(row, "i") && Citations.Cites(row.record.draft.content) == auth
  }

  lemma OverlapRecovers(kit: Store.Kit, s: State, c: nat, auth: Option<Grant>)
    requires InFlight(s, c, auth) && 2 in s.sessions && s.sessions[2] == Session("s", "k", Recovering(["i"]))
    requires forall r: Store.Record :: kit.view.shape(r).None?
    ensures var n := Apply(kit, s, Recover(2, "t", true));
      |n.db.envelopes| == 1 && ClosesAndCites(n.db.envelopes[0], auth) && n.threads == s.threads && n.history == s.history
  {
    Citations.RestampedCites(s.db.intents["i"].draft, "t");
  }

  lemma OverlapRecords(kit: Store.Kit, s: State, c: nat, auth: Option<Grant>)
    requires c in s.threads && s.threads[c].pc == Ran(auth, Some("i"), false) && |s.db.envelopes| == 1
    requires forall r: Store.Record :: kit.view.shape(r).None?
    ensures var n := Apply(kit, s, Step.Record(c, "t", true));
      |n.db.envelopes| == 2 && n.db.envelopes[0] == s.db.envelopes[0] && ClosesAndCites(n.db.envelopes[1], auth)
      && n.history == s.history
  {
    Citations.EffectCites(s.threads[c].key, s.threads[c].fields, "applied", auth, "t");
  }

  /** A second session of the stream and key opens, reads the call's record as open, and recovers it; then the call
      chains its own. */
  function Overlapping(c: nat): seq<Step> {
    [Step.Open(2, "s", "k"), ReadOpen(2, ["i"]), Recover(2, "t", true), Step.Record(c, "t", true)]
  }

  lemma RunOverlapping(kit: Store.Kit, before: seq<Step>, c: nat)
    ensures Run(kit, before + Overlapping(c)) ==
      Apply(kit, Apply(kit, Apply(kit, Apply(kit, Run(kit, before), Step.Open(2, "s", "k")), ReadOpen(2, ["i"])),
                       Recover(2, "t", true)), Step.Record(c, "t", true))
  {
    RunThenTwo(kit, before, Step.Open(2, "s", "k"), ReadOpen(2, ["i"]));
    var reopened := before + [Step.Open(2, "s", "k"), ReadOpen(2, ["i"])];
    RunThenTwo(kit, reopened, Recover(2, "t", true), Step.Record(c, "t", true));
    assert before + Overlapping(c) == reopened + [Recover(2, "t", true), Step.Record(c, "t", true)];
  }

  lemma OverlapEnds(kit: Store.Kit, before: seq<Step>, c: nat, auth: Option<Grant>)
    requires forall r: Store.Record :: kit.view.shape(r).None?
    requires InFlight(Run(kit, before), c, auth) && Run(kit, before).sessions.Keys == {0}
    ensures var rows := Run(kit, before + Overlapping(c)).db.envelopes;
      |rows| == 2 && ClosesAndCites(rows[0], auth) && ClosesAndCites(rows[1], auth)
    ensures Run(kit, before + Overlapping(c)).history == Run(kit, before).history
  {
    var s := Run(kit, before);
    RunOverlapping(kit, before, c);
    OverlapReopens(kit, s, c, auth);
    var reopened := Apply(kit, Apply(kit, s, Step.Open(2, "s", "k")), ReadOpen(2, ["i"]));
    OverlapRecovers(kit, reopened, c, auth);
    OverlapRecords(kit, Apply(kit, reopened, Recover(2, "t", true)), c, auth);
  }

  // ---- up to the forward ----

  const SERVING: State := INITIAL.(sessions := map[0 := Session("s", "k", Serving)])

  function Opened(): seq<Step> {
    [Step.Open(0, "s", "k"), ReadOpen(0, []), Serve(0)]
  }

  lemma OverlapOpens(kit: Store.Kit)
    ensures Run(kit, Opened()) == SERVING
  {
    RunThen(kit, [], Step.Open(0, "s", "k"));
    RunThenTwo(kit, [Step.Open(0, "s", "k")], ReadOpen(0, []), Serve(0));
    assert [] + [Step.Open(0, "s", "k")] == [Step.Open(0, "s", "k")];
    assert Opened() == [Step.Open(0, "s", "k")] + [ReadOpen(0, []), Serve(0)];
    var s1 := Apply(kit, INITIAL, Step.Open(0, "s", "k"));
    var s2 := Apply(kit, s1, ReadOpen(0, []));
    assert s2.sessions[0].phase == Recovering([]);
    assert Apply(kit, s2, Serve(0)).sessions == SERVING.sessions;
  }

  /** A thread about to act, and nothing written. */
  ghost predicate AboutToAct(s: State, c: nat, auth: Option<Grant>) {
    && c in s.threads && s.threads[c].pc == Ready(auth) && s.threads[c].stream == "s" && s.threads[c].key == "k"
    && !s.threads[c].folds && s.db.intents == map[] && s.db.envelopes == [] && s.sessions.Keys == {0}
  }

  lemma OverlapWrites(kit: Store.Kit, s: State, c: nat, auth: Option<Grant>)
    requires AboutToAct(s, c, auth)
    ensures var n := Apply(kit, s, WriteAhead(c, "i", "t", true));
      && n.threads == s.threads[c := s.threads[c].(pc := Ahead(auth, "i"))] && n.sessions == s.sessions
      && n.db.intents.Keys == {"i"} && Store.IsOpen(n.db, "i", "s", "k") && n.db.envelopes == []
      && Citations.Cites(n.db.intents["i"].draft.content) == auth && n.history.forwards == s.history.forwards
  {
    Citations.EffectCites("k", s.threads[c].fields, "attempted", auth, "t");
  }

  lemma OverlapActs(kit: Store.Kit, s: State, c: nat, auth: Option<Grant>)
    requires AboutToAct(s, c, auth)
    ensures var n := Apply(kit, Apply(kit, s, WriteAhead(c, "i", "t", true)), Forward(c, Returned));
      InFlight(n, c, auth) && n.sessions == s.sessions
      && n.history.forwards == s.history.forwards + [Forwarded(c, auth, Some("i"), Returned)]
  {
    OverlapWrites(kit, s, c, auth);
    AheadForwards(Apply(kit, s, WriteAhead(c, "i", "t", true)), c, auth);
  }

  lemma AheadForwards(s: State, c: nat, auth: Option<Grant>)
    requires c in s.threads && s.threads[c].pc == Ahead(auth, "i")
    ensures DoForward(s, c, Returned)
      == At(s.(history := s.history.(forwards := s.history.forwards + [Forwarded(c, auth, Some("i"), Returned)])), c, Ran(auth, Some("i"), false))
  {
  }

  // ---- an ungated call ----

  function UngatedSchedule(): seq<Step> {
    Opened() + [Begin(1, 0, map[], false, false, [])] + [WriteAhead(1, "i", "t", true), Forward(1, Returned)] + Overlapping(1)
  }

  /** The overlap is real: one effect, two envelopes, both of which close its one record. */
  lemma OverlapDoubles(kit: Store.Kit)
    requires forall r: Store.Record :: kit.view.shape(r).None?
    ensures var rows := Run(kit, UngatedSchedule()).db.envelopes; |rows| == 2 && Closes(rows[0], "i") && Closes(rows[1], "i")
    ensures |Run(kit, UngatedSchedule()).history.forwards| == 1
  {
    OverlapOpens(kit);
    var begun := Opened() + [Begin(1, 0, map[], false, false, [])];
    RunThen(kit, Opened(), Begin(1, 0, map[], false, false, []));
    assert AboutToAct(Run(kit, begun), 1, None);
    OverlapActs(kit, Run(kit, begun), 1, None);
    RunThenTwo(kit, begun, WriteAhead(1, "i", "t", true), Forward(1, Returned));
    OverlapEnds(kit, begun + [WriteAhead(1, "i", "t", true), Forward(1, Returned)], 1, None);
  }

  // ---- a gated call ----

  /** The call asks and is parked, its request is decided, and it comes back. */
  function Asked(kit: Store.Kit, g: Grant, approvers: seq<Approver>): seq<Step> {
    Opened() + [Begin(1, 0, g.request, true, false, approvers)] + [Locate(1), Park(1, g.request, "")]
    + [Decide(kit.hash(g.request), g.decision), Begin(3, 0, g.request, true, false, approvers)]
  }

  function Approved(kit: Store.Kit, g: Grant, approvers: seq<Approver>, at: string): seq<Step> {
    Asked(kit, g, approvers) + [Locate(3), Check(3, at)] + [Step.Claim(3, "t"), Spend(3, "t")]
  }

  function GatedSchedule(kit: Store.Kit, g: Grant, approvers: seq<Approver>, at: string): seq<Step> {
    Approved(kit, g, approvers, at) + [WriteAhead(3, "i", "t", true), Forward(3, Returned)] + Overlapping(3)
  }

  function Answered(kit: Store.Kit, g: Grant): Store.Parked {
    Store.Parked(kit.hash(g.request), g.request, "", Some(g.decision), None)
  }

  lemma AskedParks(kit: Store.Kit, s: State, g: Grant)
    requires 1 in s.threads && s.threads[1].pc.Asking? && s.threads[1].fields == g.request && s.threads.Keys == {1}
    requires s.db == Store.EMPTY && s.clock == ""
    ensures var n := Apply(kit, Apply(kit, s, Locate(1)), Park(1, g.request, ""));
      n == s.(threads := map[], db := Store.EMPTY.(parked := [Store.Parked(kit.hash(g.request), g.request, "", None, None)]))
  {
    assert LexLe("", "");
    assert Apply(kit, s, Locate(1)) == At(s, 1, Parking);
    var n := Apply(kit, Apply(kit, s, Locate(1)), Park(1, g.request, ""));
    assert Store.ByAge([]) == [] && Store.Without([], kit.hash(g.request)) == [];
    assert n.db.parked == [Store.Parked(kit.hash(g.request), g.request, "", None, None)];
    assert n.threads == map[];
  }

  /** Back after the decision. */
  ghost predicate Back(kit: Store.Kit, s: State, g: Grant, approvers: seq<Approver>, pc: Pc) {
    && s.threads == map[3 := Thread(0, "s", "k", g.request, false, approvers, pc)] && s.sessions == SERVING.sessions
    && s.db == Store.EMPTY.(parked := [Answered(kit, g)]) && s.history.forwards == []
  }

  lemma BeganAsking(kit: Store.Kit, g: Grant, approvers: seq<Approver>)
    ensures var s := Run(kit, Opened() + [Begin(1, 0, g.request, true, false, approvers)]);
      && s.threads == map[1 := Thread(0, "s", "k", g.request, false, approvers, Asking)] && s.sessions == SERVING.sessions
      && s.db == Store.EMPTY && s.clock == "" && s.history.forwards == [] && s.history.callers == {1} && s.history.seeders == {}
  {
    OverlapOpens(kit);
    RunThen(kit, Opened(), Begin(1, 0, g.request, true, false, approvers));
  }

  lemma AnsweredComesBack(kit: Store.Kit, s: State, g: Grant, approvers: seq<Approver>)
    requires s.threads == map[] && s.sessions == SERVING.sessions && s.history.forwards == []
    requires s.history.callers == {1} && s.history.seeders == {}
    requires s.db == Store.EMPTY.(parked := [Store.Parked(kit.hash(g.request), g.request, "", None, None)])
    ensures Back(kit, Apply(kit, Apply(kit, s, Decide(kit.hash(g.request), g.decision)), Begin(3, 0, g.request, true, false, approvers)),
                 g, approvers, Asking)
  {
    var n := Apply(kit, s, Decide(kit.hash(g.request), g.decision));
    assert n.db.parked == [Answered(kit, g)];
  }

  lemma AskedComesBack(kit: Store.Kit, g: Grant, approvers: seq<Approver>)
    ensures Back(kit, Run(kit, Asked(kit, g, approvers)), g, approvers, Asking)
  {
    var begun := Opened() + [Begin(1, 0, g.request, true, false, approvers)];
    BeganAsking(kit, g, approvers);
    RunThenTwo(kit, begun, Locate(1), Park(1, g.request, ""));
    AskedParks(kit, Run(kit, begun), g);
    var parked := begun + [Locate(1), Park(1, g.request, "")];
    RunThenTwo(kit, parked, Decide(kit.hash(g.request), g.decision), Begin(3, 0, g.request, true, false, approvers));
    AnsweredComesBack(kit, Run(kit, parked), g, approvers);
  }

  lemma BackFinds(kit: Store.Kit, s: State, g: Grant, approvers: seq<Approver>)
    requires Back(kit, s, g, approvers, Asking)
    ensures Back(kit, Apply(kit, s, Locate(3)), g, approvers, Found(Answered(kit, g)))
  {
    var row := Answered(kit, g);
    assert Store.ByAge([row]) == [row] by { assert [row][..0] == []; }
    assert Store.FirstDecided([row], g.request) == Some(row);
  }

  lemma FoundPasses(kit: Store.Kit, s: State, c: nat, row: Store.Parked, at: string)
    requires c in s.threads && s.threads[c].pc == Found(row) && row.decision.Some?
    requires CheckGrant(kit, GrantOf(row), s.threads[c].approvers, SeenOf(s.db, row.hash), at).Ok?
    ensures DoCheck(kit, s, c, at) == At(s, c, Passed(row, at))
  {
  }

  lemma BackMoves(kit: Store.Kit, s: State, g: Grant, approvers: seq<Approver>, was: Pc, pc: Pc)
    requires Back(kit, s, g, approvers, was)
    ensures Back(kit, At(s, 3, pc), g, approvers, pc)
  {
  }

  lemma BackPasses(kit: Store.Kit, s: State, g: Grant, approvers: seq<Approver>, at: string)
    requires Back(kit, s, g, approvers, Found(Answered(kit, g))) && CheckGrant(kit, g, approvers, {}, at).Ok?
    ensures Back(kit, DoCheck(kit, s, 3, at), g, approvers, Passed(Answered(kit, g), at))
  {
    assert SeenOf(s.db, kit.hash(g.request)) == {};
    FoundPasses(kit, s, 3, Answered(kit, g), at);
    BackMoves(kit, s, g, approvers, Found(Answered(kit, g)), Passed(Answered(kit, g), at));
  }

  lemma BackSpends(kit: Store.Kit, s: State, g: Grant, approvers: seq<Approver>, at: string)
    requires Back(kit, s, g, approvers, Passed(Answered(kit, g), at))
    ensures var n := Apply(kit, Apply(kit, s, Step.Claim(3, "t")), Spend(3, "t"));
      AboutToAct(n, 3, Some(g)) && n.history.forwards == []
  {
    assert GrantOf(Answered(kit, g)) == g;
    var won := Apply(kit, s, Step.Claim(3, "t"));
    assert won.threads[3].pc == Won(Answered(kit, g)) && won.db.intents == map[] && won.db.envelopes == [];
  }

  lemma CheckIsStep(kit: Store.Kit, s: State, c: nat, at: string)
    ensures Apply(kit, s, Check(c, at)) == DoCheck(kit, s, c, at)
  {
  }

  lemma ApprovedPasses(kit: Store.Kit, g: Grant, approvers: seq<Approver>, at: string)
    requires CheckGrant(kit, g, approvers, {}, at).Ok?
    ensures Back(kit, Run(kit, Asked(kit, g, approvers) + [Locate(3), Check(3, at)]), g, approvers, Passed(Answered(kit, g), at))
  {
    var asked := Asked(kit, g, approvers);
    AskedComesBack(kit, g, approvers);
    RunThenTwo(kit, asked, Locate(3), Check(3, at));
    BackFinds(kit, Run(kit, asked), g, approvers);
    var found := Apply(kit, Run(kit, asked), Locate(3));
    CheckIsStep(kit, found, 3, at);
    BackPasses(kit, found, g, approvers, at);
  }

  lemma ApprovedActs(kit: Store.Kit, g: Grant, approvers: seq<Approver>, at: string)
    requires CheckGrant(kit, g, approvers, {}, at).Ok?
    ensures AboutToAct(Run(kit, Approved(kit, g, approvers, at)), 3, Some(g))
    ensures Run(kit, Approved(kit, g, approvers, at)).history.forwards == []
  {
    var passed := Asked(kit, g, approvers) + [Locate(3), Check(3, at)];
    ApprovedPasses(kit, g, approvers, at);
    RunThenTwo(kit, passed, Step.Claim(3, "t"), Spend(3, "t"));
    BackSpends(kit, Run(kit, passed), g, approvers, at);
  }

  lemma PassedApproves(kit: Store.Kit, g: Grant, approvers: seq<Approver>, at: string)
    requires CheckGrant(kit, g, approvers, {}, at).Ok?
    ensures !Citations.Denies(g)
  {
    LocalPasses(kit.hash, Gate.Envelope(g.request, Text(at), Some(AsAuthorization(g))), approvers, {}, at);
  }

  /** Under an overlap any approval that passes its check can be cited by two envelopes, of one forwarded call. */
  lemma OverlapCitesTwice(kit: Store.Kit, g: Grant, approvers: seq<Approver>, at: string)
    requires forall r: Store.Record :: kit.view.shape(r).None?
    requires CheckGrant(kit, g, approvers, {}, at).Ok?
    ensures var s, h := Run(kit, GatedSchedule(kit, g, approvers, at)), kit.hash(g.request);
      && |s.db.envelopes| == 2 && |s.history.forwards| == 1
      && Accounts.CitesApproval(kit, s.db.envelopes[0], h) && Accounts.CitesApproval(kit, s.db.envelopes[1], h)
  {
    var approved := Approved(kit, g, approvers, at);
    ApprovedActs(kit, g, approvers, at);
    OverlapActs(kit, Run(kit, approved), 3, Some(g));
    RunThenTwo(kit, approved, WriteAhead(3, "i", "t", true), Forward(3, Returned));
    OverlapEnds(kit, approved + [WriteAhead(3, "i", "t", true), Forward(3, Returned)], 3, Some(g));
    PassedApproves(kit, g, approvers, at);
  }

  lemma StandsAndIsTimely(kit: Store.Kit, g: Grant, approvers: seq<Approver>, at: string)
    requires LocalStanding(kit.hash(g.request), g.request, g.decision, approvers).None?
    requires TimingFault(g.request, g.decision, Text(at)).None?
    ensures CheckGrant(kit, g, approvers, {}, at).Ok?
  {
  }

  function AnApproval(kit: Store.Kit, at: string): Grant {
    var request: Members := map["key" := Text("k"), "not-after" := Text(at)];
    Grant(request, Decision(map["request-hash" := Text(kit.hash(request)), "decision" := Text("approve"),
                                "decided-at" := Text(at), "not-after" := Text(at)], Some("h")))
  }

  lemma AnApprovalStands(kit: Store.Kit, at: string)
    ensures var g := AnApproval(kit, at); LocalStanding(kit.hash(g.request), g.request, g.decision, [Approver("h", None)]).None?
  {
    assert "k" != "h" && "approve" != "deny";
  }

  lemma AnApprovalIsTimely(kit: Store.Kit, at: string)
    requires IsTimestamp(at)
    ensures var g := AnApproval(kit, at); TimingFault(g.request, g.decision, Text(at)).None?
  {
    LexTotal(at, at);
    assert WindowFault(at, at, at, at).None?;
  }

  /** There are such approvals, whatever the hash. */
  lemma SomeApprovalPasses(kit: Store.Kit) returns (g: Grant, approvers: seq<Approver>, at: string)
    ensures CheckGrant(kit, g, approvers, {}, at).Ok?
  {
    EveryInstantIsSpelled(0, 0);
    at :| IsTimestamp(at);
    g, approvers := AnApproval(kit, at), [Approver("h", None)];
    AnApprovalStands(kit, at);
    AnApprovalIsTimely(kit, at);
    StandsAndIsTimely(kit, g, approvers, at);
  }
}
