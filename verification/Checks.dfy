/** The validators and the consistency check, as the source runs them. */
module Checks {
  import opened Lifecycle
  import opened Ordered
  import opened Domain
  import opened Store

  method ValidateRules(rules: seq<Rule>, edges: seq<Edge>) returns (ok: bool)
    ensures ok <==> forall r :: r in rules ==> r.Valid() && Edge(r.from, r.to) in edges
  {
    var i := 0;
    while i < |rules|
      invariant 0 <= i <= |rules|
      invariant forall k :: 0 <= k < i ==> rules[k].Valid() && Edge(rules[k].from, rules[k].to) in edges
    {
      if !rules[i].Valid() || Edge(rules[i].from, rules[i].to) !in edges {
        return false;
      }
      i := i + 1;
    }
    return true;
  }

  method ValidatePolicy(p: Policy) returns (ok: bool)
    ensures ok <==> p.Valid()
  {
    hide Accepts, Rule.Valid, IsValidName;
    if p.id == 0 || p.generation == 0 || !IsValidName(p.name) || |p.rules| > MAX_RULES {
      return false;
    }
    var graph := Validate(p.edges, p.entry);
    if !graph {
      return false;
    }
    var rules := ValidateRules(p.rules, p.edges);
    return rules && |p.rules| > 0;
  }

  // ----- The consistency check -----

  method CheckChain(id: Id, chain: seq<Artifact>) returns (ok: bool)
    ensures ok <==> ChainConsistent(id, chain)
  {
    hide RevisionConsistent;
    if id == 0 || chain == [] {
      return false;
    }
    var seen: set<Id> := {};
    var i := 0;
    while i < |chain|
      invariant 0 <= i <= |chain|
      invariant forall k :: 0 <= k < i ==> RevisionConsistent(id, k, chain[k])
      invariant seen == set k | 0 <= k < i :: chain[k].revision
      invariant DistinctRevisions(chain[..i])
    {
      if chain[i].revision in seen {
        assert exists k :: 0 <= k < i && chain[k].revision == chain[i].revision;
        return false;
      }
      if !RevisionConsistent(id, i, chain[i]) {
        return false;
      }
      seen := seen + {chain[i].revision};
      i := i + 1;
    }
    assert chain[..i] == chain;
    return true;
  }

  method CheckArtifacts(artifacts: map<Id, seq<Artifact>>) returns (ok: bool)
    ensures ok <==> ArtifactsConsistent(artifacts)
  {
    hide ChainConsistent;
    var todo := artifacts.Keys;
    while todo != {}
      invariant todo <= artifacts.Keys
      invariant forall id :: id in artifacts && id !in todo ==> ChainConsistent(id, artifacts[id])
      decreases |todo|
    {
      var id :| id in todo;
      var good := CheckChain(id, artifacts[id]);
      if !good {
        return false;
      }
      todo := todo - {id};
    }
    return true;
  }

  method CheckEvidence(artifacts: map<Id, seq<Artifact>>, evidence: map<Id, Evidence>) returns (ok: bool)
    ensures ok <==> EvidenceConsistent(artifacts, evidence)
  {
    hide EvidenceRecordConsistent;
    var todo := evidence.Keys;
    while todo != {}
      invariant todo <= evidence.Keys
      invariant forall id :: id in evidence && id !in todo ==> EvidenceRecordConsistent(artifacts, id, evidence[id])
      decreases |todo|
    {
      var id :| id in todo;
      if !EvidenceRecordConsistent(artifacts, id, evidence[id]) {
        return false;
      }
      todo := todo - {id};
    }
    return true;
  }

  method CheckPlans(plans: map<Id, Plan>) returns (ok: bool)
    ensures ok <==> PlansConsistent(plans)
  {
    hide Plan.Valid;
    var todo := plans.Keys;
    while todo != {}
      invariant todo <= plans.Keys
      invariant forall id :: id in plans && id !in todo ==> plans[id].id == id && plans[id].Valid()
      decreases |todo|
    {
      var id :| id in todo;
      if plans[id].id != id || !plans[id].Valid() {
        return false;
      }
      todo := todo - {id};
    }
    return true;
  }

  method CheckDecisions(decisions: map<Id, Decision>) returns (ok: bool)
    ensures ok <==> DecisionsConsistent(decisions)
  {
    var todo := decisions.Keys;
    while todo != {}
      invariant todo <= decisions.Keys
      invariant forall id :: id in decisions && id !in todo ==>
                  id != 0 && decisions[id].id == id && decisions[id].outcome != NoOutcome
      decreases |todo|
    {
      var id :| id in todo;
      if id == 0 || decisions[id].id != id || decisions[id].outcome == NoOutcome {
        return false;
      }
      todo := todo - {id};
    }
    return true;
  }

  method CheckRecords(artifacts: map<Id, seq<Artifact>>, records: map<Id, Record>) returns (ok: bool)
    ensures ok <==> RecordsConsistent(artifacts, records)
  {
    hide RecordConsistent;
    var todo := records.Keys;
    while todo != {}
      invariant todo <= records.Keys
      invariant forall id :: id in records && id !in todo ==> RecordConsistent(artifacts, id, records[id])
      decreases |todo|
    {
      var id :| id in todo;
      if !RecordConsistent(artifacts, id, records[id]) {
        return false;
      }
      todo := todo - {id};
    }
    return true;
  }

  /** In key order, so the comparison with the previous sequence never fails on a map. */
  method CheckHistory(history: map<nat, Event>) returns (ok: bool)
    ensures ok <==> HistoryConsistent(history)
  {
    var previous := 0;
    var todo := history.Keys;
    while todo != {}
      invariant todo <= history.Keys
      invariant forall q :: q in history && q !in todo ==> q != 0 && history[q].sequence == q
      invariant previous != 0 ==> forall q :: q in todo ==> previous < q
      decreases |todo|
    {
      var q := FirstKey(todo);
      if q == 0 || history[q].sequence != q {
        return false;
      }
      if previous != 0 && !(previous < q) {
        return false;
      }
      previous := q;
      todo := todo - {q};
    }
    return true;
  }

  method CheckTrustChain(artifacts: map<Id, seq<Artifact>>, decisions: set<Id>, chain: seq<Artifact>) returns (ok: bool)
    ensures ok <==> forall i :: 0 <= i < |chain| ==> TrustRecordConsistent(artifacts, decisions, chain[i])
  {
    hide TrustRecordConsistent;
    var i := 0;
    while i < |chain|
      invariant 0 <= i <= |chain|
      invariant forall k :: 0 <= k < i ==> TrustRecordConsistent(artifacts, decisions, chain[k])
    {
      if !TrustRecordConsistent(artifacts, decisions, chain[i]) {
        return false;
      }
      i := i + 1;
    }
    return true;
  }

  method CheckTrust(artifacts: map<Id, seq<Artifact>>, decisions: set<Id>) returns (ok: bool)
    ensures ok <==> TrustConsistent(artifacts, decisions)
  {
    hide TrustRecordConsistent;
    var todo := artifacts.Keys;
    while todo != {}
      invariant todo <= artifacts.Keys
      invariant forall id, i :: id in artifacts && id !in todo && 0 <= i < |artifacts[id]| ==>
                  TrustRecordConsistent(artifacts, decisions, artifacts[id][i])
      decreases |todo|
    {
      var id :| id in todo;
      var good := CheckTrustChain(artifacts, decisions, artifacts[id]);
      if !good {
        return false;
      }
      todo := todo - {id};
    }
    return true;
  }

  method VerifyConsistency(s: State) returns (ok: bool)
    ensures ok <==> Consistent(s)
  {
    hide Policy.Valid, ArtifactsConsistent, EvidenceConsistent, PlansConsistent, DecisionsConsistent, RecordsConsistent,
         HistoryConsistent, TrustConsistent;
    if s.coordinator == 0 || s.epoch == 0 {
      return false;
    }
    if s.policy.id != s.activePolicy || s.policy.generation != s.activeGeneration || s.policy.digest != s.activeDigest {
      return false;
    }
    ok := ValidatePolicy(s.policy);
    if !ok { return; }
    ok := CheckArtifacts(s.artifacts);
    if !ok { return; }
    ok := CheckEvidence(s.artifacts, s.evidence);
    if !ok { return; }
    ok := CheckPlans(s.plans);
    if !ok { return; }
    ok := CheckDecisions(s.decisions);
    if !ok { return; }
    ok := CheckRecords(s.artifacts, s.records);
    if !ok { return; }
    ok := CheckHistory(s.history);
    if !ok { return; }
    ok := CheckTrust(s.artifacts, s.decisions.Keys);
  }
}
