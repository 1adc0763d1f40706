/** Business versions, decisions, operations, committed versions and commit events. */
module Accounting {
  import opened Core
  import opened Database
  import opened Transactions
  import opened Invariants
  import opened Safety
  import opened Protocol
  import S = Scenarios
  import P = Proposals
  import Comparisons

  /** From a seeded store on, each business's version is its first version plus its number of
      decisions, and the committed versions fill the range between, each exactly once. */
  lemma VersionsCountDecisions(build: Build, db: Db, steps: seq<Step>, b: Id)
    requires Seeded(db) && b in db.businesses
    ensures var end := Run(build, System(db, map[]), steps).db;
            && b in end.businesses
            && end.businesses[b].version == db.businesses[b].version + |DecisionsOf(end.decisions, b)|
            && (forall v: nat ::
                  CommittedAt(end.decisions, b, v) <==> db.businesses[b].version < v <= end.businesses[b].version)
            && (forall d, e :: d in end.decisions && e in end.decisions && SameSlot(end.decisions[d], end.decisions[e])
                  ==> d == e)
  {
    var start := StartOf(db);
    var end := Run(build, System(db, map[]), steps).db;
    SeededInv(db);
    RunKeepsInv(start, build, System(db, map[]), steps);
    assert HistoryInv(start, end.businesses, end.decisions);
    assert Fills(end.decisions, b, start[b], end.businesses[b].version);
    forall v: nat | CommittedAt(end.decisions, b, v) ensures start[b] < v <= end.businesses[b].version {
      var d :| d in end.decisions && end.decisions[d].business == b && end.decisions[d].committed == v;
      assert InHistory(start, end.businesses, end.decisions[d]);
    }
  }

  /** One commit, seen in four tables: its operation, its decision, its version row and its event. */
  ghost predicate OneCommit(db: Db, ik: IdempotencyKey, d: DecisionId, k: VersionKey, i: nat) {
    && ik in db.operations && d in db.decisions && k in db.versions && i < |db.audits|
    && var op := db.operations[ik].operation;
       && d == DecisionFor(op.id) && op.versionId == db.decisions[d].versionId
       && Enacts(db.proposals, db.decisions[d], k, db.versions[k])
       && Announces(db.audits[i], ik, op)
  }

  lemma OperationHasCommit(start: map<Id, nat>, db: Db, ik: IdempotencyKey)
    returns (d: DecisionId, k: VersionKey, i: nat)
    requires DbInv(start, db) && ik in db.operations
    ensures OneCommit(db, ik, d, k, i)
  {
    var op := db.operations[ik].operation;
    assert OperationDone(ik, db.operations[ik], db.decisions);
    d := DecisionFor(op.id);
    assert Enacted(db.proposals, db.versions, db.decisions[d]);
    k :| k in db.versions && Enacts(db.proposals, db.decisions[d], k, db.versions[k]);
    assert Announced(db.audits, ik, op);
    i :| 0 <= i < |db.audits| && Announces(db.audits[i], ik, op);
  }

  lemma DecisionHasCommit(start: map<Id, nat>, db: Db, d: DecisionId)
    returns (ik: IdempotencyKey, k: VersionKey, i: nat)
    requires DbInv(start, db) && d in db.decisions
    ensures OneCommit(db, ik, d, k, i)
  {
    assert OperationIdUsed(db.operations, d.operation);
    ik :| ik in db.operations && db.operations[ik].operation.id == d.operation;
    var e;
    e, k, i := OperationHasCommit(start, db, ik);
  }

  lemma VersionHasCommit(start: map<Id, nat>, db: Db, k: VersionKey) returns (ik: IdempotencyKey, d: DecisionId, i: nat)
    requires DbInv(start, db) && k in db.versions && db.versions[k].version.status == P.Committed
    ensures OneCommit(db, ik, d, k, i)
  {
    assert HasDecision(db.decisions, db.versions[k].version.id);
    d :| d in db.decisions && db.decisions[d].versionId == db.versions[k].version.id;
    var l;
    ik, l, i := DecisionHasCommit(start, db, d);
    assert l == k;
  }

  lemma EventHasCommit(start: map<Id, nat>, db: Db, i: nat) returns (ik: IdempotencyKey, d: DecisionId, k: VersionKey)
    requires DbInv(start, db) && i < |db.audits| && db.audits[i].action == CommitExecuted
    ensures OneCommit(db, ik, d, k, i)
  {
    assert AnnouncesOne(db.operations, db.audits[i]);
    ik :| ik in db.operations && Announces(db.audits[i], ik, db.operations[ik].operation);
    var j;
    d, k, j := OperationHasCommit(start, db, ik);
    assert db.audits[i].id == db.audits[j].id;
  }

  /** The four tables are in one-to-one correspondence: commits that share an entry in one
      of them share their entries in all of them. */
  lemma CommitsCorrespond(start: map<Id, nat>, db: Db,
                          ik: IdempotencyKey, d: DecisionId, k: VersionKey, i: nat,
                          ik': IdempotencyKey, d': DecisionId, k': VersionKey, i': nat)
    requires DbInv(start, db) && OneCommit(db, ik, d, k, i) && OneCommit(db, ik', d', k', i')
    ensures ik == ik' <==> d == d'
    ensures d == d' <==> k == k'
    ensures k == k' <==> i == i'
  {
    if i == i' {
      assert db.operations[ik].operation.id == db.operations[ik'].operation.id;
    }
    if ik == ik' {
      assert db.audits[i].id == db.audits[i'].id;
    }
  }

  /** Every decision V+1 enacts a version based on V, whose scenario has base V and a result
      that a simulation of some draft produced. */
  lemma DecisionProvenance(start: map<Id, nat>, db: Db, d: DecisionId) returns (k: VersionKey)
    requires DbInv(start, db) && d in db.decisions
    ensures k in db.versions && k.proposal in db.proposals && Enacts(db.proposals, db.decisions[d], k, db.versions[k])
    ensures db.versions[k].version.base + 1 == db.decisions[d].committed
    ensures var id := db.versions[k].version.scenario;
            && id in db.scenarios && db.scenarios[id].scenario.base + 1 == db.decisions[d].committed
            && db.scenarios[id].scenario.business == db.decisions[d].business
            && db.scenarios[id].scenario.status == S.Simulated && db.scenarios[id].scenario.result.calculated
            && Comparisons.Justified(db.scenarios[id].scenario)
  {
    assert Enacted(db.proposals, db.versions, db.decisions[d]);
    k :| k in db.versions && Enacts(db.proposals, db.decisions[d], k, db.versions[k]);
    assert Grounded(db.scenarios, db.proposals, k, db.versions[k]);
    assert SimulatedSoundly(db.scenarios[db.versions[k].version.scenario].scenario);
  }

  /** Of all versions of all proposals of a business based on one business version, at most one is ever committed. */
  lemma OneCommitPerBase(start: map<Id, nat>, db: Db, k: VersionKey, l: VersionKey)
    requires DbInv(start, db) && k in db.versions && l in db.versions
    requires k.proposal in db.proposals && l.proposal in db.proposals
    requires db.proposals[k.proposal].business == db.proposals[l.proposal].business
    requires db.versions[k].version.base == db.versions[l].version.base
    requires db.versions[k].version.status == P.Committed && db.versions[l].version.status == P.Committed
    ensures k == l
  {
    hide NumberingInv, ScenarioInv, ReferenceInv, SoundInv, ChainInv, ApprovalInv, OperationInv, DecisionInv, FoldInv;
    hide AuditInv, ConstraintInv, Announces;
    var ik, d, i := VersionHasCommit(start, db, k);
    var jk, e, j := VersionHasCommit(start, db, l);
    assert SameSlot(db.decisions[d], db.decisions[e]);
    CommitsCorrespond(start, db, ik, d, k, i, jk, e, l, j);
  }

  lemma CommitReplacesReserved(build: Build, db: Db, input: CommitInput, expected: Option<nat>, now: int)
    requires NumberingInv(db.proposals, db.versions) && (expected.Some? ==> Reserved(db, input, expected))
    requires CommitApply(build, db, input, expected, now).Success?
    ensures var after := CommitApply(build, db, input, expected, now).value.0;
            var key := IdempotencyKey(input.org, input.key);
            && input.business in db.businesses && input.business in after.businesses && key in after.operations
            && expected == Some(db.businesses[input.business].version)
            && after.businesses[input.business].version == db.businesses[input.business].version + 1
            && after.operations[key].operation.expected == db.businesses[input.business].version
            && after.operations[key].committed == Some(after.businesses[input.business].version)
  {
    ReservedVersionIsLocked(build, db, input, expected, now);
  }

  /** In every reachable system a commit that succeeds records, locks and replaces one and
      the same business version, whatever ran since its reservation. */
  lemma ReservationHolds(start: map<Id, nat>, build: Build, s: System, c: nat)
    requires SysInv(start, s) && Effect(build, s, ApplyCommit(c)).Success?
    ensures c in s.clients && s.clients[c].CommitReserved?
    ensures var p, after := s.clients[c], Effect(build, s, ApplyCommit(c)).value;
            var b, key := p.input.business, IdempotencyKey(p.input.org, p.input.key);
            && b in s.db.businesses && b in after.businesses && key in after.operations
            && p.expected == Some(s.db.businesses[b].version)
            && after.businesses[b].version == s.db.businesses[b].version + 1
            && after.operations[key].operation.expected == s.db.businesses[b].version
            && after.operations[key].committed == Some(after.businesses[b].version)
  {
    hide CommitApply, Reserved, NumberingInv, ScenarioInv, ReferenceInv, SoundInv, ChainInv, ApprovalInv;
    hide OperationInv, DecisionInv, HistoryInv, FoldInv, AuditInv;
    var p := s.clients[c];
    assert PendingInv(s.db, p);
    CommitReplacesReserved(build, s.db, p.input, p.expected, p.now);
  }
}
