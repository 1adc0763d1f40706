/** A run in which one proposal lives as long as any can: the bounds on versions and events are reached. */
module Longest {
  import opened Core
  import opened Text
  import opened Database
  import opened Transactions
  import opened Workflow
  import opened Invariants
  import opened Protocol
  import opened Finishing
  import opened Revising
  import opened Completion
  import Lives
  import S = Scenarios

  const LAST_REVISION := 416

  /** Ids of two letters. */
  function IdAt(n: nat): Id
    requires n < 1024
  {
    [(65 + n / 32) as char, (65 + n % 32) as char]
  }

  lemma IdsDiffer(m: nat, n: nat)
    requires m < n < 1024
    ensures IdAt(m) != IdAt(n)
  {
    assert m / 32 != n / 32 || m % 32 != n % 32;
    assert IdAt(m)[0] != IdAt(n)[0] || IdAt(m)[1] != IdAt(n)[1];
  }

  lemma IdIsValid(n: nat)
    requires n < 1024
    ensures ValidId(IdAt(n)) && |IdAt(n)| == 2
  {
    TrimSpaceFixpoint(IdAt(n));
  }

  /** The same word again and again, each time under a new id. */
  function Pieces(x: string, n: nat): seq<Piece>
    requires n < 1024
  {
    if n == 0 then [] else Pieces(x, n - 1) + [Piece(x, IdAt(n - 1), IdAt(n - 1))]
  }

  lemma {:induction false} PiecesAre(x: string, n: nat)
    requires n < 1024
    ensures |Pieces(x, n)| == n && forall i :: 0 <= i < n ==> Pieces(x, n)[i] == Piece(x, IdAt(i), IdAt(i))
  {
    if n > 0 {
      PiecesAre(x, n - 1);
    }
  }

  lemma NoText()
    ensures TextOf([]) == ""
  {
  }

  lemma {:induction false} PiecesLength(x: string, n: nat, each: nat)
    requires n < 1024 && |Marked(x)| == each
    ensures |TextOf(Pieces(x, n))| == n * each
  {
    hide TextOf, Marked, IdAt;
    if n == 0 {
      NoText();
    } else {
      PiecesLength(x, n - 1, each);
      TextOfMore(Pieces(x, n - 1), Piece(x, IdAt(n - 1), IdAt(n - 1)));
      assert (n - 1) * each + each == n * each;
    }
  }

  predicate Fresh(db: Db, proposal: Id, n: nat)
    requires n < 1024
  {
    !VersionIdUsed(db.versions, IdAt(n)) && !AuditIdUsed(db.audits, ProposalAudit(proposal, ProposalRevised, IdAt(n)))
  }

  lemma PiecesAreNew(db: Db, actor: Actor, proposal: Id, x: string, n: nat)
    requires n < 1024 && ValidText(x) && ValidId(actor.org) && ValidId(actor.id) && ValidId(proposal)
    requires forall i :: 0 <= i < n ==> Fresh(db, proposal, i)
    ensures NewPieces(db, actor, proposal, Pieces(x, n))
  {
    PiecesAre(x, n);
    var pieces := Pieces(x, n);
    forall i | 0 <= i < n ensures NewPiece(db, actor, proposal, pieces[i]) {
      IdIsValid(i);
      assert Fresh(db, proposal, i);
    }
    forall i, j | 0 <= i < j < n
      ensures pieces[i].version != pieces[j].version && pieces[i].request != pieces[j].request
    {
      IdsDiffer(i, j);
    }
  }

  // ---- From the proposal to the last revision ----

  lemma ProposedIsRevisable(a: Db, db: Db, plan: Plan, c: S.Scenario)
    requires SoundWords(plan) && Acts(a, plan) && Proposed(a, db, plan, c)
    ensures Revisable(db, plan.finish.actor, "", plan.finish.proposal)
    ensures Current(db, plan.finish.proposal) == FirstOf(plan)
  {
    hide SoundFinish, ShowsGoal, LogOf;
    assert FirstKey(plan) in db.versions;
  }

  lemma TwoLettersAreFresh(db: Db, plan: Plan, x: string, c: S.Scenario, n: nat)
    requires n < 1024 && |x| == 1 && plan == PlanFor(x) && Proposed(StoreFor(x), db, plan, c)
    ensures Fresh(db, plan.finish.proposal, n)
  {
    IdIsValid(n);
    assert StoreFor(x).audits == [];
    forall i | 0 <= i < |db.audits|
      ensures db.audits[i].id != ProposalAudit(plan.finish.proposal, ProposalRevised, IdAt(n))
    {
      assert db.audits[0 + i].id == EventsOf(plan)[i];
    }
  }

  // ---- The last version gets through ----

  function LastOf(plan: Plan): Finish {
    plan.finish.(version := IdAt(LAST_REVISION - 1))
  }

  lemma LastMayFinish(db: Db, end: Db, plan: Plan, x: string, c: S.Scenario)
    requires ValidId(x) && ValidText(x) && plan == PlanFor(x) && Proposed(StoreFor(x), db, plan, c)
    requires plan.finish.proposal in db.proposals && CurrentKey(db, plan.finish.proposal) in db.versions
    requires Current(db, plan.finish.proposal) == FirstOf(plan)
    requires TookIn(db, end, plan.finish.proposal, Pieces(x, LAST_REVISION))
    ensures MayFinish(end, LastOf(plan))
  {
    hide LogOf, TextOf, IdsFrom, EventsFrom, TrimSpace, IdAt, ValidId;
    PiecesAre(x, LAST_REVISION);
    LastIsValid(x);
    LastIsOpen(db, end, plan, x, c);
    LastIsUnlogged(db, end, plan, x, c);
  }

  lemma LastIsValid(x: string)
    requires ValidId(x) && ValidText(x)
    ensures SoundFinish(LastOf(PlanFor(x)))
  {
    IdIsValid(LAST_REVISION - 1);
  }

  lemma LastIsOpen(db: Db, end: Db, plan: Plan, x: string, c: S.Scenario)
    requires plan == PlanFor(x) && Proposed(StoreFor(x), db, plan, c)
    requires plan.finish.proposal in db.proposals && CurrentKey(db, plan.finish.proposal) in db.versions
    requires Current(db, plan.finish.proposal) == FirstOf(plan)
    requires TookIn(db, end, plan.finish.proposal, Pieces(x, LAST_REVISION))
    ensures Open(end, LastOf(plan))
  {
    hide LogOf, TextOf, IdsFrom, EventsFrom, TrimSpace, IdAt;
    PiecesAre(x, LAST_REVISION);
  }

  lemma LastIsUnlogged(db: Db, end: Db, plan: Plan, x: string, c: S.Scenario)
    requires plan == PlanFor(x) && Proposed(StoreFor(x), db, plan, c)
    requires EventsFrom(db.audits, end.audits, plan.finish.proposal, Pieces(x, LAST_REVISION))
    ensures var f := LastOf(plan);
            && !AuditIdUsed(end.audits, ProposalAudit(f.proposal, ProposalSubmitted, f.request))
            && !AuditIdUsed(end.audits, ApprovalAudit(f.proposal, f.version, f.actor.id, ProposalApproved, f.request))
  {
    forall i | 0 <= i < |end.audits|
      ensures end.audits[i].id.ScenarioCreatedAudit? || end.audits[i].id.ScenarioSimulatedAudit?
              || (end.audits[i].id.ProposalAudit? && end.audits[i].id.action != ProposalSubmitted)
    {
      if i < |db.audits| {
        assert StoreFor(x).audits == [] && db.audits[0 + i].id == EventsOf(plan)[i];
      } else {
        assert LogsPiece(plan.finish.proposal, Pieces(x, LAST_REVISION), end.audits[i]);
      }
    }
  }

  // ---- The run ----

  /** From the store and the plan of one name: a proposal, its revisions, and the commit of the last version. */
  function LongRun(x: string): seq<Step> {
    var plan := PlanFor(x);
    ProposeSteps(0, plan) + ReviseSteps(0, plan.finish.actor, plan.finish.proposal, Pieces(x, LAST_REVISION))
    + FinishSteps(0, LastOf(plan))
  }

  lemma AllRevisionsFit(start: map<Id, nat>, db: Db, x: string, c: S.Scenario) returns (end: Db)
    requires |x| == 1 && ValidId(x) && ValidText(x) && TrimSpace(x) == x
    requires SysInv(start, System(db, map[])) && Proposed(StoreFor(x), db, PlanFor(x), c)
    requires Acts(StoreFor(x), PlanFor(x))
    ensures var f := PlanFor(x).finish;
            && Run(WithContextIds, System(db, map[]), ReviseSteps(0, f.actor, f.proposal, Pieces(x, LAST_REVISION)))
               == System(end, map[])
            && Revisable(db, f.actor, "", f.proposal) && Current(db, f.proposal) == FirstOf(PlanFor(x))
            && TookIn(db, end, f.proposal, Pieces(x, LAST_REVISION))
  {
    var plan := PlanFor(x);
    var f := plan.finish;
    assert SoundWords(plan);
    ProposedIsRevisable(StoreFor(x), db, plan, c);
    forall i | 0 <= i < LAST_REVISION ensures Fresh(db, f.proposal, i) {
      TwoLettersAreFresh(db, plan, x, c, i);
    }
    PiecesAreNew(db, f.actor, f.proposal, x, LAST_REVISION);
    MarkedLength(x);
    PiecesLength(x, LAST_REVISION, MARK_LENGTH + 1);
    hide SysInv, Run, Proposed, Acts, TookIn, Revisable, NewPieces, TextOf, ReviseSteps, Pieces;
    PiecesThatFitAreTaken(start, WithContextIds, System(db, map[]), 0, f.actor, f.proposal, Pieces(x, LAST_REVISION));
    end := Run(WithContextIds, System(db, map[]), ReviseSteps(0, f.actor, f.proposal, Pieces(x, LAST_REVISION))).db;
  }

  lemma MarkedLength(x: string)
    requires TrimSpace(x) == x
    ensures |Marked(x)| == MARK_LENGTH + |x|
  {
  }

  /** The revisions, followed by the review, approval and commit of the last version. */
  lemma RevisedAndCommitted(start: map<Id, nat>, db: Db, x: string, c: S.Scenario) returns (end: Db)
    requires |x| == 1 && ValidId(x) && ValidText(x) && TrimSpace(x) == x
    requires SysInv(start, System(db, map[])) && Proposed(StoreFor(x), db, PlanFor(x), c)
    requires Acts(StoreFor(x), PlanFor(x))
    ensures SysInv(start, System(end, map[]))
    ensures var f := PlanFor(x).finish;
            && f.proposal in end.proposals && end.proposals[f.proposal].current == MAX_VERSIONS
            && EventsAbout(end.audits, f.proposal) >= MAX_EVENTS
            && Run(WithContextIds, System(db, map[]),
                   ReviseSteps(0, f.actor, f.proposal, Pieces(x, LAST_REVISION)) + FinishSteps(0, LastOf(PlanFor(x))))
               == System(end, map[])
  {
    hide SysInv, Run, Proposed, Acts, TookIn, Revisable, MayFinish, Open, Finished, ReviseSteps, FinishSteps;
    hide Pieces, Blocked;
    var plan := PlanFor(x);
    var f, last := plan.finish, LastOf(plan);
    var revising := ReviseSteps(0, f.actor, f.proposal, Pieces(x, LAST_REVISION));
    var revised := AllRevisionsFit(start, db, x, c);
    RunKeepsInv(start, WithContextIds, System(db, map[]), revising);
    LastVersion(db, revised, x, c);
    LastMayFinish(db, revised, plan, x, c);
    end := CommitsAlone(start, revised, last);
    RunThen(System(db, map[]), revising, FinishSteps(0, last));
  }

  lemma LastVersion(db: Db, revised: Db, x: string, c: S.Scenario)
    requires var f := PlanFor(x).finish;
             && Proposed(StoreFor(x), db, PlanFor(x), c) && Revisable(db, f.actor, "", f.proposal)
             && TookIn(db, revised, f.proposal, Pieces(x, LAST_REVISION))
    ensures var f := PlanFor(x).finish;
            && f.proposal in db.proposals && CurrentKey(db, f.proposal) in db.versions
            && f.proposal in revised.proposals && revised.proposals[f.proposal].current == MAX_VERSIONS
  {
    PiecesAre(x, LAST_REVISION);
    hide LogOf, MayOperate, Pieces, Continues, IdsFrom, EventsFrom;
  }

  lemma CommitsAlone(start: map<Id, nat>, db: Db, f: Finish) returns (end: Db)
    requires SysInv(start, System(db, map[])) && MayFinish(db, f)
    ensures SysInv(start, System(end, map[]))
    ensures Run(WithContextIds, System(db, map[]), FinishSteps(0, f)) == System(end, map[])
    ensures f.proposal in db.proposals && f.proposal in end.proposals
    ensures end.proposals[f.proposal].current == db.proposals[f.proposal].current
    ensures EventsAbout(end.audits, f.proposal) >= db.proposals[f.proposal].current + 3
  {
    hide DbInv, ClientsInv, Run, MayFinish, Open, Finished, FinishSteps;
    MeansSoundAndOpen(db, f);
    DraftsCommit(start, System(db, map[]), 0, f);
    RunKeepsInv(start, WithContextIds, System(db, map[]), FinishSteps(0, f));
    end := Run(WithContextIds, System(db, map[]), FinishSteps(0, f)).db;
    ThreeMoreEvents(start, db, f, end, f.proposal);
  }

  /** With the three events of the finish a proposal has three events more than versions. */
  lemma ThreeMoreEvents(start: map<Id, nat>, db: Db, f: Finish, end: Db, p: Id)
    requires DbInv(start, db) && Open(db, f) && Finished(db, f, end) && p == f.proposal
    ensures p in db.proposals && p in end.proposals && end.proposals[p].current == db.proposals[p].current
    ensures EventsAbout(end.audits, p) >= db.proposals[p].current + 3
  {
    hide DbInv, FoldAudit, EventsAbout;
    Lives.AuditTellsLife(start, db, p);
    Lives.EventsCoverVersions(db.audits, p);
    var submitted, approved, committed := SubmittedEvent(db, f), ApprovedEvent(f), CommitEvent(CommitInputOf(f));
    AuditNext(db.audits, submitted, p);
    AuditNext(db.audits + [submitted], approved, p);
    AuditNext(db.audits + [submitted] + [approved], committed, p);
    assert end.audits == db.audits + [submitted] + [approved] + [committed];
  }

  lemma StoreIsReady(x: string)
    requires ValidId(x) && ValidText(x)
    ensures var a := StoreFor(x);
            Fits(a, PlanFor(x)) && Acts(a, PlanFor(x)) && SysInv(StartOf(a), System(a, map[]))
  {
    hide SysInv, Seeded, StoreFor, PlanFor, SoundWords, Acts, Simulates, Unused;
    PlanFitsStore(x);
    SeededIsConsistent(StoreFor(x));
  }

  lemma LongRunEnds(x: string) returns (end: Db)
    requires |x| == 1 && ValidId(x) && ValidText(x) && TrimSpace(x) == x
    ensures var p := PlanFor(x).finish.proposal;
            && Run(WithContextIds, System(StoreFor(x), map[]), LongRun(x)).db == end
            && p in end.proposals && end.proposals[p].current == MAX_VERSIONS
            && EventsAbout(end.audits, p) == MAX_EVENTS
  {
    hide DbInv, ClientsInv, Fits, Acts, Run, Proposed, ReviseSteps, FinishSteps, ProposeSteps, Pieces, LastOf;
    hide PlanFor, StoreFor;
    var a, plan, start := StoreFor(x), PlanFor(x), StartOf(StoreFor(x));
    StoreIsReady(x);
    var p := plan.finish.proposal;
    var revising := ReviseSteps(0, plan.finish.actor, p, Pieces(x, LAST_REVISION));
    var db, c := ReachesProposal(start, System(a, map[]), 0, plan);
    RunKeepsInv(start, WithContextIds, System(a, map[]), ProposeSteps(0, plan));
    end := RevisedAndCommitted(start, db, x, c);
    RunThen(System(a, map[]), ProposeSteps(0, plan), revising + FinishSteps(0, LastOf(plan)));
    assert LongRun(x) == ProposeSteps(0, plan) + (revising + FinishSteps(0, LastOf(plan)));
    Lives.LivesAreBounded(start, end, p);
  }

  /** There is a run from a seeded store in which a proposal gets as many versions, and as many events, as any
      proposal of any run can have. */
  lemma LongestLife() returns (a: Db, steps: seq<Step>, p: Id)
    ensures Seeded(a)
    ensures var end := Run(WithContextIds, System(a, map[]), steps).db;
            p in end.proposals && end.proposals[p].current == MAX_VERSIONS && EventsAbout(end.audits, p) == MAX_EVENTS
  {
    var x := "x";
    assert TrimLeft(x) == x && TrimRight(x) == x && TrimSpace(x) == x;
    a, steps, p := StoreFor(x), LongRun(x), PlanFor(x).finish.proposal;
    PlanFitsStore(x);
    hide Run, LongRun, Seeded;
    var end := LongRunEnds(x);
  }
}
